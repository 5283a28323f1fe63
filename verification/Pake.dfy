/**
 The native key-exchange library as its callers see it: a table of live handles, and the
 wrapper that owns one handle and gives it up once.
 */
module Pake {
  import opened Wrappers
  import opened Devices

  const HANDLE_LIMIT: nat := 256
  const MESSAGE_SIZE: nat := 33
  const CODE_SPACE: nat := 1_0000_0000

  predicate IsDigit(c: char) { '0' <= c <= '9' }

  predicate CodeOk(code: string) { |code| == 8 && forall i :: 0 <= i < |code| ==> IsDigit(code[i]) }

  /** `n` in decimal, padded to `width` digits. */
  function Decimal(n: nat, width: nat): (s: string)
    ensures |s| == width && forall i :: 0 <= i < |s| ==> IsDigit(s[i])
  {
    if width == 0 then "" else Decimal(n / 10, width - 1) + [(n % 10 + '0' as int) as char]
  }

  function Value(s: string): nat
    requires forall i :: 0 <= i < |s| ==> IsDigit(s[i])
  {
    if s == "" then 0
    else
      var last := s[|s| - 1];
      assert IsDigit(last);
      10 * Value(s[..|s| - 1]) + (last as int - '0' as int)
  }

  function Power(width: nat): nat { if width == 0 then 1 else 10 * Power(width - 1) }

  /** A padded number reads back as itself, so different draws show different codes. */
  lemma {:induction false} DecimalRoundTrip(n: nat, width: nat)
    requires n < Power(width)
    ensures Value(Decimal(n, width)) == n
  {
    if width > 0 {
      DecimalRoundTrip(n / 10, width - 1);
      assert Decimal(n, width)[..width - 1] == Decimal(n / 10, width - 1);
    }
  }

  /** The code shown for a draw below one hundred million. */
  function FormatCode(n: nat): (code: string)
    ensures CodeOk(code)
  {
    Decimal(n, 8)
  }

  lemma CodesAreDistinct(m: nat, n: nat)
    requires m < CODE_SPACE && n < CODE_SPACE && FormatCode(m) == FormatCode(n)
    ensures m == n
  {
    assert Power(8) == CODE_SPACE by {
      assert Power(4) == 1_0000;
      assert Power(8) == 10 * (10 * (10 * (10 * Power(4))));
    }
    DecimalRoundTrip(m, 8);
    DecimalRoundTrip(n, 8);
  }

  class Native {
    var states: set<nat>  // the live handles
    var next: nat

    ghost var spent: set<nat>  // handles finished or freed
    ghost var misses: nat      // calls on a handle that was no longer live
    ghost var failures: nat    // handles the library could not open
    ghost var outcomes: map<nat, Option<Bytes>>  // by finished handle, the shared key if there was one

    /** Every handle ever issued is live or spent, never both: none is consumed twice, and only a spent one was finished. */
    ghost predicate Valid()
      reads this
    {
      && 1 <= next && |states| <= HANDLE_LIMIT
      && (forall h :: h in states ==> 1 <= h < next && h !in spent)
      && (forall h :: h in spent ==> 1 <= h < next)
      && outcomes.Keys <= spent
      && (forall h :: 1 <= h < next && h !in states ==> h in spent)
    }

    constructor ()
      ensures Valid() && states == {} && misses == 0 && spent == {} && failures == 0 && outcomes == map[]
    {
      states, next, spent, misses, failures, outcomes := {}, 1, {}, 0, 0, map[];
    }

    /** Open a handle; 0 when the arguments are wrong, the table is full, or the library fails. */
    method Start(role: nat, code: string) returns (handle: nat)
      requires Valid()
      modifies this
      ensures Valid() && spent == old(spent) && misses == old(misses) && outcomes == old(outcomes)
      ensures handle == 0 ==> states == old(states)
      ensures handle == 0 ==> role > 1 || !CodeOk(code) || |states| == HANDLE_LIMIT || failures > old(failures)
      ensures handle != 0 ==> failures == old(failures)
      ensures handle != 0 ==> handle !in old(states) && handle !in spent && states == old(states) + {handle}
      ensures handle != 0 ==> role <= 1 && CodeOk(code) && |old(states)| < HANDLE_LIMIT
    {
      if role > 1 || !CodeOk(code) { return 0; }
      var locked: bool := *;
      if !locked {
        failures := failures + 1;
        return 0;
      }
      if |states| >= HANDLE_LIMIT { return 0; }
      var produced: bool := *;  // an outbound message of 33 bytes
      if !produced {
        failures := failures + 1;
        return 0;
      }
      handle := next;
      next := next + 1;
      states := states + {handle};
    }

    /** Consume a handle for its shared key; the handle is gone even when this fails. */
    method Finish(handle: nat) returns (key: Option<Bytes>)
      requires Valid()
      modifies this
      ensures Valid() && states == old(states) - {handle}
      ensures handle in old(states) ==> spent == old(spent) + {handle} && misses == old(misses)
      ensures handle !in old(states) ==> spent == old(spent) && misses == old(misses) + 1 && key.None?
      ensures key.Some? ==> |key.value| == KEY_SIZE
      ensures outcomes == if handle in old(states) then old(outcomes)[handle := key] else old(outcomes)
      ensures failures == old(failures)
    {
      Retire(handle);
      key := None;
      if handle !in states { return; }
      states := states - {handle};
      var agreed: bool := *;
      if agreed {
        var shared: Bytes := *;
        if |shared| == KEY_SIZE { key := Some(shared); }
      }
      outcomes := outcomes[handle := key];
    }

    method Free(handle: nat)
      requires Valid()
      modifies this
      ensures Valid() && states == old(states) - {handle}
      ensures handle in old(states) ==> spent == old(spent) + {handle} && misses == old(misses)
      ensures handle !in old(states) ==> spent == old(spent) && misses == old(misses) + 1
      ensures outcomes == old(outcomes) && failures == old(failures)
    {
      Retire(handle);
      states := states - {handle};
    }

    ghost method Retire(handle: nat)
      modifies this`spent, this`misses
      ensures handle in states ==> spent == old(spent) + {handle} && misses == old(misses)
      ensures handle !in states ==> spent == old(spent) && misses == old(misses) + 1
    {
      if handle in states { spent := spent + {handle}; } else { misses := misses + 1; }
    }
  }

  /** One side of an exchange, the owner of a native handle until it is 0. */
  class Exchange {
    const native: Native
    var handle: nat

    constructor (native: Native, handle: nat)
      ensures this.native == native && this.handle == handle
    {
      this.native, this.handle := native, handle;
    }

    static method Begin(native: Native, role: nat, code: string) returns (e: Exchange?)
      requires native.Valid()
      modifies native
      ensures native.Valid() && native.spent == old(native.spent) && native.misses == old(native.misses)
      ensures native.outcomes == old(native.outcomes)
      ensures e == null ==> native.states == old(native.states)
      ensures e == null ==> role > 1 || !CodeOk(code) || |native.states| == HANDLE_LIMIT || native.failures > old(native.failures)
      ensures e != null ==> native.failures == old(native.failures)
      ensures e != null ==> fresh(e) && e.native == native && e.handle != 0 && e.handle !in old(native.states)
      ensures e != null ==> native.states == old(native.states) + {e.handle}
    {
      if |code| != 8 || role > 1 { return null; }
      var handle := native.Start(role, code);
      if handle == 0 { return null; }
      e := new Exchange(native, handle);
    }

    /** Use the handle once; whatever comes of it, the exchange owns nothing afterwards. */
    method Finish(peer: Bytes) returns (key: Option<Bytes>)
      requires native.Valid() && (handle != 0 ==> handle in native.states)
      modifies this, native
      ensures native.Valid() && handle == 0 && native.states == old(native.states) - {old(handle)}
      ensures native.misses == old(native.misses)
      ensures old(handle) != 0 ==> native.spent == old(native.spent) + {old(handle)}
      ensures key.Some? ==> |key.value| == KEY_SIZE && |peer| == MESSAGE_SIZE && old(handle) != 0
      ensures native.outcomes == if |peer| == MESSAGE_SIZE && old(handle) != 0 then old(native.outcomes)[old(handle) := key]
                                 else old(native.outcomes)
      ensures native.failures == old(native.failures)
    {
      if |peer| != MESSAGE_SIZE || handle == 0 {
        Close();
        return None;
      }
      var h := handle;
      handle := 0;
      key := native.Finish(h);
    }

    method Close()
      requires native.Valid() && (handle != 0 ==> handle in native.states)
      modifies this, native
      ensures native.Valid() && handle == 0 && native.states == old(native.states) - {old(handle)}
      ensures native.misses == old(native.misses)
      ensures old(handle) != 0 ==> native.spent == old(native.spent) + {old(handle)}
      ensures old(handle) == 0 ==> native.spent == old(native.spent) && native.states == old(native.states)
      ensures native.outcomes == old(native.outcomes) && native.failures == old(native.failures)
    {
      if handle != 0 {
        native.Free(handle);
        handle := 0;
      } else {
        assert 0 !in native.states;
      }
    }

    /** End the exchange: with a peer message finish it for the key, then close what is left. */
    method Settle(peer: Option<Bytes>) returns (key: Option<Bytes>)
      requires native.Valid() && handle != 0 && handle in native.states
      modifies this, native
      ensures native.Valid() && handle == 0 && native.states == old(native.states) - {old(handle)}
      ensures native.misses == old(native.misses) && native.spent == old(native.spent) + {old(handle)}
      ensures key.Some? ==> |key.value| == KEY_SIZE && peer.Some? && |peer.value| == MESSAGE_SIZE
      ensures native.outcomes == if peer.Some? && |peer.value| == MESSAGE_SIZE then old(native.outcomes)[old(handle) := key]
                                 else old(native.outcomes)
      ensures native.failures == old(native.failures)
    {
      hide Native.Valid;
      key := None;
      if peer.Some? {
        key := Finish(peer.value);
      }
      Close();
    }
  }
}
