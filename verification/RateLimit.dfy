/**
 The sign-in limiter: fixed one-minute windows, one for everybody and one for each host.
 What they bound is the number of calls in any minute, wherever it begins.
 */
module RateLimit {
  import opened Counting

  const MINUTE: int := 60_000_000_000  // nanoseconds
  const GLOBAL_CAP: nat := 60
  const HOST_CAP: nat := 10
  const HOST_TABLE: nat := 1024

  datatype Attempts = Attempts(since: int, count: nat)

  // ---- fixed windows over a log of admitted times ----

  /** Where the current window and the one before it begin in a log, and when the current one began. */
  datatype Windows = Windows(previous: nat, current: nat, since: int)

  ghost predicate Ascending(times: seq<int>) {
    forall i, j :: 0 <= i <= j < |times| ==> times[i] <= times[j]
  }

  /** Two calls that are 2*cap apart in the log are at least a minute apart in time. */
  ghost predicate Spaced(times: seq<int>, cap: nat) {
    forall i :: 0 <= i && i + 2 * cap < |times| ==> times[i] + MINUTE <= times[i + 2 * cap]
  }

  ghost predicate Windowed(times: seq<int>, w: Windows, cap: nat) {
    && w.previous <= w.current <= |times|
    && |times| - w.current <= cap && w.current - w.previous <= cap
    && (forall i :: 0 <= i < w.previous ==> times[i] + MINUTE <= w.since)
    && (forall i :: 0 <= i < w.current ==> times[i] <= w.since)
    && (forall i :: w.current <= i < |times| ==> w.since <= times[i])
    && Ascending(times) && Spaced(times, cap)
  }

  /** A window that is over gives way to a new one. */
  lemma Roll(times: seq<int>, w: Windows, cap: nat, now: int)
    requires Windowed(times, w, cap) && w.since + MINUTE <= now
    requires forall i :: 0 <= i < |times| ==> times[i] <= now
    ensures Windowed(times, Windows(w.current, |times|, now), cap)
  {
  }

  /** A window with room admits one more call. */
  lemma Admit(times: seq<int>, w: Windows, cap: nat, now: int)
    requires Windowed(times, w, cap) && |times| - w.current < cap && w.since <= now
    requires forall i :: 0 <= i < |times| ==> times[i] <= now
    ensures Windowed(times + [now], w, cap)
  {
  }

  /** The calls of a log in the half-open minute from `start`. */
  ghost function InMinute(times: seq<int>, start: int): set<nat> {
    set i: nat | i < |times| && start <= times[i] < start + MINUTE
  }

  /** Fixed windows of `cap` calls bound every sliding minute by twice the cap. */
  lemma SlidingBound(times: seq<int>, cap: nat, start: int)
    requires Ascending(times) && Spaced(times, cap)
    ensures |InMinute(times, start)| <= 2 * cap
  {
    var s := InMinute(times, start);
    if s != {} {
      var m := First(times, start, 0);
      forall i | i in s ensures i in Range(m, m + 2 * cap) {
        assert m + 2 * cap < |times| ==> times[m] + MINUTE <= times[m + 2 * cap];
      }
      SubsetIsSmaller(s, Range(m, m + 2 * cap));
    }
  }

  lemma {:induction false} First(times: seq<int>, start: int, from: nat) returns (m: nat)
    requires from <= |times| && forall i :: i in InMinute(times, start) ==> from <= i
    requires InMinute(times, start) != {}
    ensures m in InMinute(times, start) && forall i :: i in InMinute(times, start) ==> m <= i
    decreases |times| - from
  {
    if from in InMinute(times, start) {
      m := from;
    } else {
      m := First(times, start, from + 1);
    }
  }

  // ---- the limiter ----

  datatype Call = Call(time: int, host: string)

  function Times(log: seq<Call>): seq<int> { seq(|log|, i requires 0 <= i < |log| => log[i].time) }

  /** The admitted calls of one host, in order. */
  function CallsOf(log: seq<Call>, host: string): seq<int> {
    if log == [] then []
    else
      var calls := CallsOf(log[..|log| - 1], host);
      var last := log[|log| - 1];
      if last.host == host then calls + [last.time] else calls
  }

  lemma LogGrows(log: seq<Call>, call: Call)
    ensures Times(log + [call]) == Times(log) + [call.time]
    ensures CallsOf(log + [call], call.host) == CallsOf(log, call.host) + [call.time]
    ensures forall h :: h != call.host ==> CallsOf(log + [call], h) == CallsOf(log, h)
  {
    assert (log + [call])[..|log|] == log;
  }

  ghost predicate Logged(log: seq<Call>, call: Call) { call in log }

  lemma {:induction false} CallsAreLogged(log: seq<Call>, host: string)
    ensures forall i :: 0 <= i < |CallsOf(log, host)| ==> Logged(log, Call(CallsOf(log, host)[i], host))
  {
    if log != [] {
      var n := |log| - 1;
      CallsAreLogged(log[..n], host);
      var calls, before := CallsOf(log, host), CallsOf(log[..n], host);
      assert log == log[..n] + [log[n]];
      forall i | 0 <= i < |calls| ensures Logged(log, Call(calls[i], host)) {
        if i < |before| { assert Logged(log[..n], Call(before[i], host)); }
      }
    }
  }

  /** Hosts with a call in the minute are at most as many as the calls. */
  lemma {:induction false} HostsInjectIntoCalls(log: seq<Call>, indices: set<nat>, hosts: set<string>)
    requires forall i :: i in indices ==> i < |log|
    requires forall h :: h in hosts ==> exists i :: i in indices && log[i].host == h
    ensures |hosts| <= |indices|
  {
    if hosts != {} {
      var h :| h in hosts;
      var i :| i in indices && log[i].host == h;
      forall g | g in hosts - {h} ensures exists j :: j in indices - {i} && log[j].host == g {
        var j :| j in indices && log[j].host == g;
      }
      HostsInjectIntoCalls(log, indices - {i}, hosts - {h});
    }
  }

  /** An entry counts its window, which began with the window's first call. */
  ghost predicate Tracks(entry: Attempts, calls: seq<int>, w: Windows) {
    && w.current < |calls| && calls[w.current] == w.since
    && entry == Attempts(w.since, |calls| - w.current)
  }

  /** The host table speaks for the log: every entry is the current window of its host. */
  ghost predicate HostsAgree(log: seq<Call>, attempts: map<string, Attempts>, byHost: map<string, Windows>, clock: int) {
    && (forall h :: h in byHost ==> Windowed(CallsOf(log, h), byHost[h], HOST_CAP))
    && (forall h :: h !in byHost ==> CallsOf(log, h) == [])
    && (forall h :: h in attempts ==> h in byHost && Tracks(attempts[h], CallsOf(log, h), byHost[h]))
    && (forall h :: h in byHost && h !in attempts ==> byHost[h].since + MINUTE <= clock)
  }

  ghost predicate GlobalAgrees(log: seq<Call>, global: Attempts, all: Windows) {
    Windowed(Times(log), all, GLOBAL_CAP) && global == Attempts(all.since, |log| - all.current)
  }

  ghost predicate Past(log: seq<Call>, clock: int) { forall i :: 0 <= i < |log| ==> log[i].time <= clock }

  lemma CallsArePast(log: seq<Call>, host: string, clock: int)
    requires Past(log, clock)
    ensures forall i :: 0 <= i < |CallsOf(log, host)| ==> CallsOf(log, host)[i] <= clock
  {
    CallsAreLogged(log, host);
    forall i | 0 <= i < |CallsOf(log, host)| ensures CallsOf(log, host)[i] <= clock {
      assert Logged(log, Call(CallsOf(log, host)[i], host));
    }
  }

  /** The host table after an admitted call: an open window grows, any other host starts one. */
  function Counted(attempts: map<string, Attempts>, host: string, now: int): map<string, Attempts> {
    var entry := if host in attempts then attempts[host] else Attempts(now, 0);
    attempts[host := entry.(count := entry.count + 1)]
  }

  /** An admitted call keeps the host table and the log in agreement. */
  lemma HostCounted(log: seq<Call>, attempts: map<string, Attempts>, byHost: map<string, Windows>, host: string, now: int)
    returns (after: map<string, Windows>)
    requires HostsAgree(log, attempts, byHost, now) && Past(log, now)
    requires host in attempts ==> attempts[host].count < HOST_CAP
    ensures HostsAgree(log + [Call(now, host)], Counted(attempts, host, now), after, now)
  {
    hide Windowed;
    var calls := CallsOf(log, host);
    var w := if host in attempts then byHost[host]
             else if host in byHost then Windows(byHost[host].current, |calls|, now) else Windows(0, 0, now);
    LogGrows(log, Call(now, host));
    HostWindow(log, attempts, byHost, host, now, w);
    after := byHost[host := w];
  }

  lemma HostWindow(log: seq<Call>, attempts: map<string, Attempts>, byHost: map<string, Windows>, host: string, now: int, w: Windows)
    requires HostsAgree(log, attempts, byHost, now) && Past(log, now)
    requires host in attempts ==> attempts[host].count < HOST_CAP
    requires var calls := CallsOf(log, host);
      w == if host in attempts then byHost[host]
           else if host in byHost then Windows(byHost[host].current, |calls|, now) else Windows(0, 0, now)
    ensures Windowed(CallsOf(log, host) + [now], w, HOST_CAP)
    ensures Tracks(Counted(attempts, host, now)[host], CallsOf(log, host) + [now], w)
  {
    var calls := CallsOf(log, host);
    CallsArePast(log, host, now);
    if host !in attempts && host in byHost {
      Roll(calls, byHost[host], HOST_CAP, now);
    }
    assert Windowed(calls, w, HOST_CAP);
    Admit(calls, w, HOST_CAP, now);
  }

  lemma GlobalCounted(log: seq<Call>, global: Attempts, all: Windows, call: Call)
    requires GlobalAgrees(log, global, all) && Past(log, call.time) && global.count < GLOBAL_CAP && global.since <= call.time
    ensures GlobalAgrees(log + [call], global.(count := global.count + 1), all)
    ensures Past(log + [call], call.time)
  {
    LogGrows(log, call);
    Admit(Times(log), all, GLOBAL_CAP, call.time);
  }

  /** Once expired entries are purged, every entry holds a call of the last minute, so there are few. */
  lemma HostTableIsSmall(log: seq<Call>, attempts: map<string, Attempts>, byHost: map<string, Windows>,
                         global: Attempts, all: Windows, clock: int)
    requires HostsAgree(log, attempts, byHost, clock) && GlobalAgrees(log, global, all) && Past(log, clock)
    requires forall h :: h in attempts ==> clock - attempts[h].since < MINUTE
    ensures |attempts| <= 2 * GLOBAL_CAP
  {
    hide Windowed;
    var start := clock - MINUTE + 1;
    var indices := InMinute(Times(log), start);
    forall h | h in attempts ensures exists i :: i in indices && log[i].host == h {
      CallsAreLogged(log, h);
      assert Tracks(attempts[h], CallsOf(log, h), byHost[h]);
      assert Logged(log, Call(CallsOf(log, h)[byHost[h].current], h));
      var i :| 0 <= i < |log| && log[i] == Call(attempts[h].since, h);
      assert Times(log)[i] == attempts[h].since;
    }
    HostsInjectIntoCalls(log, indices, attempts.Keys);
    WindowedBound(Times(log), all, GLOBAL_CAP, start);
    assert |attempts| == |attempts.Keys|;
  }

  lemma WindowedBound(times: seq<int>, w: Windows, cap: nat, start: int)
    requires Windowed(times, w, cap)
    ensures |InMinute(times, start)| <= 2 * cap
  {
    SlidingBound(times, cap, start);
  }

  lemma CountsAreCapped(log: seq<Call>, attempts: map<string, Attempts>, byHost: map<string, Windows>,
                        global: Attempts, all: Windows, clock: int)
    requires HostsAgree(log, attempts, byHost, clock) && GlobalAgrees(log, global, all)
    ensures global.count <= GLOBAL_CAP && forall h :: h in attempts ==> attempts[h].count <= HOST_CAP
  {
  }

  class Limiter {
    var attempts: map<string, Attempts>
    var global: Attempts

    // Every admitted call, the windows they fell in, and the latest clock reading.
    ghost var log: seq<Call>
    ghost var all: Windows
    ghost var byHost: map<string, Windows>
    ghost var clock: int

    ghost predicate Valid()
      reads this
    {
      GlobalAgrees(log, global, all) && HostsAgree(log, attempts, byHost, clock) && Past(log, clock) && global.since <= clock
    }

    /** The zero time of the first window lies a minute or more before any clock reading. */
    constructor ()
      ensures Valid() && log == [] && clock == 0
    {
      attempts, global := map[], Attempts(-MINUTE, 0);
      log, all, byHost, clock := [], Windows(0, 0, -MINUTE), map[], 0;
    }

    /** Drop the entries whose window is over. */
    method Purge(now: int)
      requires Valid() && clock <= now
      modifies this`attempts, this`clock
      ensures Valid() && clock == now
      ensures attempts == map h | h in old(attempts) && now - old(attempts)[h].since < MINUTE :: old(attempts)[h]
    {
      hide Windowed;
      var todo := attempts.Keys;
      while todo != {}
        invariant todo <= attempts.Keys
        invariant forall h :: h in attempts ==> h in old(attempts) && attempts[h] == old(attempts)[h]
        invariant forall h :: h in old(attempts) && now - old(attempts)[h].since < MINUTE ==> h in attempts
        invariant forall h :: h in attempts && h !in todo ==> now - attempts[h].since < MINUTE
      {
        var h :| h in todo;
        if now - attempts[h].since >= MINUTE {
          attempts := attempts - {h};
        }
        todo := todo - {h};
      }
      clock := now;
    }

    /** Begin a new window for everybody when the current one is over. */
    method RollGlobal(now: int)
      requires Valid() && clock == now
      modifies this`global, this`all
      ensures Valid() && now - global.since < MINUTE && global.since <= now
      ensures now - old(global.since) < MINUTE ==> global == old(global)
      ensures now - old(global.since) >= MINUTE ==> global == Attempts(now, 0)
    {
      if now - global.since >= MINUTE {
        Roll(Times(log), all, GLOBAL_CAP, now);
        global := Attempts(now, 0);
        all := Windows(all.current, |log|, now);
      }
    }

    /**
     Admit or refuse a call from `host` at clock reading `now`. Only a full window refuses:
     the host table holds at most 120 entries, so its own limit never does.
     */
    method AllowLogin(host: string, now: int) returns (ok: bool)
      requires Valid() && clock <= now
      modifies this
      ensures Valid() && clock == now
      ensures log == old(log) + if ok then [Call(now, host)] else []
      ensures !ok ==> global.count == GLOBAL_CAP || (host in attempts && attempts[host].count == HOST_CAP)
      ensures !ok ==> now - global.since < MINUTE && forall h :: h in attempts ==> now - attempts[h].since < MINUTE
      ensures |attempts| <= 2 * GLOBAL_CAP
    {
      hide Windowed, HostsAgree, GlobalAgrees, Past;
      Purge(now);
      RollGlobal(now);
      HostTableIsSmall(log, attempts, byHost, global, all, now);
      CountsAreCapped(log, attempts, byHost, global, all, now);
      var known := host in attempts;
      var entry := if known then attempts[host] else Attempts(now, 0);
      if global.count >= GLOBAL_CAP || (!known && |attempts| >= HOST_TABLE) || entry.count >= HOST_CAP {
        return false;
      }
      GlobalCounted(log, global, all, Call(now, host));
      ghost var next := HostCounted(log, attempts, byHost, host, now);
      attempts := attempts[host := entry.(count := entry.count + 1)];
      global := global.(count := global.count + 1);
      log, byHost := log + [Call(now, host)], next;
      HostTableIsSmall(log, attempts, byHost, global, all, now);
      return true;
    }

    /** Any half-open minute of any run holds at most 120 admitted calls, and at most 20 of any one host. */
    lemma MinuteBound(host: string, start: int)
      requires Valid()
      ensures |InMinute(Times(log), start)| <= 120
      ensures |InMinute(CallsOf(log, host), start)| <= 20
    {
      hide Windowed;
      WindowedBound(Times(log), all, GLOBAL_CAP, start);
      if host in byHost {
        WindowedBound(CallsOf(log, host), byHost[host], HOST_CAP, start);
      } else {
        assert InMinute(CallsOf(log, host), start) == {};
      }
    }
  }
}
