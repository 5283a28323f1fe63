/**
 How fast pairing codes can be guessed at: codes are ten seconds apart and each pays for
 five exchange starts.
 */
module Pacing {
  import opened Counting

  const CODE_GAP: int := 10_000_000_000  // nanoseconds
  const MAX_STARTS: nat := COLUMNS

  /** A code and the times of the exchange starts it paid for. */
  datatype Lot = Lot(created: int, starts: seq<int>)

  /**
   Codes in order, far enough apart, each paying for a few starts between its own creation
   and the creation of the next code, or `clock` if it is the last.
   */
  ghost predicate Paced(lots: seq<Lot>, clock: int) {
    && (forall i :: 0 <= i < |lots| - 1 ==> lots[i].created + CODE_GAP <= lots[i + 1].created)
    && (forall i, j :: 0 <= i < |lots| && 0 <= j < |lots[i].starts| ==>
          lots[i].created <= lots[i].starts[j] <= if i + 1 < |lots| then lots[i + 1].created else clock)
    && (forall i :: 0 <= i < |lots| ==> |lots[i].starts| <= MAX_STARTS)
    && (lots != [] ==> lots[|lots| - 1].created <= clock)
  }

  lemma PacedLater(lots: seq<Lot>, clock: int, later: int)
    requires Paced(lots, clock) && clock <= later
    ensures Paced(lots, later)
  {
  }

  lemma PacedCode(lots: seq<Lot>, clock: int)
    requires Paced(lots, clock) && (lots != [] ==> lots[|lots| - 1].created + CODE_GAP <= clock)
    ensures Paced(lots + [Lot(clock, [])], clock)
  {
    var after := lots + [Lot(clock, [])];
    assert forall i :: 0 <= i < |lots| ==> after[i] == lots[i];
  }

  function WithStart(lots: seq<Lot>, time: int): seq<Lot> {
    if lots == [] then lots
    else
      var last := lots[|lots| - 1];
      lots[|lots| - 1 := last.(starts := last.starts + [time])]
  }

  lemma PacedStart(lots: seq<Lot>, clock: int)
    requires Paced(lots, clock) && lots != [] && |lots[|lots| - 1].starts| < MAX_STARTS
    ensures Paced(WithStart(lots, clock), clock)
  {
    var n, after := |lots| - 1, WithStart(lots, clock);
    assert forall i :: 0 <= i < |lots| && i != n ==> after[i] == lots[i];
    forall j | 0 <= j < |after[n].starts| ensures lots[n].created <= after[n].starts[j] <= clock {
      if j < |lots[n].starts| { assert after[n].starts[j] == lots[n].starts[j]; }
    }
  }

  /** Code creations `i` and `j` are at least `j - i` gaps apart. */
  lemma {:induction false} CreationsSpread(lots: seq<Lot>, clock: int, i: nat, j: nat)
    requires Paced(lots, clock) && i <= j < |lots|
    ensures lots[i].created + CODE_GAP * (j - i) <= lots[j].created
    decreases j
  {
    if i < j {
      CreationsSpread(lots, clock, i, j - 1);
      assert lots[j - 1].created + CODE_GAP <= lots[j - 1 + 1].created;
    }
  }

  /** The starts of the closed interval of length `width` from `from`, by code and by place within it. */
  ghost function Within(lots: seq<Lot>, from: int, width: nat): set<(nat, nat)> {
    set i: nat, j: nat | i < |lots| && j < |lots[i].starts| && from <= lots[i].starts[j] <= from + width :: (i, j)
  }

  lemma {:induction false} FirstRow(s: set<(nat, nat)>) returns (first: (nat, nat))
    requires s != {}
    ensures first in s && forall p :: p in s ==> first.0 <= p.0
  {
    first :| first in s;
    if s != {first} {
      var rest := FirstRow(s - {first});
      if rest.0 < first.0 { first := rest; }
    }
  }

  /** Any closed interval of `width` holds at most 5 * (width / 10 s + 2) exchange starts. */
  lemma GuessRate(lots: seq<Lot>, clock: int, from: int, width: nat)
    requires Paced(lots, clock)
    ensures |Within(lots, from, width)| <= MAX_STARTS * (width / CODE_GAP + 2)
  {
    var s := Within(lots, from, width);
    var rows := width / CODE_GAP + 2;
    if s != {} {
      var first := FirstRow(s);
      forall p | p in s ensures p in Grid(first.0, rows) {
        RowsReach(lots, clock, from, width, first, p);
      }
      SubsetIsSmaller(s, Grid(first.0, rows));
    }
  }

  lemma RowsReach(lots: seq<Lot>, clock: int, from: int, width: nat, first: (nat, nat), p: (nat, nat))
    requires Paced(lots, clock) && first in Within(lots, from, width) && p in Within(lots, from, width) && first.0 <= p.0
    ensures p.0 < first.0 + width / CODE_GAP + 2 && p.1 < MAX_STARTS
  {
    if first.0 < p.0 {
      CreationsSpread(lots, clock, first.0 + 1, p.0);
      assert lots[first.0].starts[first.1] <= lots[first.0 + 1].created;
      assert CODE_GAP * (p.0 - first.0 - 1) <= width;
    }
  }
}
