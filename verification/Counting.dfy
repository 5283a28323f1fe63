/** Finite sets of known size, and what fits inside them. */
module Counting {
  /** The integers from `lo` up to, not including, `hi`. */
  function Range(lo: int, hi: int): (s: set<int>)
    requires lo <= hi
    ensures |s| == hi - lo && forall i :: i in s <==> lo <= i < hi
    decreases hi - lo
  {
    if lo == hi then {} else {hi - 1} + Range(lo, hi - 1)
  }

  lemma {:induction false} SubsetIsSmaller<T>(small: set<T>, large: set<T>)
    requires small <= large
    ensures |small| <= |large|
  {
    if small != {} {
      var x :| x in small;
      SubsetIsSmaller(small - {x}, large - {x});
    }
  }

  const COLUMNS: nat := 5

  function Row(i: nat): (s: set<(nat, nat)>)
    ensures |s| == COLUMNS && forall p :: p in s <==> p.0 == i && p.1 < COLUMNS
  {
    {(i, 0), (i, 1), (i, 2), (i, 3), (i, 4)}
  }

  /** `rows` rows of five cells, the first of them row `lo`. */
  function Grid(lo: nat, rows: nat): (s: set<(nat, nat)>)
    ensures |s| == COLUMNS * rows && forall p :: p in s <==> lo <= p.0 < lo + rows && p.1 < COLUMNS
  {
    if rows == 0 then {}
    else
      var rest, row := Grid(lo, rows - 1), Row(lo + rows - 1);
      assert rest !! row;
      rest + row
  }
}
