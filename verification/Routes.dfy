/**
 The overlap test that refuses a tunnel network already routed elsewhere. A listing is
 a sequence of lines, each a sequence of fields; a field that does not parse as an
 address prefix is None.
 */
module Routes {
  import opened Wrappers

  function Pow2(n: nat): (p: nat)
    ensures p > 0
  {
    if n == 0 then 1 else 2 * Pow2(n - 1)
  }

  /** An address and a length, as written: bits after the length need not be zero. */
  datatype Prefix = Prefix(width: nat, address: nat, bits: nat) {
    predicate Valid() { (width == 32 || width == 128) && bits <= width && address < Pow2(width) }

    /** The leading `bits` bits of an address. */
    function Top(a: nat): int
      requires bits <= width
    {
      a / Pow2(width - bits)
    }

    /** As the parser's library decides it: same family, same leading bits. */
    predicate Contains(family: nat, a: nat)
      requires bits <= width
    {
      family == width && Top(a) == Top(address)
    }

    /** The network the prefix denotes. */
    ghost predicate Covers(a: nat)
      requires Valid()
    {
      a < Pow2(width) && Top(a) == Top(address)
    }
  }

  type Listing = seq<seq<Option<Prefix>>>

  ghost predicate WellFormed(listing: Listing) {
    forall i, j :: 0 <= i < |listing| && 0 <= j < |listing[i]| && listing[i][j].Some? ==> listing[i][j].value.Valid()
  }

  /** Some address of the same family lies in both networks. */
  ghost predicate Overlap(p: Prefix, q: Prefix)
    requires p.Valid() && q.Valid()
  {
    p.width == q.width && exists a: nat :: p.Covers(a) && q.Covers(a)
  }

  /** The field names a network, other than a default route, that shares an address with `wanted`. */
  ghost predicate Conflicts(wanted: Prefix, field: Option<Prefix>)
    requires wanted.Valid() && (field.Some? ==> field.value.Valid())
  {
    field.Some? && field.value.bits != 0 && Overlap(wanted, field.value)
  }

  lemma TwiceProduct(a: nat, b: nat)
    ensures 2 * (a * b) == (2 * a) * b
  {
  }

  lemma {:induction false} Pow2Adds(m: nat, n: nat)
    ensures Pow2(m + n) == Pow2(m) * Pow2(n)
  {
    if m > 0 {
      Pow2Adds(m - 1, n);
      TwiceProduct(Pow2(m - 1), Pow2(n));
    }
  }

  lemma Scale(a: int, b: int, d: nat)
    requires a <= b
    ensures a * d <= b * d
  {
  }

  lemma QuotientUnique(x: int, d: nat, q: int)
    requires d > 0 && q * d <= x < (q + 1) * d
    ensures x / d == q
  {
    var e := x / d;
    assert e * d <= x < (e + 1) * d;
    if e < q {
      Scale(e + 1, q, d);
    } else if e > q {
      Scale(q + 1, e, d);
    }
  }

  lemma DivideTwice(x: nat, d: nat, e: nat)
    requires d > 0 && e > 0
    ensures d * e > 0 && x / (d * e) == x / d / e
  {
    var q := x / d;
    var r := q / e;
    var de := d * e;
    Quotient(x, d);
    Quotient(q, e);
    Scale(r * e, q, d);
    Scale(q + 1, (r + 1) * e, d);
    Regroup(r, e, d);
    Regroup(r + 1, e, d);
    Scale(1, d, e);
    QuotientUnique(x, de, r);
  }

  lemma Quotient(x: int, d: nat)
    requires d > 0
    ensures (x / d) * d <= x < (x / d + 1) * d
  {
  }

  lemma Regroup(r: int, e: int, d: int)
    ensures r * e * d == r * (d * e)
  {
  }

  /** A shorter prefix sees only the leading bits a longer one sees. */
  lemma ShorterSeesLess(short: Prefix, long: Prefix, a: nat, b: nat)
    requires short.bits <= long.bits <= long.width == short.width
    requires long.Top(a) == long.Top(b)
    ensures short.Top(a) == short.Top(b)
  {
    var fine, extra := long.width - long.bits, long.bits - short.bits;
    Pow2Adds(fine, extra);
    DivideTwice(a, Pow2(fine), Pow2(extra));
    DivideTwice(b, Pow2(fine), Pow2(extra));
  }

  /** The library's two containment questions decide overlap, for unmasked prefixes too. */
  lemma ContainmentDecidesOverlap(wanted: Prefix, p: Prefix)
    requires wanted.Valid() && p.Valid()
    ensures (p.Contains(wanted.width, wanted.address) || wanted.Contains(p.width, p.address)) <==> Overlap(wanted, p)
  {
    if p.Contains(wanted.width, wanted.address) {
      assert wanted.Covers(wanted.address) && p.Covers(wanted.address);
    }
    if wanted.Contains(p.width, p.address) {
      assert wanted.Covers(p.address) && p.Covers(p.address);
    }
    if Overlap(wanted, p) {
      var a: nat :| wanted.Covers(a) && p.Covers(a);
      if p.bits <= wanted.bits {
        ShorterSeesLess(p, wanted, a, wanted.address);
      } else {
        ShorterSeesLess(wanted, p, a, p.address);
      }
    }
  }

  /** Refused exactly when some listed network overlaps the wanted one. */
  method CheckRoutes(wanted: Prefix, listing: Listing) returns (clear: bool)
    requires wanted.Valid() && WellFormed(listing)
    ensures clear <==>
      forall i, j :: 0 <= i < |listing| && 0 <= j < |listing[i]| ==> !Conflicts(wanted, listing[i][j])
  {
    for i := 0 to |listing|
      invariant forall k, j :: 0 <= k < i && 0 <= j < |listing[k]| ==> !Conflicts(wanted, listing[k][j])
    {
      for j := 0 to |listing[i]|
        invariant forall k :: 0 <= k < j ==> !Conflicts(wanted, listing[i][k])
      {
        match listing[i][j]
        case None =>
        case Some(p) =>
          ContainmentDecidesOverlap(wanted, p);
          if p.bits != 0 && (p.Contains(wanted.width, wanted.address) || wanted.Contains(p.width, p.address)) {
            assert Conflicts(wanted, listing[i][j]);
            return false;
          }
      }
    }
    return true;
  }

  lemma Doubling(n: nat, v: nat, square: nat)
    requires Pow2(n) == v && v * v == square
    ensures Pow2(n + n) == square
  {
    Pow2Adds(n, n);
  }

  lemma AddressSpaces()
    ensures Pow2(32) == 0x1_0000_0000 && Pow2(128) == 0x1_00000000_00000000_00000000_00000000
  {
    hide Pow2;
    FirstPower();
    Doubling(4, 0x10, 0x100);
    Doubling(8, 0x100, 0x10000);
    Doubling(16, 0x10000, 0x1_0000_0000);
    Doubling(32, 0x1_0000_0000, 0x1_00000000_00000000);
    Doubling(64, 0x1_00000000_00000000, 0x1_00000000_00000000_00000000_00000000);
  }

  lemma FirstPower()
    ensures Pow2(4) == 16
  {
    assert Pow2(2) == 4;
  }
}
