/** rt_lowest_bitmap and the byte cascade in front of it (software/src/scheduler.c:53-71, 231-258):
    the table lookup finds the lowest set bit of the ready group. */
module Bitmap {

  /** Sixteen entries of the table; only the first one differs from row to row. */
  function Row(first: nat): (r: seq<nat>)
    ensures |r| == 16
  {
    [first, 0, 1, 0, 2, 0, 1, 0, 3, 0, 1, 0, 2, 0, 1, 0]
  }

  function Rows(firsts: seq<nat>): (r: seq<nat>)
    ensures |r| == 16 * |firsts|
  {
    if firsts == [] then [] else Row(firsts[0]) + Rows(firsts[1..])
  }

  const FIRSTS: seq<nat> := [0, 4, 5, 4, 6, 4, 5, 4, 7, 4, 5, 4, 6, 4, 5, 4]

  const LOWEST_BITMAP: seq<nat> := Rows(FIRSTS)

  function Mask(p: nat): bv32
    requires p < 32
  {
    1 << p
  }

  function ByteMask(p: nat): bv8
    requires p < 8
  {
    1 << p
  }

  ghost predicate LowestBit(b: bv8, k: nat) {
    k < 8 && b & ByteMask(k) != 0 && b & (ByteMask(k) - 1) == 0
  }

  lemma {:induction false} RowsAt(firsts: seq<nat>, h: nat, l: nat)
    requires h < |firsts| && l < 16
    ensures 16 * h + l < |Rows(firsts)| && Rows(firsts)[16 * h + l] == Row(firsts[h])[l]
  {
    if h > 0 {
      RowsAt(firsts[1..], h - 1, l);
      assert Rows(firsts)[16 * h + l] == Rows(firsts[1..])[16 * (h - 1) + l];
    }
  }

  lemma Nibbles(b: bv8)
    ensures b as int == ((b >> 4) as int) * 16 + (b & 0xf) as int
    ensures ((b >> 4) as int) < 16 && ((b & 0xf) as int) < 16
  {}

  lemma LowNibble(b: bv8)
    requires b & 0xf != 0
    ensures LowestBit(b, Row(0)[(b & 0xf) as int])
  {
    var l := b & 0xf;
    Nibbles(b);
    assert l == 1 || l == 2 || l == 3 || l == 4 || l == 5 || l == 6 || l == 7 || l == 8
        || l == 9 || l == 10 || l == 11 || l == 12 || l == 13 || l == 14 || l == 15;
  }

  lemma HighNibble(b: bv8)
    requires b & 0xf == 0 && b != 0
    ensures LowestBit(b, FIRSTS[(b >> 4) as int])
  {
    var h := b >> 4;
    assert h == 1 || h == 2 || h == 3 || h == 4 || h == 5 || h == 6 || h == 7 || h == 8
        || h == 9 || h == 10 || h == 11 || h == 12 || h == 13 || h == 14 || h == 15;
  }

  lemma RowEntry(first: nat, l: nat)
    requires l < 16
    ensures Row(first)[l] == (if l == 0 then first else Row(0)[l])
  {}

  /** The table entry of every non-zero byte is its lowest set bit. */
  lemma TableIsLowest(b: bv8)
    requires b != 0
    ensures (b as int) < |LOWEST_BITMAP| && LowestBit(b, LOWEST_BITMAP[b as int])
  {
    hide Row, Rows, LowestBit;
    Nibbles(b);
    var h, l := (b >> 4) as int, (b & 0xf) as int;
    RowsAt(FIRSTS, h, l);
    RowEntry(FIRSTS[h], l);
    if b & 0xf != 0 {
      LowNibble(b);
    } else {
      HighNibble(b);
    }
  }

  // ---- The cascade over the four bytes of the group ------------------------------------------

  function Byte0(g: bv32): bv8 { (g & 0xff) as bv8 }
  function Byte1(g: bv32): bv8 { ((g >> 8) & 0xff) as bv8 }
  function Byte2(g: bv32): bv8 { ((g >> 16) & 0xff) as bv8 }
  function Byte3(g: bv32): bv8 { ((g >> 24) & 0xff) as bv8 }

  function Lookup(b: bv8): nat {
    if b as int < |LOWEST_BITMAP| then LOWEST_BITMAP[b as int] else 0
  }

  /** The search of rt_schedule for the highest ready priority. */
  function Cascade(g: bv32): nat {
    if g & 0xff != 0 then Lookup(Byte0(g))
    else if g & 0xff00 != 0 then Lookup(Byte1(g)) + 8
    else if g & 0xff0000 != 0 then Lookup(Byte2(g)) + 16
    else Lookup(Byte3(g)) + 24
  }

  /** The simple search: the lowest set bit. */
  ghost predicate Lowest(g: bv32, n: nat) {
    n < 32 && g & Mask(n) != 0 && g & (Mask(n) - 1) == 0
  }

  lemma LowestInByte0(g: bv32, k: nat)
    requires LowestBit(Byte0(g), k)
    ensures Lowest(g, 0 + k)
  {
    if k < 4 {
      assert k == 0 || k == 1 || k == 2 || k == 3;
    } else {
      assert k == 4 || k == 5 || k == 6 || k == 7;
    }
  }

  lemma LowestInByte1(g: bv32, k: nat)
    requires LowestBit(Byte1(g), k) && g & 0xff == 0
    ensures Lowest(g, 8 + k)
  {
    if k < 4 {
      assert k == 0 || k == 1 || k == 2 || k == 3;
    } else {
      assert k == 4 || k == 5 || k == 6 || k == 7;
    }
  }

  lemma LowestInByte2(g: bv32, k: nat)
    requires LowestBit(Byte2(g), k) && g & 0xffff == 0
    ensures Lowest(g, 16 + k)
  {
    if k < 4 {
      assert k == 0 || k == 1 || k == 2 || k == 3;
    } else {
      assert k == 4 || k == 5 || k == 6 || k == 7;
    }
  }

  lemma LowestInByte3(g: bv32, k: nat)
    requires LowestBit(Byte3(g), k) && g & 0xffffff == 0
    ensures Lowest(g, 24 + k)
  {
    if k < 4 {
      assert k == 0 || k == 1 || k == 2 || k == 3;
    } else {
      assert k == 4 || k == 5 || k == 6 || k == 7;
    }
  }

  /** The table cascade returns the lowest set bit of every non-empty group. */
  lemma CascadeIsLowest(g: bv32)
    requires g != 0
    ensures Lowest(g, Cascade(g))
  {
    hide LowestBit, Lowest, LOWEST_BITMAP;
    if g & 0xff != 0 {
      TableIsLowest(Byte0(g));
      LowestInByte0(g, Lookup(Byte0(g)));
    } else if g & 0xff00 != 0 {
      TableIsLowest(Byte1(g));
      LowestInByte1(g, Lookup(Byte1(g)));
    } else if g & 0xff0000 != 0 {
      TableIsLowest(Byte2(g));
      LowestInByte2(g, Lookup(Byte2(g)));
    } else {
      TableIsLowest(Byte3(g));
      LowestInByte3(g, Lookup(Byte3(g)));
    }
  }

  // ---- Single bits ---------------------------------------------------------------------------

  function Common(g: bv32, m: bv32): bv32 {
    g & m
  }

  function Joined(g: bv32, m: bv32): bv32 {
    g | m
  }

  function Cleared(g: bv32, m: bv32): bv32 {
    g & !m
  }

  predicate Has(g: bv32, p: nat)
    requires p < 32
  {
    Common(g, Mask(p)) != 0
  }

  function With(g: bv32, p: nat): bv32
    requires p < 32
  {
    Joined(g, Mask(p))
  }

  function Off(g: bv32, p: nat): bv32
    requires p < 32
  {
    Cleared(g, Mask(p))
  }

  lemma SetBit(g: bv32, p: nat, q: nat)
    requires p < 32 && q < 32
    ensures Has(With(g, p), q) <==> p == q || Has(g, q)
  {
    hide Mask, Common, Joined;
    MasksApart(p, q);
    JoinedBits(g, Mask(p), Mask(q));
  }

  lemma ClearBit(g: bv32, p: nat, q: nat)
    requires p < 32 && q < 32
    ensures Has(Off(g, p), q) <==> p != q && Has(g, q)
  {
    hide Mask, Common, Cleared;
    MasksApart(p, q);
    ClearedBits(g, Mask(p), Mask(q));
  }

  lemma JoinedBits(g: bv32, m: bv32, n: bv32)
    ensures n != 0 && m == n ==> Common(Joined(g, m), n) != 0
    ensures Common(m, n) == 0 ==> Common(Joined(g, m), n) == Common(g, n)
  {}

  lemma ClearedBits(g: bv32, m: bv32, n: bv32)
    ensures m == n ==> Common(Cleared(g, m), n) == 0
    ensures Common(m, n) == 0 ==> Common(Cleared(g, m), n) == Common(g, n)
  {}

  lemma NonZeroMask(p: nat)
    requires p < 32
    ensures Mask(p) != 0
  {}

  /** Different priorities have different bits. */
  lemma MasksApart(p: nat, q: nat)
    requires p < 32 && q < 32
    ensures Mask(q) != 0 && (p != q ==> Common(Mask(p), Mask(q)) == 0)
  {
    hide Mask, Common;
    NonZeroMask(q);
    SingleBit(p);
    SingleBit(q);
    if p < q {
      LowerMask(q, p);
      BelowSingle(Mask(p), Mask(q));
    } else if q < p {
      LowerMask(p, q);
      BelowSingle(Mask(q), Mask(p));
    }
  }

  lemma BelowSingle(a: bv32, b: bv32)
    requires a & (b - 1) == a && b & (b - 1) == 0
    ensures Common(a, b) == 0 && Common(b, a) == 0
  {}

  lemma OrMask(g: bv32, m: bv32)
    ensures Common(g, m) != 0 && m & (m - 1) == 0 ==> Joined(g, m) == g
  {}

  lemma SingleBit(p: nat)
    requires p < 32
    ensures Mask(p) & (Mask(p) - 1) == 0
  {}

  lemma SetAgain(g: bv32, p: nat)
    requires p < 32 && Has(g, p)
    ensures With(g, p) == g
  {
    hide Mask, Common, Joined;
    SingleBit(p);
    OrMask(g, Mask(p));
  }

  lemma NoHighBits(g: bv32)
    requires forall p: nat :: 8 <= p < 32 ==> !Has(g, p)
    ensures g & 0xff == g
  {
    assert !Has(g, 8) && !Has(g, 9) && !Has(g, 10) && !Has(g, 11) && !Has(g, 12) && !Has(g, 13);
    assert !Has(g, 14) && !Has(g, 15) && !Has(g, 16) && !Has(g, 17) && !Has(g, 18) && !Has(g, 19);
    assert !Has(g, 20) && !Has(g, 21) && !Has(g, 22) && !Has(g, 23) && !Has(g, 24) && !Has(g, 25);
    assert !Has(g, 26) && !Has(g, 27) && !Has(g, 28) && !Has(g, 29) && !Has(g, 30) && !Has(g, 31);
  }

  lemma ZeroHasNone(p: nat)
    requires p < 32
    ensures !Has(0, p)
  {}

  /** The lowest bit is set and every bit below it is clear. */
  lemma LowestBits(g: bv32, n: nat)
    requires Lowest(g, n)
    ensures n < 32 && Has(g, n)
    ensures forall q: nat :: q < n ==> !Has(g, q)
  {
    forall q: nat | q < n ensures !Has(g, q) { BelowLowest(g, n, q); }
  }

  lemma BelowLowest(g: bv32, n: nat, q: nat)
    requires Lowest(g, n) && q < n
    ensures g & Mask(q) == 0
  {
    LowerMask(n, q);
    MaskedOut(g, Mask(n) - 1, Mask(q));
  }

  lemma LowerMask(n: nat, q: nat)
    requires q < n < 32
    ensures Mask(q) & (Mask(n) - 1) == Mask(q)
  {}

  lemma MaskedOut(g: bv32, m: bv32, b: bv32)
    requires g & m == 0 && b & m == b
    ensures g & b == 0
  {}

  function JoinedB(g: bv8, m: bv8): bv8 {
    g | m
  }

  function ClearedB(g: bv8, m: bv8): bv8 {
    g & !m
  }

  predicate HasB(g: bv8, p: nat)
    requires p < 8
  {
    g & ByteMask(p) != 0
  }

  function WithB(g: bv8, p: nat): bv8
    requires p < 8
  {
    JoinedB(g, ByteMask(p))
  }

  function OffB(g: bv8, p: nat): bv8
    requires p < 8
  {
    ClearedB(g, ByteMask(p))
  }

  lemma SetByteBit(g: bv8, p: nat, q: nat)
    requires p < 8 && q < 8
    ensures HasB(WithB(g, p), q) <==> p == q || HasB(g, q)
  {}

  lemma ClearByteBit(g: bv8, p: nat, q: nat)
    requires p < 8 && q < 8
    ensures HasB(OffB(g, p), q) <==> p != q && HasB(g, q)
  {}

  lemma ByteNonZero(b: bv8, k: nat)
    requires k < 8 && HasB(b, k)
    ensures b != 0
  {}

  lemma LowestByteBits(b: bv8, k: nat)
    requires LowestBit(b, k)
    ensures k < 8 && HasB(b, k)
    ensures forall q: nat :: q < k ==> !HasB(b, q)
  {
    forall q: nat | q < k ensures !HasB(b, q) {
      assert b & ByteMask(q) == 0;
    }
  }
}
