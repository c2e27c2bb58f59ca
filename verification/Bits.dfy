/** Raw facts about 64-bit words, kept apart from the named operators built on them. */
module WordFacts {

  lemma ClearKeepsOthers(w: bv64, m: bv64, n: bv64)
    requires m & n == 0
    ensures (w & !m) & n == w & n
  {}

  lemma SetKeepsOthers(w: bv64, m: bv64, n: bv64)
    requires m & n == 0
    ensures (w | m) & n == w & n
  {}

  lemma ClearDropsMask(w: bv64, m: bv64)
    ensures (w & !m) & m == 0
  {}

  lemma SetAddsMask(w: bv64, m: bv64)
    ensures (w | m) & m == m
  {}

  lemma MasksDistinctAt(j: bv64, k: bv64)
    requires j < 64 && k < 64
    ensures ((1 as bv64) << j) & ((1 as bv64) << k) != 0 <==> j == k
  {}

  lemma PositionsInRange(j: bv6, k: bv6)
    ensures (j as bv64) < 64 && (k as bv64) < 64
    ensures (j as bv64) == (k as bv64) <==> j == k
  {}

  lemma MaskIsOneBit(k: bv6)
    ensures (1 as bv64) << (k as bv64) != 0
    ensures ((1 as bv64) << (k as bv64)) & (((1 as bv64) << (k as bv64)) - 1) == 0
  {}

  lemma SharesWholeBit(w: bv64, k: bv6)
    requires w & ((1 as bv64) << (k as bv64)) != 0
    ensures w & ((1 as bv64) << (k as bv64)) == (1 as bv64) << (k as bv64)
  {}

  lemma MaskDoubles(k: bv6)
    requires k < 63
    ensures (1 as bv64) << ((k + 1) as bv64) == ((1 as bv64) << (k as bv64)) << 1
  {}

  lemma NothingBelowNext(w: bv64, m: bv64)
    requires m & (m - 1) == 0 && w & (m - 1) == 0 && w & m == 0
    ensures w & ((m << 1) - 1) == 0
  {}

  lemma NothingAtAll(w: bv64)
    requires w & 0x7FFF_FFFF_FFFF_FFFF == 0 && w & 0x8000_0000_0000_0000 == 0
    ensures w == 0
  {}

  lemma DropLowest(w: bv64, m: bv64)
    requires m != 0 && w & m == m && w & (m - 1) == 0
    ensures w & (w - 1) == w & !m
  {}

  // --- bit positions as numbers -------------------------------------------------

  lemma PositionBack(k: nat)
    requires k < 64
    ensures (k as bv6) as int == k
  {}

  lemma PositionForth(j: bv6)
    ensures (j as int) as bv6 == j
  {}

  lemma PositionIncrement(j: bv6)
    requires j as int < 63
    ensures j < 63 && (j + 1) as int == j as int + 1
  {}

  lemma NextPosition(k: nat)
    requires k < 63
    ensures (k as bv6) < 63 && (k + 1) as bv6 == (k as bv6) + 1
  {
    var x, y := k as bv6, (k + 1) as bv6;
    PositionBack(k);
    PositionBack(k + 1);
    PositionIncrement(x);
    PositionForth(x + 1);
    PositionForth(y);
  }
}

/**
 Occupancy words: the bit operations the price-level bitmap is built from. The word
 operators are named so that proofs about bitmaps can hide their definitions and use
 only the laws below.
 */
module Bits {
  import opened WordFacts

  function And(a: bv64, b: bv64): bv64 { a & b }

  function Or(a: bv64, b: bv64): bv64 { a | b }

  function AndNot(a: bv64, b: bv64): bv64 { a & !b }

  /** The word with only bit `k` set (`1u64 << k`). */
  function Mask(k: nat): bv64
    requires k < 64
  {
    (1 as bv64) << ((k as bv6) as bv64)
  }

  /** Bit `k` of `w` is set. */
  predicate Test(w: bv64, k: nat)
    requires k < 64
  {
    And(w, Mask(k)) != 0
  }

  /** `w | (1 << k)` */
  function Set(w: bv64, k: nat): bv64
    requires k < 64
  {
    Or(w, Mask(k))
  }

  /** `w & !(1 << k)` */
  function Clear(w: bv64, k: nat): bv64
    requires k < 64
  {
    AndNot(w, Mask(k))
  }

  // --- laws of the operators -------------------------------------------------------

  lemma MasksDistinct(j: nat, k: nat)
    requires j < 64 && k < 64
    ensures And(Mask(j), Mask(k)) != 0 <==> j == k
  {
    PositionBack(j);
    PositionBack(k);
    PositionsInRange(j as bv6, k as bv6);
    MasksDistinctAt((j as bv6) as bv64, (k as bv6) as bv64);
  }

  lemma MaskNonZero(k: nat)
    requires k < 64
    ensures Mask(k) != 0
  {
    MasksDistinct(k, k);
  }

  lemma OrKeepsWord(w: bv64, m: bv64, n: bv64)
    requires And(m, n) == 0
    ensures And(w | m, n) == And(w, n)
  {
    SetKeepsOthers(w, m, n);
  }

  lemma AndNotKeepsWord(w: bv64, m: bv64, n: bv64)
    requires And(m, n) == 0
    ensures And(w & !m, n) == And(w, n)
  {
    ClearKeepsOthers(w, m, n);
  }

  lemma NamedOr(w: bv64, m: bv64)
    ensures Or(w, m) == w | m
  {}

  lemma NamedAndNot(w: bv64, m: bv64)
    ensures AndNot(w, m) == w & !m
  {}

  lemma OrKeeps(w: bv64, m: bv64, n: bv64)
    requires And(m, n) == 0
    ensures And(Or(w, m), n) == And(w, n)
  {
    hide And, Or;
    NamedOr(w, m);
    OrKeepsWord(w, m, n);
  }

  lemma OrAdds(w: bv64, m: bv64)
    ensures And(Or(w, m), m) == m
  {
    SetAddsMask(w, m);
  }

  lemma AndNotKeeps(w: bv64, m: bv64, n: bv64)
    requires And(m, n) == 0
    ensures And(AndNot(w, m), n) == And(w, n)
  {
    hide And, AndNot;
    NamedAndNot(w, m);
    AndNotKeepsWord(w, m, n);
  }

  lemma AndNotDrops(w: bv64, m: bv64)
    ensures And(AndNot(w, m), m) == 0
  {
    ClearDropsMask(w, m);
  }

  /** Setting bit `k` adds it and no other. */
  lemma TestSet(w: bv64, k: nat, j: nat)
    requires k < 64 && j < 64
    ensures Test(Set(w, k), j) <==> j == k || Test(w, j)
  {
    hide And, Or, Mask;
    MasksDistinct(k, j);
    MaskNonZero(k);
    if j == k {
      OrAdds(w, Mask(k));
    } else {
      OrKeeps(w, Mask(k), Mask(j));
    }
  }

  /** Clearing bit `k` removes it and no other. */
  lemma TestClear(w: bv64, k: nat, j: nat)
    requires k < 64 && j < 64
    ensures Test(Clear(w, k), j) <==> j != k && Test(w, j)
  {
    hide And, AndNot, Mask;
    MasksDistinct(k, j);
    if j == k {
      AndNotDrops(w, Mask(k));
    } else {
      AndNotKeeps(w, Mask(k), Mask(j));
    }
  }

  lemma TestZero(k: nat)
    requires k < 64
    ensures !Test(0, k)
  {}

  // --- scanning a word -----------------------------------------------------------------

  /** No bit below position `k` is set. */
  predicate NoneBelow(w: bv64, k: nat)
    requires k < 64
  {
    And(w, Mask(k) - 1) == 0
  }

  lemma NoneBelowFirst(w: bv64)
    ensures NoneBelow(w, 0)
  {}

  lemma MaskStep(k: nat)
    requires k < 63
    ensures Mask(k + 1) == Mask(k) << 1
    ensures Mask(k) & (Mask(k) - 1) == 0
  {
    NextPosition(k);
    MaskDoubles(k as bv6);
    MaskIsOneBit(k as bv6);
  }

  lemma NoneBelowNextWord(w: bv64, m: bv64)
    requires m & (m - 1) == 0 && And(w, m - 1) == 0 && And(w, m) == 0
    ensures And(w, (m << 1) - 1) == 0
  {
    NothingBelowNext(w, m);
  }

  lemma NoneBelowNext(w: bv64, k: nat)
    requires k < 63 && NoneBelow(w, k) && !Test(w, k)
    ensures NoneBelow(w, k + 1)
  {
    hide And, Mask;
    MaskStep(k);
    NoneBelowNextWord(w, Mask(k));
  }

  lemma NoneBelowLast(w: bv64)
    requires NoneBelow(w, 63) && !Test(w, 63)
    ensures w == 0
  {
    NothingAtAll(w);
  }

  /** The lowest set bit at or above `k` of a word with none below, 64 if there is none. */
  function LowestFrom(w: bv64, k: nat): (r: nat)
    requires k < 64 && NoneBelow(w, k)
    ensures k <= r <= 64
    ensures r == 64 ==> w == 0
    ensures r < 64 ==> Test(w, r) && NoneBelow(w, r)
    ensures forall j :: k <= j < r ==> !Test(w, j)
    decreases 64 - k
  {
    hide And, Mask;
    if Test(w, k) then k
    else if k == 63 then NoneBelowLast(w); 64
    else NoneBelowNext(w, k); LowestFrom(w, k + 1)
  }

  lemma ZeroHasNoBits()
    ensures forall j :: 0 <= j < 64 ==> !Test(0, j)
  {
    hide And, Mask;
    forall j | 0 <= j < 64 ensures !Test(0, j) {
      TestZero(j);
    }
  }

  /** `u64::trailing_zeros` */
  function TrailingZeros(w: bv64): (r: nat)
    ensures r <= 64 && (r == 64 <==> w == 0)
    ensures r < 64 ==> Test(w, r) && NoneBelow(w, r)
    ensures forall j :: 0 <= j < r ==> !Test(w, j)
  {
    hide And, Mask;
    NoneBelowFirst(w);
    ZeroHasNoBits();
    if w == 0 then 64 else LowestFrom(w, 0)
  }

  lemma NamedMask(k: nat)
    requires k < 64
    ensures Mask(k) == (1 as bv64) << ((k as bv6) as bv64)
  {}

  lemma LowestBitWord(w: bv64, k: bv6)
    requires And(w, (1 as bv64) << (k as bv64)) != 0
    requires And(w, ((1 as bv64) << (k as bv64)) - 1) == 0
    ensures w & (w - 1) == AndNot(w, (1 as bv64) << (k as bv64))
  {
    SharesWholeBit(w, k);
    MaskIsOneBit(k);
    DropLowest(w, (1 as bv64) << (k as bv64));
  }

  /** `w & (w - 1)` clears exactly the lowest set bit. */
  lemma DropsLowestBit(w: bv64)
    requires w != 0
    ensures w & (w - 1) == Clear(w, TrailingZeros(w))
  {
    hide And, AndNot, Mask, TrailingZeros;
    NamedMask(TrailingZeros(w));
    LowestBitWord(w, TrailingZeros(w) as bv6);
  }

  /** One more than the highest set bit below `k`, 0 if there is none. */
  function HighestBelow(w: bv64, k: nat): (r: nat)
    requires k <= 64
    ensures r <= k
    ensures r > 0 ==> Test(w, r - 1)
    ensures forall j :: r <= j < k ==> !Test(w, j)
  {
    hide And, Mask;
    if k == 0 || Test(w, k - 1) then k else HighestBelow(w, k - 1)
  }

  /** `u64::leading_zeros` */
  function LeadingZeros(w: bv64): (r: nat)
    ensures r <= 64 && (r == 64 <==> w == 0)
    ensures r < 64 ==> Test(w, 63 - r)
    ensures forall j :: 64 - r <= j < 64 ==> !Test(w, j)
  {
    hide And, Mask, TrailingZeros;
    ZeroHasNoBits();
    assert w != 0 ==> Test(w, TrailingZeros(w));
    64 - HighestBelow(w, 64)
  }
}
