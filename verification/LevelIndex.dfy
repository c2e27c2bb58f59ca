/**
 The price-level index of one book side: a dense window of 1024 ticks with a two-level
 occupancy bitmap, and an ordered map for every price outside the window.

 `contents` is what the index stands for: one map from price to level.
 */
module LevelIndexes {
  import opened Types
  import opened Bits
  import opened Pools
  import opened Ordered

  /** Pool slots in time priority (tombstones included) with the level's aggregates. */
  datatype Level = Level(orders: seq<nat>, qty: nat, live: nat)

  // --- the bitmap as values ---------------------------------------------------------

  predicate BitAt(words: seq<bv64>, i: nat)
    requires |words| == 16 && i < 1024
  {
    Test(words[i / 64], i % 64)
  }

  /** Bit i of the map is set exactly when level i is present. */
  ghost predicate Mirrors(words: seq<bv64>, levels: seq<Option<Level>>)
    requires |words| == 16
  {
    forall i :: 0 <= i < 1024 ==> (BitAt(words, i) <==> i < |levels| && levels[i].Some?)
  }

  /** Bit w of the summary is set exactly when word w is non-zero. */
  ghost predicate Summarises(l1: bv64, words: seq<bv64>)
    requires |words| == 16
  {
    && (forall w :: 0 <= w < 16 ==> (Test(l1, w) <==> words[w] != 0))
    && (forall w :: 16 <= w < 64 ==> !Test(l1, w))
  }

  lemma BitAfterSet(words: seq<bv64>, i: nat, j: nat)
    requires |words| == 16 && i < 1024 && j < 1024
    ensures BitAt(words[i / 64 := Set(words[i / 64], i % 64)], j) <==> j == i || BitAt(words, j)
  {
    hide Test, Set;
    if j / 64 == i / 64 {
      TestSet(words[i / 64], i % 64, j % 64);
    }
  }

  lemma BitAfterClear(words: seq<bv64>, i: nat, j: nat)
    requires |words| == 16 && i < 1024 && j < 1024
    ensures BitAt(words[i / 64 := Clear(words[i / 64], i % 64)], j) <==> j != i && BitAt(words, j)
  {
    hide Test, Clear;
    if j / 64 == i / 64 {
      TestClear(words[i / 64], i % 64, j % 64);
    }
  }

  lemma MirrorsAfterSet(words: seq<bv64>, levels: seq<Option<Level>>, i: nat, lv: Level)
    requires |words| == 16 && |levels| == 1024 && i < 1024
    requires Mirrors(words, levels)
    ensures Mirrors(words[i / 64 := Set(words[i / 64], i % 64)], levels[i := Some(lv)])
  {
    hide BitAt;
    var words', levels' := words[i / 64 := Set(words[i / 64], i % 64)], levels[i := Some(lv)];
    forall j | 0 <= j < 1024 ensures BitAt(words', j) <==> levels'[j].Some? {
      BitAfterSet(words, i, j);
    }
  }

  lemma MirrorsAfterReplace(words: seq<bv64>, levels: seq<Option<Level>>, i: nat, lv: Level)
    requires |words| == 16 && |levels| == 1024 && i < 1024 && levels[i].Some?
    requires Mirrors(words, levels)
    ensures Mirrors(words, levels[i := Some(lv)])
  {
    hide BitAt;
  }

  lemma MirrorsAfterClear(words: seq<bv64>, levels: seq<Option<Level>>, i: nat)
    requires |words| == 16 && |levels| == 1024 && i < 1024
    requires Mirrors(words, levels)
    ensures Mirrors(words[i / 64 := Clear(words[i / 64], i % 64)], levels[i := None])
  {
    hide BitAt;
    var words', levels' := words[i / 64 := Clear(words[i / 64], i % 64)], levels[i := None];
    forall j | 0 <= j < 1024 ensures BitAt(words', j) <==> levels'[j].Some? {
      BitAfterClear(words, i, j);
    }
  }

  lemma MirroredWordNonZero(words: seq<bv64>, levels: seq<Option<Level>>, i: nat)
    requires |words| == 16 && |levels| == 1024 && i < 1024 && levels[i].Some?
    requires Mirrors(words, levels)
    ensures words[i / 64] != 0
  {
    hide Test;
    assert BitAt(words, i);
    TestZero(i % 64);
  }

  lemma SetIsNonZero(w: bv64, k: nat)
    requires k < 64
    ensures Set(w, k) != 0
  {
    hide Test, Set;
    TestSet(w, k, k);
    if Set(w, k) == 0 {
      TestZero(k);
    }
  }

  lemma SummarisesAfterSet(l1: bv64, words: seq<bv64>, w: nat, k: nat)
    requires |words| == 16 && w < 16 && k < 64
    requires Summarises(l1, words)
    ensures Summarises(Set(l1, w), words[w := Set(words[w], k)])
  {
    hide Test, Set;
    SetIsNonZero(words[w], k);
    forall v | 0 <= v < 64 ensures Test(Set(l1, w), v) <==> v == w || Test(l1, v) {
      TestSet(l1, w, v);
    }
  }

  /** The summary after word `w` was changed to `x`, its bit cleared when `x` is zero. */
  lemma SummarisesAfterClear(l1: bv64, words: seq<bv64>, w: nat, x: bv64)
    requires |words| == 16 && w < 16
    requires Summarises(l1, words) && words[w] != 0
    ensures Summarises(if x == 0 then Clear(l1, w) else l1, words[w := x])
  {
    hide Test, Clear;
    forall v | 0 <= v < 64 ensures Test(Clear(l1, w), v) <==> v != w && Test(l1, v) {
      TestClear(l1, w, v);
    }
  }

  // --- the index as values ------------------------------------------------------------

  predicate InWindow(base: Price, p: Price) {
    base != U64_MAX && base <= p < base + 1024
  }

  /** The window and the overflow map together hold exactly the levels of `contents`. */
  ghost predicate Represents(base: Price, levels: seq<Option<Level>>, overflow: map<Price, Level>,
                             contents: map<Price, Level>)
  {
    && (base == U64_MAX ==> levels == [] && overflow == map[])
    && (base != U64_MAX ==> |levels| == 1024)
    && (forall i :: 0 <= i < |levels| && levels[i].Some? ==>
          base + i <= U64_MAX && base + i in contents && contents[base + i] == levels[i].value)
    && (forall p :: p in overflow ==> !InWindow(base, p) && p in contents && contents[p] == overflow[p])
    && (forall p :: p in contents ==>
          if InWindow(base, p) then levels[p - base].Some? else p in overflow)
  }

  lemma RepresentsEmptyWindow(base: Price, levels: seq<Option<Level>>)
    requires base != U64_MAX && |levels| == 1024 && forall i :: 0 <= i < 1024 ==> levels[i].None?
    ensures Represents(base, levels, map[], map[])
  {}

  lemma Lookup(base: Price, levels: seq<Option<Level>>, overflow: map<Price, Level>,
               contents: map<Price, Level>, p: Price)
    requires Represents(base, levels, overflow, contents)
    ensures InWindow(base, p) ==>
              && |levels| == 1024
              && (levels[p - base].Some? <==> p in contents)
              && (levels[p - base].Some? ==> levels[p - base].value == contents[p])
    ensures !InWindow(base, p) ==>
              && (p in overflow <==> p in contents)
              && (p in overflow ==> overflow[p] == contents[p])
  {}

  lemma PresentIsCentred(base: Price, levels: seq<Option<Level>>, overflow: map<Price, Level>,
                         contents: map<Price, Level>, p: Price)
    requires Represents(base, levels, overflow, contents) && p in contents
    ensures base != U64_MAX
  {}

  lemma RepresentsInWindow(base: Price, levels: seq<Option<Level>>, overflow: map<Price, Level>,
                           contents: map<Price, Level>, p: Price, lv: Level)
    requires Represents(base, levels, overflow, contents) && InWindow(base, p)
    ensures Represents(base, levels[p - base := Some(lv)], overflow, contents[p := lv])
  {}

  lemma RepresentsOverflow(base: Price, levels: seq<Option<Level>>, overflow: map<Price, Level>,
                           contents: map<Price, Level>, p: Price, lv: Level)
    requires Represents(base, levels, overflow, contents) && !InWindow(base, p) && base != U64_MAX
    ensures Represents(base, levels, overflow[p := lv], contents[p := lv])
  {}

  lemma RepresentsWithout(base: Price, levels: seq<Option<Level>>, overflow: map<Price, Level>,
                          contents: map<Price, Level>, p: Price)
    requires Represents(base, levels, overflow, contents) && p in contents
    ensures InWindow(base, p) ==>
              Represents(base, levels[p - base := None], overflow, contents - {p})
    ensures !InWindow(base, p) ==> Represents(base, levels, overflow - {p}, contents - {p})
  {}

  ghost function Occupied(levels: seq<Option<Level>>): set<nat> {
    set i | 0 <= i < |levels| && levels[i].Some?
  }

  lemma OccupiedAfterSet(levels: seq<Option<Level>>, i: nat, lv: Level)
    requires i < |levels|
    ensures |Occupied(levels[i := Some(lv)])| == |Occupied(levels)| + if levels[i].None? then 1 else 0
  {
    assert Occupied(levels[i := Some(lv)]) == Occupied(levels) + {i};
  }

  lemma OccupiedAfterClear(levels: seq<Option<Level>>, i: nat)
    requires i < |levels| && levels[i].Some?
    ensures |Occupied(levels[i := None])| == |Occupied(levels)| - 1
  {
    assert Occupied(levels[i := None]) == Occupied(levels) - {i};
  }

  /** The level at `price`, created if absent, with one more live order at the back. */
  function Appended(contents: map<Price, Level>, price: Price, slot: nat, remaining: nat): Level {
    var lv := if price in contents then contents[price] else Level([], 0, 0);
    Level(lv.orders + [slot], lv.qty + remaining, lv.live + 1)
  }

  /** The aggregates stay within their machine widths (u64 and u32). */
  predicate Fits(lv: Level) {
    lv.qty <= U64_MAX && lv.live <= 0xFFFF_FFFF
  }

  /** What maintenance leaves behind: a live front and a bounded number of tombstones. */
  ghost predicate Tidy(slots: seq<Order>, lv: Level) {
    && InPool(slots, lv.orders)
    && lv.live > 0
    && lv.orders != [] && slots[lv.orders[0]].remaining > 0
    && (|lv.orders| - lv.live <= 1022 || |lv.orders| - lv.live <= lv.live)
  }

  /** The level's counters agree with the slots behind it. */
  ghost predicate Counted(slots: seq<Order>, lv: Level) {
    && InPool(slots, lv.orders) && Distinct(lv.orders)
    && lv.live == |Live(slots, lv.orders)|
    && (lv.live == 0 ==> lv.qty == 0)
  }

  ghost function Maintained(contents: map<Price, Level>, price: Price, kept: seq<nat>): map<Price, Level>
    requires price in contents
  {
    if contents[price].live == 0 then contents - {price}
    else contents[price := contents[price].(orders := kept)]
  }

  // --- reading the bitmap ---------------------------------------------------------------

  lemma OccupiedBits(words: seq<bv64>, levels: seq<Option<Level>>, w: nat, k: nat)
    requires |words| == 16 && |levels| <= 1024 && w < 16 && k < 64
    requires Mirrors(words, levels)
    ensures k in BitSet(words[w]) <==> 64 * w + k in Occupied(levels)
  {
    hide Test;
    assert (64 * w + k) / 64 == w && (64 * w + k) % 64 == k;
    assert BitAt(words, 64 * w + k) <==> Test(words[w], k);
  }

  /** The two bit scans of `window_min` find the lowest occupied level. */
  lemma ScanMin(l1: bv64, words: seq<bv64>, levels: seq<Option<Level>>)
    requires |words| == 16 && |levels| <= 1024
    requires Mirrors(words, levels) && Summarises(l1, words)
    ensures l1 == 0 ==> Occupied(levels) == {}
    ensures l1 != 0 ==>
      && TrailingZeros(l1) < 16 && words[TrailingZeros(l1)] != 0
      && var w := TrailingZeros(l1);
         var i := 64 * w + TrailingZeros(words[w]);
         i in Occupied(levels) && forall j :: j in Occupied(levels) ==> i <= j
  {
    hide Test, TrailingZeros, BitSet, Mirrors;
    ZeroHasNoBits();
    forall j | j in Occupied(levels) ensures words[j / 64] != 0 && j % 64 in BitSet(words[j / 64]) {
      OccupiedBits(words, levels, j / 64, j % 64);
      BitSetZero();
    }
    if l1 != 0 {
      var w := TrailingZeros(l1);
      LowestIsFirst(words[w]);
      OccupiedBits(words, levels, w, TrailingZeros(words[w]));
    }
  }

  /** The two bit scans of `window_max` find the highest occupied level. */
  lemma ScanMax(l1: bv64, words: seq<bv64>, levels: seq<Option<Level>>)
    requires |words| == 16 && |levels| <= 1024
    requires Mirrors(words, levels) && Summarises(l1, words)
    ensures l1 == 0 ==> Occupied(levels) == {}
    ensures l1 != 0 ==>
      && 63 - LeadingZeros(l1) < 16 && words[63 - LeadingZeros(l1)] != 0
      && var w := 63 - LeadingZeros(l1);
         var i := 64 * w + 63 - LeadingZeros(words[w]);
         i in Occupied(levels) && forall j :: j in Occupied(levels) ==> j <= i
  {
    hide Test, LeadingZeros, BitSet, Mirrors;
    ZeroHasNoBits();
    forall j | j in Occupied(levels) ensures words[j / 64] != 0 && j % 64 in BitSet(words[j / 64]) {
      OccupiedBits(words, levels, j / 64, j % 64);
      BitSetZero();
    }
    if l1 != 0 {
      var w := 63 - LeadingZeros(l1);
      HighestIsLast(words[w]);
      OccupiedBits(words, levels, w, 63 - LeadingZeros(words[w]));
    }
  }

  lemma OccupiedIsPresent(base: Price, levels: seq<Option<Level>>, overflow: map<Price, Level>,
                          contents: map<Price, Level>)
    requires Represents(base, levels, overflow, contents)
    ensures |levels| <= 1024
    ensures forall i :: i in Occupied(levels) ==> base + i <= U64_MAX && base + i in contents
    ensures forall p :: p in contents ==> p in overflow || (base <= p && p - base in Occupied(levels))
    ensures forall p :: p in overflow ==> p in contents && (p < base || base + 1024 <= p)
  {}

  // --- first and last ------------------------------------------------------------------------------

  ghost predicate LeastOccupied(levels: seq<Option<Level>>, r: Option<nat>) {
    && (r.None? <==> Occupied(levels) == {})
    && (r.Some? ==> r.value in Occupied(levels) && forall j :: j in Occupied(levels) ==> r.value <= j)
  }

  ghost predicate GreatestOccupied(levels: seq<Option<Level>>, r: Option<nat>) {
    && (r.None? <==> Occupied(levels) == {})
    && (r.Some? ==> r.value in Occupied(levels) && forall j :: j in Occupied(levels) ==> j <= r.value)
  }

  function LowestBit(l1: bv64, words: seq<bv64>): Option<nat> {
    if l1 == 0 then None
    else
      var w := TrailingZeros(l1);
      if w < |words| then Some(64 * w + TrailingZeros(words[w])) else None
  }

  function HighestBit(l1: bv64, words: seq<bv64>): Option<nat> {
    if l1 == 0 then None
    else
      var w := 63 - LeadingZeros(l1);
      if w < |words| && words[w] != 0 then Some(64 * w + 63 - LeadingZeros(words[w])) else None
  }

  lemma LowestBitIs(l1: bv64, words: seq<bv64>, levels: seq<Option<Level>>)
    requires |words| == 16 && |levels| <= 1024 && Mirrors(words, levels) && Summarises(l1, words)
    ensures LeastOccupied(levels, LowestBit(l1, words))
  {
    hide Mirrors, Summarises, Occupied, TrailingZeros;
    ScanMin(l1, words, levels);
  }

  lemma HighestBitIs(l1: bv64, words: seq<bv64>, levels: seq<Option<Level>>)
    requires |words| == 16 && |levels| <= 1024 && Mirrors(words, levels) && Summarises(l1, words)
    ensures GreatestOccupied(levels, HighestBit(l1, words))
  {
    hide Mirrors, Summarises, Occupied, LeadingZeros;
    ScanMax(l1, words, levels);
  }

  function LowerOf(base: Price, w: Option<nat>, o: Option<Price>): Option<nat> {
    if w.Some? && (o.None? || base + w.value <= o.value) then Some(base + w.value)
    else if o.Some? then Some(o.value) else None
  }

  function HigherOf(base: Price, w: Option<nat>, o: Option<Price>): Option<nat> {
    if w.Some? && (o.None? || o.value <= base + w.value) then Some(base + w.value)
    else if o.Some? then Some(o.value) else None
  }

  lemma LowerIsLowest(base: Price, levels: seq<Option<Level>>, overflow: map<Price, Level>, contents: map<Price, Level>,
                      w: Option<nat>, o: Option<Price>)
    requires Represents(base, levels, overflow, contents) && LeastOccupied(levels, w)
    requires o.None? <==> overflow == map[]
    requires o.Some? ==> o.value in overflow && forall p :: p in overflow ==> o.value <= p
    ensures var r := LowerOf(base, w, o);
            && (r.None? <==> contents == map[])
            && (r.Some? ==> r.value in contents && forall p :: p in contents ==> r.value <= p)
  {
    hide Represents, Occupied;
    OccupiedIsPresent(base, levels, overflow, contents);
    var r := LowerOf(base, w, o);
    forall p | p in contents ensures r.Some? && r.value <= p {
      assert p in overflow || p - base in Occupied(levels);
    }
  }

  lemma HigherIsHighest(base: Price, levels: seq<Option<Level>>, overflow: map<Price, Level>,
                        contents: map<Price, Level>, w: Option<nat>, o: Option<Price>)
    requires Represents(base, levels, overflow, contents) && GreatestOccupied(levels, w)
    requires o.None? <==> overflow == map[]
    requires o.Some? ==> o.value in overflow && forall p :: p in overflow ==> p <= o.value
    ensures var r := HigherOf(base, w, o);
            && (r.None? <==> contents == map[])
            && (r.Some? ==> r.value in contents && forall p :: p in contents ==> p <= r.value)
  {
    hide Represents, Occupied;
    OccupiedIsPresent(base, levels, overflow, contents);
    var r := HigherOf(base, w, o);
    forall p | p in contents ensures r.Some? && p <= r.value {
      assert p in overflow || p - base in Occupied(levels);
    }
  }

  function Shifted(ks: seq<nat>, offset: nat): (r: seq<nat>)
    ensures |r| == |ks| && forall i :: 0 <= i < |ks| ==> r[i] == ks[i] + offset
  {
    seq(|ks|, i requires 0 <= i < |ks| => ks[i] + offset)
  }

  lemma ShiftedMembers(ks: seq<nat>, offset: nat, x: int)
    ensures x in Shifted(ks, offset) <==> x >= offset && x - offset in ks
  {
    var r := Shifted(ks, offset);
    if x in r {
      var i :| 0 <= i < |r| && r[i] == x;
      assert ks[i] == x - offset;
    }
    if x >= offset && x - offset in ks {
      var i :| 0 <= i < |ks| && ks[i] == x - offset;
      assert r[i] == x;
    }
  }

  /** One word of the window scan: its set bits, as window indices. */
  lemma WordMembers(words: seq<bv64>, levels: seq<Option<Level>>, w: nat, ks: seq<nat>, x: int)
    requires |words| == 16 && |levels| <= 1024 && w < 16 && Mirrors(words, levels)
    requires forall k :: k in ks <==> k in BitSet(words[w])
    ensures x in Shifted(ks, 64 * w) <==> 64 * w <= x < 64 * w + 64 && x in Occupied(levels)
  {
    hide Mirrors, Occupied, Shifted, Test;
    ShiftedMembers(ks, 64 * w, x);
    if 64 * w <= x < 64 * w + 64 {
      OccupiedBits(words, levels, w, x - 64 * w);
    }
  }

  /** `overflow.range(..base)` */
  function Below(overflow: map<Price, Level>, base: int): (ks: set<Price>)
    ensures forall k :: k in ks <==> k in overflow && k < base
  {
    set k | k in overflow && k < base
  }

  /** `overflow.range(end..)` */
  function From(overflow: map<Price, Level>, end: int): (ks: set<Price>)
    ensures forall k :: k in ks <==> k in overflow && end <= k
  {
    set k | k in overflow && end <= k
  }

  lemma WindowInRange(base: Price, levels: seq<Option<Level>>, overflow: map<Price, Level>,
                      contents: map<Price, Level>, ks: seq<nat>)
    requires Represents(base, levels, overflow, contents)
    requires forall x :: x in ks <==> x in Occupied(levels)
    ensures forall x :: x in ks ==> x < 1024 && base + x <= U64_MAX
  {}

  /** The three parts of a walk hold exactly the occupied prices, each in its own range. */
  lemma WalkCovers(base: Price, levels: seq<Option<Level>>, overflow: map<Price, Level>,
                   contents: map<Price, Level>, below: seq<Price>, ks: seq<nat>, window: seq<Price>,
                   above: seq<Price>)
    requires Represents(base, levels, overflow, contents)
    requires forall x :: x in ks <==> x in Occupied(levels)
    requires forall p :: p in window <==> base <= p && p - base in ks
    requires forall p :: p in below <==> p in Below(overflow, base)
    requires if base + 1024 <= U64_MAX then forall p :: p in above <==> p in From(overflow, base + 1024)
             else above == []
    ensures forall p :: p in contents <==> p in below || p in window || p in above
    ensures forall p :: p in below ==> p < base
    ensures forall p :: p in window ==> base <= p < base + 1024
    ensures forall p :: p in above ==> base + 1024 <= p
  {
    forall p: Price ensures p in contents <==> p in below || p in window || p in above {
      Lookup(base, levels, overflow, contents, p);
      if InWindow(base, p) {
        assert p - base in Occupied(levels) <==> levels[p - base].Some?;
      }
    }
  }

  lemma OccupiedBelow(levels: seq<Option<Level>>)
    ensures forall i :: i in Occupied(levels) ==> 0 <= i < |levels|
  {}

  // --- the index ------------------------------------------------------------------------

  class LevelIndex {
    /** First price of the window; `U64_MAX` stands for a window not placed yet. */
    var base: Price
    var levels: seq<Option<Level>>
    const l0: array<bv64>
    var l1: bv64
    var inWindow: nat
    var overflow: map<Price, Level>
    ghost var contents: map<Price, Level>

    ghost predicate Valid()
      reads this, l0
    {
      && l0.Length == 16
      && Represents(base, levels, overflow, contents)
      && Mirrors(l0[..], levels)
      && Summarises(l1, l0[..])
      && inWindow == |Occupied(levels)|
    }

    constructor ()
      ensures Valid() && fresh(l0) && contents == map[]
    {
      base := U64_MAX;
      levels := [];
      l0 := new bv64[16](_ => 0);
      l1 := 0;
      inWindow := 0;
      overflow := map[];
      contents := map[];
      new;
      hide Test;
      ZeroHasNoBits();
    }

    function Idx(price: Price): (i: Option<nat>)
      reads this
      ensures i.Some? <==> InWindow(base, price)
      ensures i.Some? ==> i.value == price - base
    {
      if base == U64_MAX || price < base then None
      else if price - base < 1024 then Some(price - base) else None
    }

    method SetBitAt(i: nat)
      requires l0.Length == 16 && i < 1024
      modifies this`l1, l0
      ensures l0[..] == old(l0[..])[i / 64 := Set(old(l0[i / 64]), i % 64)]
      ensures l1 == Set(old(l1), i / 64)
    {
      l0[i / 64] := Set(l0[i / 64], i % 64);
      l1 := Set(l1, i / 64);
    }

    method ClearBitAt(i: nat)
      requires l0.Length == 16 && i < 1024
      modifies this`l1, l0
      ensures l0[..] == old(l0[..])[i / 64 := Clear(old(l0[i / 64]), i % 64)]
      ensures l1 == if Clear(old(l0[i / 64]), i % 64) == 0 then Clear(old(l1), i / 64) else old(l1)
    {
      l0[i / 64] := Clear(l0[i / 64], i % 64);
      if l0[i / 64] == 0 {
        l1 := Clear(l1, i / 64);
      }
    }

    /** A level by its price; a level without live orders counts as absent. */
    method Get(price: Price) returns (r: Option<Level>)
      requires Valid()
      ensures r.Some? <==> price in contents && contents[price].live > 0
      ensures r.Some? ==> r.value == contents[price]
    {
      hide Mirrors, Summarises, Occupied;
      var i := Idx(price);
      if i.Some? {
        if levels[i.value].Some? && levels[i.value].value.live > 0 {
          return levels[i.value];
        }
        return None;
      }
      if price in overflow && overflow[price].live > 0 {
        return Some(overflow[price]);
      }
      return None;
    }

    /** Place the window around the first price. Near `U64_MAX` its upper half is unreachable. */
    method Centre(price: Price)
      requires Valid() && base == U64_MAX
      modifies this
      ensures Valid() && base != U64_MAX && contents == old(contents)
    {
      hide BitAt, Summarises;
      assert contents == map[] && Occupied(levels) == {};
      base := if price >= 512 then price - 512 else 0;
      levels := seq(1024, _ => None);
      assert Occupied(levels) == {};
      RepresentsEmptyWindow(base, levels);
    }

    /** Replace the level at an occupied or new window price, keeping the bitmap exact. */
    method StoreInWindow(price: Price, lv: Level)
      requires Valid() && InWindow(base, price)
      modifies this, l0
      ensures Valid() && contents == old(contents)[price := lv]
      ensures base == old(base)
    {
      hide Represents, Mirrors, Summarises, Occupied, Test, Set;
      Lookup(base, levels, overflow, contents, price);
      var i := price - base;
      RepresentsInWindow(base, levels, overflow, contents, price, lv);
      OccupiedAfterSet(levels, i, lv);
      if levels[i].None? {
        MirrorsAfterSet(l0[..], levels, i, lv);
        SummarisesAfterSet(l1, l0[..], i / 64, i % 64);
        SetBitAt(i);
        inWindow := inWindow + 1;
      } else {
        MirrorsAfterReplace(l0[..], levels, i, lv);
      }
      levels := levels[i := Some(lv)];
      contents := contents[price := lv];
    }

    /** One more slot in the queue of a price, in the window or in the overflow map. */
    method Push(price: Price, slot: nat, remaining: Qty)
      requires Valid() && remaining > 0
      requires price in contents ==> contents[price].live > 0
      requires Fits(Appended(contents, price, slot, remaining))
      modifies this, l0
      ensures Valid()
      ensures contents == old(contents)[price := Appended(old(contents), price, slot, remaining)]
    {
      hide Represents, Mirrors, Summarises, Occupied;
      if base == U64_MAX {
        Centre(price);
      }
      Lookup(base, levels, overflow, contents, price);
      var i := Idx(price);
      if i.Some? {
        var lv := if levels[i.value].None? then Level([], 0, 0) else levels[i.value].value;
        assert lv.qty + remaining <= U64_MAX && lv.live + 1 <= 0xFFFF_FFFF;  // checked_add
        StoreInWindow(price, Level(lv.orders + [slot], lv.qty + remaining, lv.live + 1));
      } else {
        var lv := if price in overflow then overflow[price] else Level([], 0, 0);
        assert lv.qty + remaining <= U64_MAX && lv.live + 1 <= 0xFFFF_FFFF;  // checked_add
        var lv' := Level(lv.orders + [slot], lv.qty + remaining, lv.live + 1);
        RepresentsOverflow(base, levels, overflow, contents, price, lv');
        overflow := overflow[price := lv'];
        contents := contents[price := lv'];
      }
    }

    /** Write through a borrowed level (`get_mut`). */
    method Update(price: Price, lv: Level)
      requires Valid() && price in contents
      modifies this, l0
      ensures Valid() && contents == old(contents)[price := lv]
    {
      hide Represents, Mirrors, Summarises, Occupied;
      Lookup(base, levels, overflow, contents, price);
      if InWindow(base, price) {
        StoreInWindow(price, lv);
      } else {
        PresentIsCentred(base, levels, overflow, contents, price);
        RepresentsOverflow(base, levels, overflow, contents, price, lv);
        overflow := overflow[price := lv];
        contents := contents[price := lv];
      }
    }

    /** Remove the level at `price`, with its occupancy bit. */
    method Drop(price: Price)
      requires Valid() && price in contents
      modifies this, l0
      ensures Valid() && contents == old(contents) - {price}
    {
      hide Represents, Mirrors, Summarises, Occupied, Test, Clear;
      Lookup(base, levels, overflow, contents, price);
      RepresentsWithout(base, levels, overflow, contents, price);
      if InWindow(base, price) {
        var i := price - base;
        MirrorsAfterClear(l0[..], levels, i);
        MirroredWordNonZero(l0[..], levels, i);
        SummarisesAfterClear(l1, l0[..], i / 64, Clear(l0[i / 64], i % 64));
        OccupiedAfterClear(levels, i);
        ClearBitAt(i);
        inWindow := inWindow - 1;
        levels := levels[i := None];
      } else {
        overflow := overflow - {price};
      }
      contents := contents - {price};
    }

    /** The first set bit of the first non-zero word. */
    method WindowMin() returns (r: Option<nat>)
      requires Valid()
      ensures LeastOccupied(levels, r)
    {
      hide Represents, Mirrors, Summarises, LowestBit, LeastOccupied;
      OccupiedIsPresent(base, levels, overflow, contents);
      LowestBitIs(l1, l0[..], levels);
      r := LowestBit(l1, l0[..]);
    }

    /** The last set bit of the last non-zero word. */
    method WindowMax() returns (r: Option<nat>)
      requires Valid()
      ensures GreatestOccupied(levels, r)
    {
      hide Represents, Mirrors, Summarises, HighestBit, GreatestOccupied;
      OccupiedIsPresent(base, levels, overflow, contents);
      HighestBitIs(l1, l0[..], levels);
      r := HighestBit(l1, l0[..]);
    }

    /** The lower of the first window price and the first overflow price. */
    method MinPrice() returns (r: Option<Price>)
      requires Valid()
      ensures r.None? <==> contents == map[]
      ensures r.Some? ==> r.value in contents && forall p :: p in contents ==> r.value <= p
    {
      hide Represents, Mirrors, Summarises, LeastOccupied;
      var w := WindowMin();
      var o: Option<Price> := None;
      if overflow != map[] {
        var first := FirstKey(overflow.Keys);
        o := Some(first);
      }
      LowerIsLowest(base, levels, overflow, contents, w, o);
      r := LowerOf(base, w, o);
    }

    /** The higher of the last window price and the last overflow price. */
    method MaxPrice() returns (r: Option<Price>)
      requires Valid()
      ensures r.None? <==> contents == map[]
      ensures r.Some? ==> r.value in contents && forall p :: p in contents ==> p <= r.value
    {
      hide Represents, Mirrors, Summarises, GreatestOccupied;
      var w := WindowMax();
      var o: Option<Price> := None;
      if overflow != map[] {
        var last := LastKey(overflow.Keys);
        o := Some(last);
      }
      HigherIsHighest(base, levels, overflow, contents, w, o);
      r := HigherOf(base, w, o);
    }

    /** Occupied window indices from low to high. */
    method WindowAscending() returns (ks: seq<nat>)
      requires Valid()
      ensures Ascending(ks) && forall x :: x in ks <==> x in Occupied(levels)
    {
      hide Represents, Mirrors, Summarises, Occupied, Ascending, Shifted;
      OccupiedIsPresent(base, levels, overflow, contents);
      OccupiedBelow(levels);
      AscendingNothing();
      ks := [];
      for w := 0 to 16
        invariant Ascending(ks)
        invariant forall x :: x in ks <==> x in Occupied(levels) && x < 64 * w
      {
        var bits := BitsAscending(l0[w]);
        var part := Shifted(bits, 64 * w);
        AscendingShifted(bits, part, 64 * w);
        forall x ensures x in part <==> 64 * w <= x < 64 * w + 64 && x in Occupied(levels) {
          WordMembers(l0[..], levels, w, bits, x);
        }
        AscendingConcat(ks, part, 64 * w);
        ks := ks + part;
      }
    }

    /** Occupied window indices from high to low. */
    method WindowDescending() returns (ks: seq<nat>)
      requires Valid()
      ensures Descending(ks) && forall x :: x in ks <==> x in Occupied(levels)
    {
      hide Represents, Mirrors, Summarises, Occupied, Descending, Shifted;
      OccupiedIsPresent(base, levels, overflow, contents);
      OccupiedBelow(levels);
      DescendingNothing();
      ks := [];
      for w := 16 downto 0
        invariant Descending(ks)
        invariant forall x :: x in ks <==> x in Occupied(levels) && x >= 64 * w
      {
        var bits := BitsDescending(l0[w]);
        var part := Shifted(bits, 64 * w);
        DescendingShifted(bits, part, 64 * w);
        forall x ensures x in part <==> 64 * w <= x < 64 * w + 64 && x in Occupied(levels) {
          WordMembers(l0[..], levels, w, bits, x);
        }
        DescendingConcat(ks, part, 64 * w + 64);
        ks := ks + part;
      }
    }

    /** The prices `walk_asc` visits, in the order it visits them. */
    method PricesAscending() returns (ps: seq<Price>)
      requires Valid()
      ensures Ascending(ps) && forall p :: p in ps <==> p in contents
    {
      hide Represents, Mirrors, Summarises, Occupied, Ascending, Below, From;
      AscendingNothing();
      var below := KeysAscending(Below(overflow, base));
      var ks := WindowAscending();
      WindowInRange(base, levels, overflow, contents, ks);
      var window := Prices(ks);
      AscendingShifted(ks, window, base);
      var above := [];
      if base + 1024 <= U64_MAX {
        above := KeysAscending(From(overflow, base + 1024));
      }
      ps := below + window + above;
      WalkCovers(base, levels, overflow, contents, below, ks, window, above);
      JoinAscending(below, window, above, base, base + 1024);
    }

    /** The prices `walk_desc` visits, in the order it visits them. */
    method PricesDescending() returns (ps: seq<Price>)
      requires Valid()
      ensures Descending(ps) && forall p :: p in ps <==> p in contents
    {
      hide Represents, Mirrors, Summarises, Occupied, Descending, Below, From;
      DescendingNothing();
      var above := [];
      if base + 1024 <= U64_MAX {
        above := KeysDescending(From(overflow, base + 1024));
      }
      var ks := WindowDescending();
      WindowInRange(base, levels, overflow, contents, ks);
      var window := Prices(ks);
      DescendingShifted(ks, window, base);
      var below := KeysDescending(Below(overflow, base));
      ps := above + window + below;
      WalkCovers(base, levels, overflow, contents, below, ks, window, above);
      JoinDescending(above, window, below, base, base + 1024);
    }

    /** Window indices as prices. */
    method Prices(ks: seq<nat>) returns (ps: seq<Price>)
      requires forall x :: x in ks ==> base + x <= U64_MAX
      ensures |ps| == |ks| && forall i :: 0 <= i < |ks| ==> ps[i] == ks[i] + base
      ensures forall p :: p in ps <==> base <= p && p - base in ks
    {
      ps := [];
      for n := 0 to |ks|
        invariant |ps| == n && forall i :: 0 <= i < n ==> ps[i] == ks[i] + base
        invariant forall p :: p in ps <==> base <= p && p - base in ks[..n]
      {
        assert ks[n] in ks;
        assert ks[..n + 1] == ks[..n] + [ks[n]];
        ps := ps + [base + ks[n]];
      }
      assert ks[..|ks|] == ks;
    }

    /** The level stored at `price`, live or not. */
    function Peek(price: Price): (r: Option<Level>)
      requires Represents(base, levels, overflow, contents)
      reads this
      ensures r.Some? <==> price in contents
      ensures r.Some? ==> r.value == contents[price]
    {
      Lookup(base, levels, overflow, contents, price);
      if Idx(price).Some? then levels[Idx(price).value]
      else if price in overflow then Some(overflow[price]) else None
    }

    /** Reclaim dead slots at `price` and drop the level once nothing lives there. */
    method MaintainLevel(price: Price, pool: OrderPool) returns (ghost kept: seq<nat>, ghost removed: seq<nat>)
      requires Valid()
      requires price in contents ==> Counted(pool.slots, contents[price])
      modifies this, l0, pool`free
      ensures Valid()
      ensures price !in old(contents) ==> contents == old(contents) && pool.free == old(pool.free)
      ensures price in old(contents) ==>
        && Reclaims(pool.slots, old(contents)[price].orders, kept, removed)
        && pool.free == old(pool.free) + removed
        && contents == Maintained(old(contents), price, kept)
        && (price in contents ==> Tidy(pool.slots, contents[price]))
        && (old(contents)[price].live == 0 ==> kept == [])
    {
      hide Represents, Mirrors, Summarises, Occupied, Reclaims, Live, Tidy;
      kept, removed := [], [];
      var found := Peek(price);
      if found.Some? {
        assert contents[price := contents[price]] == contents;
        var lv;
        lv, removed := Reclaim(found.value, pool);
        kept := lv.orders;
        Update(price, lv);
        if lv.live == 0 {
          Drop(price);
          assert contents == old(contents) - {price};
        }
      }
    }
  }

  /**
   The reclamation pass of one level: pop tombstones off the front; then, when tombstones
   dominate a queue of 1024 slots or more, compact it.
   */
  method Reclaim(lv: Level, pool: OrderPool) returns (lv': Level, ghost removed: seq<nat>)
    requires Counted(pool.slots, lv)
    modifies pool`free
    ensures Reclaims(pool.slots, lv.orders, lv'.orders, removed)
    ensures pool.free == old(pool.free) + removed
    ensures lv' == lv.(orders := lv'.orders)
    ensures lv'.live > 0 ==> Tidy(pool.slots, lv')
    ensures lv'.live == 0 ==> lv'.orders == []
  {
    hide Reclaims, Live;
    var queue;
    queue, removed := pool.PopDeadFront(lv.orders);
    LiveFrontKept(pool.slots, lv.orders, queue, removed);
    if lv.live > 0 && |queue| >= 1024 && |queue| > 2 * lv.live {
      ghost var popped := removed;
      var compacted;
      compacted, removed := pool.Compact(queue);
      LiveFrontKept(pool.slots, queue, compacted, removed);
      ReclaimsTwice(pool.slots, lv.orders, queue, popped, compacted, removed);
      removed := popped + removed;
      queue := compacted;
    }
    lv' := lv.(orders := queue);
  }
}
