/** Pro-rata matching: proportional shares rounded by the largest-remainder method. */
module ProRatas {
  import opened Types
  import opened Books
  import opened Strategies
  import opened Arithmetic

  function Sum(s: seq<nat>): nat {
    if s == [] then 0 else s[0] + Sum(s[1..])
  }

  lemma {:induction false} SumConcat(a: seq<nat>, b: seq<nat>)
    ensures Sum(a + b) == Sum(a) + Sum(b)
  {
    if a == [] {
      assert a + b == b;
    } else {
      assert (a + b)[1..] == a[1..] + b;
      SumConcat(a[1..], b);
    }
  }

  lemma SumBump(s: seq<nat>, i: nat)
    requires i < |s|
    ensures Sum(s[i := s[i] + 1]) == Sum(s) + 1
  {
    assert s == s[..i] + [s[i]] + s[i + 1..];
    assert s[i := s[i] + 1] == s[..i] + [s[i] + 1] + s[i + 1..];
    SumConcat(s[..i], [s[i]]);
    SumConcat(s[..i], [s[i] + 1]);
    SumConcat(s[..i] + [s[i]], s[i + 1..]);
    SumConcat(s[..i] + [s[i] + 1], s[i + 1..]);
  }

  // --- floored shares and their remainders ------------------------------------------------------

  /** `floor(fillable * size / total)` */
  function Share(fillable: nat, size: nat, total: nat): nat
    requires total > 0
  {
    fillable * size / total
  }

  function Fraction(fillable: nat, size: nat, total: nat): (r: nat)
    requires total > 0
    ensures r < total
  {
    fillable * size % total
  }

  function Shares(view: seq<RestingOrder>, fillable: nat, total: nat): (r: seq<nat>)
    requires total > 0
    ensures |r| == |view| && forall i :: 0 <= i < |r| ==> r[i] == Share(fillable, view[i].remaining, total)
  {
    seq(|view|, i requires 0 <= i < |view| => Share(fillable, view[i].remaining, total))
  }

  /** The level with each order's size replaced by its fractional remainder. */
  function FractionView(view: seq<RestingOrder>, fillable: nat, total: Qty): (r: seq<RestingOrder>)
    requires total > 0
    ensures |r| == |view|
    ensures forall i :: 0 <= i < |r| ==>
              r[i] == view[i].(remaining := Fraction(fillable, view[i].remaining, total))
  {
    seq(|view|, i requires 0 <= i < |view| => view[i].(remaining := Fraction(fillable, view[i].remaining, total)))
  }

  /** The shares fall short of `fillable` by the sum of the remainders over `total`. */
  lemma {:induction false} SharesAndFractions(view: seq<RestingOrder>, fillable: nat, total: Qty)
    requires total > 0
    ensures fillable * TotalSeen(view) ==
              total * Sum(Shares(view, fillable, total)) + TotalSeen(FractionView(view, fillable, total))
    ensures TotalSeen(FractionView(view, fillable, total)) <= total * |view|
    ensures view != [] ==> TotalSeen(FractionView(view, fillable, total)) < total * |view|
  {
    if view != [] {
      var rest := view[1..];
      SharesAndFractions(rest, fillable, total);
      assert Shares(view, fillable, total)[1..] == Shares(rest, fillable, total);
      assert FractionView(view, fillable, total)[1..] == FractionView(rest, fillable, total);
      ShareStep(fillable, view[0].remaining, total, TotalSeen(rest), Sum(Shares(rest, fillable, total)),
                TotalSeen(FractionView(rest, fillable, total)), |rest|);
    }
  }

  lemma ShareStep(f: nat, r: nat, t: nat, restTotal: nat, restShares: nat, restFractions: nat, n: nat)
    requires t > 0 && f * restTotal == t * restShares + restFractions && restFractions <= t * n
    ensures f * (r + restTotal) == t * (Share(f, r, t) + restShares) + (Fraction(f, r, t) + restFractions)
    ensures Fraction(f, r, t) + restFractions < t * (n + 1)
  {
    DivisionLaw(f * r, t);
    Distribute(f, r, restTotal);
    Distribute(t, Share(f, r, t), restShares);
    Distribute(t, n, 1);
  }

  // --- rounding up the largest remainders -----------------------------------------------------------

  /** `base[i] += 1` for every position listed. */
  function Bumped(base: seq<nat>, top: seq<nat>): (r: seq<nat>)
    requires forall k :: 0 <= k < |top| ==> top[k] < |base|
    ensures |r| == |base|
    decreases |top|
  {
    if top == [] then base else Bumped(base[top[0] := base[top[0]] + 1], top[1..])
  }

  lemma {:induction false} BumpedSum(base: seq<nat>, top: seq<nat>)
    requires forall k :: 0 <= k < |top| ==> top[k] < |base|
    ensures Sum(Bumped(base, top)) == Sum(base) + |top|
    decreases |top|
  {
    if top != [] {
      SumBump(base, top[0]);
      BumpedSum(base[top[0] := base[top[0]] + 1], top[1..]);
    }
  }

  lemma {:induction false} BumpedOnce(base: seq<nat>, top: seq<nat>, i: nat)
    requires (forall k :: 0 <= k < |top| ==> top[k] < |base|) && DistinctPositions(top) && i < |base|
    ensures Bumped(base, top)[i] == base[i] + if i in top then 1 else 0
    decreases |top|
  {
    if top != [] {
      BumpedOnce(base[top[0] := base[top[0]] + 1], top[1..], i);
      assert top == [top[0]] + top[1..];
      assert top[0] !in top[1..];
    }
  }

  /** Lots left over after the floored shares. */
  function Leftover(view: seq<RestingOrder>, fillable: nat, total: Qty): int
    requires total > 0
  {
    fillable - Sum(Shares(view, fillable, total))
  }

  lemma LeftoverBound(view: seq<RestingOrder>, fillable: nat)
    requires 0 < TotalSeen(view) <= U64_MAX
    ensures 0 <= Leftover(view, fillable, TotalSeen(view)) < |view|
  {
    var t := TotalSeen(view);
    SharesAndFractions(view, fillable, t);
    var shares, fractions := Sum(Shares(view, fillable, t)), TotalSeen(FractionView(view, fillable, t));
    BoundStep(fillable, t, shares, fractions, |view|);
  }

  lemma BoundStep(f: nat, t: nat, shares: nat, fractions: nat, n: nat)
    requires t > 0 && f * t == t * shares + fractions && fractions < t * n
    ensures 0 <= f - shares < n
  {
    Distribute(t, f, -(shares as int));
    assert t * (f - shares) == fractions;
    MulCancel(t, f - shares, n);
    MulCancel(t, -1, f - shares);
  }

  /** What each order is given when the aggressor cannot clear the level. */
  function Rounded(view: seq<RestingOrder>, fillable: nat): (r: seq<nat>)
    requires 0 < TotalSeen(view) <= U64_MAX
    ensures |r| == |view|
  {
    LeftoverBound(view, fillable);
    var t := TotalSeen(view);
    var ranked := SizeOrder(FractionView(view, fillable, t), |view|);
    Bumped(Shares(view, fillable, t), ranked[..Leftover(view, fillable, t)])
  }

  /**
   Largest-remainder rounding: everyone gets the floored share or one lot more, nobody more
   than the order's size, the extra lots go to the largest remainders (ties: earlier first),
   and the lots add up exactly.
   */
  lemma RoundedIsFair(view: seq<RestingOrder>, fillable: nat)
    requires Positive(view) && TotalSeen(view) <= U64_MAX && 0 < fillable < TotalSeen(view)
    ensures var t, r := TotalSeen(view), Rounded(view, fillable);
            var fractions := FractionView(view, fillable, t);
            && Sum(r) == fillable
            && (forall i :: 0 <= i < |view| ==>
                  && Share(fillable, view[i].remaining, t) <= r[i] <= Share(fillable, view[i].remaining, t) + 1
                  && r[i] <= view[i].remaining)
            && (forall i, j :: (0 <= i < |view| && 0 <= j < |view|
                  && r[i] == Share(fillable, view[i].remaining, t) + 1
                  && r[j] == Share(fillable, view[j].remaining, t)) ==> Ahead(fractions, i, j))
  {
    hide Share, Fraction, Sum, Ahead, SizeOrder;
    var t := TotalSeen(view);
    LeftoverBound(view, fillable);
    var fractions := FractionView(view, fillable, t);
    var ranked, k := SizeOrder(fractions, |view|), Leftover(view, fillable, t);
    SizeOrderSorted(fractions, |view|);
    SortedIsDistinct(fractions, ranked);
    BumpedSum(Shares(view, fillable, t), ranked[..k]);
    forall i | 0 <= i < |view|
      ensures Rounded(view, fillable)[i] == Share(fillable, view[i].remaining, t) + if i in ranked[..k] then 1 else 0
      ensures Share(fillable, view[i].remaining, t) < view[i].remaining
    {
      BumpedOnce(Shares(view, fillable, t), ranked[..k], i);
      ShareBelow(fillable, view[i].remaining, t);
    }
    forall i, j | 0 <= i < |view| && 0 <= j < |view| && i in ranked[..k] && j !in ranked[..k]
      ensures Ahead(fractions, i, j)
    {
      RankedAhead(fractions, ranked, k, i, j);
    }
  }

  lemma ShareBelow(f: nat, r: nat, t: nat)
    requires f < t && r > 0
    ensures Share(f, r, t) < r
  {
    DivisionLaw(f * r, t);
    assert f * r < t * r;
    MulCancel(t, Share(f, r, t), r);
  }

  lemma RankedAhead(view: seq<RestingOrder>, ranked: seq<nat>, k: nat, i: nat, j: nat)
    requires InView(view, ranked) && SortedBySize(view, ranked) && k <= |ranked|
    requires i in ranked[..k] && j in ranked && j !in ranked[..k]
    ensures Ahead(view, i, j)
  {
    var a :| 0 <= a < k && ranked[..k][a] == i;
    var b :| 0 <= b < |ranked| && ranked[b] == j;
    assert forall c :: 0 <= c < k ==> ranked[..k][c] == ranked[c];
  }

  // --- the strategy ------------------------------------------------------------------------------------

  predicate AtMostSize(view: seq<RestingOrder>, lots: seq<nat>) {
    |lots| == |view| && forall i :: 0 <= i < |view| ==> lots[i] <= view[i].remaining
  }

  /** The non-zero shares from position `i` on, in time order. */
  function Emitted(view: seq<RestingOrder>, lots: seq<nat>, i: nat): seq<Allocation>
    requires AtMostSize(view, lots) && i <= |view|
    decreases |view| - i
  {
    if i == |view| then []
    else (if lots[i] > 0 then [Allocation(view[i].id, lots[i], i)] else []) + Emitted(view, lots, i + 1)
  }

  lemma {:induction false} EmittedHonours(view: seq<RestingOrder>, lots: seq<nat>, i: nat)
    requires AtMostSize(view, lots) && i <= |view|
    ensures var out := Emitted(view, lots, i);
            && Within(view, out) && DistinctMakers(out)
            && Allocated(out) == Sum(lots[i..])
            && forall k :: 0 <= k < |out| ==> out[k].idx >= i
    decreases |view| - i
  {
    hide Within, DistinctMakers;
    if i == |view| {
      NothingAllocated(view);
    } else {
      EmittedHonours(view, lots, i + 1);
      assert lots[i..][1..] == lots[i + 1..];
      var rest := Emitted(view, lots, i + 1);
      if lots[i] > 0 {
        EmitOne(view, Allocation(view[i].id, lots[i], i), rest);
      } else {
        assert Emitted(view, lots, i) == rest;
      }
    }
  }

  lemma EmitOne(view: seq<RestingOrder>, a: Allocation, rest: seq<Allocation>)
    requires WithinOrder(view, a) && Within(view, rest) && DistinctMakers(rest)
    requires forall k :: 0 <= k < |rest| ==> rest[k].idx > a.idx
    ensures Within(view, [a] + rest) && DistinctMakers([a] + rest)
    ensures Allocated([a] + rest) == a.qty + Allocated(rest)
  {
    hide WithinOrder;
    assert ([a] + rest)[1..] == rest;
  }

  /** Every order's whole size. */
  function Sizes(view: seq<RestingOrder>): (r: seq<nat>)
    ensures AtMostSize(view, r) && forall i :: 0 <= i < |r| ==> r[i] == view[i].remaining
  {
    seq(|view|, i requires 0 <= i < |view| => view[i].remaining)
  }

  lemma {:induction false} SumSizes(view: seq<RestingOrder>)
    ensures Sum(Sizes(view)) == TotalSeen(view)
  {
    if view != [] {
      assert Sizes(view)[1..] == Sizes(view[1..]);
      SumSizes(view[1..]);
    }
  }

  /** Orders the strategy is asked about: live ones whose total fits the machine word. */
  predicate Askable(view: seq<RestingOrder>) {
    (forall i :: 0 <= i < |view| ==> view[i].remaining > 0) && TotalSeen(view) <= U64_MAX
  }

  /** What each order is given. */
  function Given(view: seq<RestingOrder>, n: Qty): (lots: seq<nat>)
    requires Askable(view) && n > 0 && view != []
    ensures AtMostSize(view, lots)
  {
    if TotalSeen(view) <= n then Sizes(view)
    else RoundedIsFair(view, n); Rounded(view, n)
  }

  function Proportional(view: seq<RestingOrder>, n: Qty): seq<Allocation> {
    if !Askable(view) || n == 0 || view == [] then [] else Emitted(view, Given(view, n), 0)
  }

  const ProRata := Strategy(true, Proportional)

  lemma ProRataIsLawful()
    ensures Lawful(ProRata)
  {
    hide Honours, TotalSeen, Proportional;
    forall view: seq<RestingOrder>, n: Qty | Positive(view) && TotalSeen(view) <= U64_MAX
      ensures Honours(view, n, Proportional(view, n))
    {
      ProportionalHonours(view, n);
    }
  }

  lemma ProportionalHonours(view: seq<RestingOrder>, n: Qty)
    requires Positive(view) && TotalSeen(view) <= U64_MAX
    ensures Honours(view, n, Proportional(view, n))
  {
    hide Within, DistinctMakers, Rounded, Emitted;
    if n == 0 || view == [] {
      NothingAllocated(view);
    } else {
      var lots := Given(view, n);
      EmittedHonours(view, lots, 0);
      assert lots[0..] == lots;
      if TotalSeen(view) <= n {
        SumSizes(view);
      } else {
        RoundedIsFair(view, n);
      }
    }
  }

  // --- the allocation loop ------------------------------------------------------------------------------

  /** Floored shares, then one more lot to the largest remainders, then the non-zero shares in time order. */
  method AllocateProRata(view: seq<RestingOrder>, incoming: Qty) returns (out: seq<Allocation>)
    requires Positive(view) && TotalSeen(view) <= U64_MAX
    ensures out == Proportional(view, incoming)
  {
    hide Rounded, Emitted, Sum, Share, Fraction, TotalSeen, Given, SizeOrder, Bumped;
    if incoming == 0 || view == [] {
      return [];
    }
    var total := TotalSeen(view);
    GivenIs(view, incoming);
    if total <= incoming {
      out := Emit(view, Sizes(view));
      return;
    }
    if |view| == 1 {
      OneOrder(view, incoming);
      return [Allocation(view[0].id, incoming, 0)];
    }
    var base, fracs, given := FloorShares(view, incoming, total);
    LeftoverBound(view, incoming);
    var leftover := incoming - given;
    var ranked := SizeOrder(fracs, |view|);
    var lots := Bump(base, ranked[..leftover]);
    out := Emit(view, lots);
  }

  lemma OneOrder(view: seq<RestingOrder>, n: Qty)
    requires Positive(view) && TotalSeen(view) <= U64_MAX && |view| == 1 && 0 < n < TotalSeen(view)
    ensures Proportional(view, n) == [Allocation(view[0].id, n, 0)]
  {
    hide Rounded, Share, Fraction;
    RoundedIsFair(view, n);
    var lots := Rounded(view, n);
    assert Sum(lots) == lots[0] + Sum(lots[1..]) == lots[0];
    assert Emitted(view, lots, 1) == [];
  }

  /** Of two orders of which one got the extra lot, it is the one with the larger remainder, then the earlier. */
  lemma ExtraToLargest(view: seq<RestingOrder>, fillable: nat, i: nat, j: nat)
    requires Positive(view) && TotalSeen(view) <= U64_MAX && 0 < fillable < TotalSeen(view)
    requires i < |view| && j < |view|
    requires Rounded(view, fillable)[i] > fillable * view[i].remaining / TotalSeen(view)
    requires Rounded(view, fillable)[j] == fillable * view[j].remaining / TotalSeen(view)
    ensures var t := TotalSeen(view);
            var a, b := fillable * view[i].remaining % t, fillable * view[j].remaining % t;
            a > b || (a == b && (view[i].timestamp < view[j].timestamp
                                 || (view[i].timestamp == view[j].timestamp && i < j)))
  {
    hide Rounded, Sum, TotalSeen;
    RoundedIsFair(view, fillable);
  }

  lemma GivenIs(view: seq<RestingOrder>, n: Qty)
    requires Askable(view) && n > 0 && view != []
    ensures TotalSeen(view) > 0
    ensures TotalSeen(view) <= n ==> Given(view, n) == Sizes(view)
    ensures TotalSeen(view) > n ==> Given(view, n) == Rounded(view, n)
    ensures TotalSeen(view) > n ==>
      var t := TotalSeen(view);
      && 0 <= Leftover(view, n, t) < |view|
      && Rounded(view, n) ==
           Bumped(Shares(view, n, t), SizeOrder(FractionView(view, n, t), |view|)[..Leftover(view, n, t)])
  {
    hide Sum, Share, Fraction, Bumped, SizeOrder;
    LeftoverBound(view, n);
  }

  method FloorShares(view: seq<RestingOrder>, fillable: Qty, total: Qty)
    returns (base: seq<nat>, fracs: seq<RestingOrder>, given: nat)
    requires total > 0
    ensures base == Shares(view, fillable, total)
    ensures fracs == FractionView(view, fillable, total)
    ensures given == Sum(Shares(view, fillable, total))
  {
    hide Share, Fraction, Sum;
    base, fracs, given := [], [], 0;
    NoShares(fillable, total);
    for i := 0 to |view|
      invariant base == Shares(view[..i], fillable, total)
      invariant fracs == FractionView(view[..i], fillable, total)
      invariant given == Sum(base)
    {
      assert view[..i + 1] == view[..i] + [view[i]];
      var share := Share(fillable, view[i].remaining, total);
      SumConcat(base, [share]);
      SumOne(share);
      base := base + [share];
      fracs := fracs + [view[i].(remaining := Fraction(fillable, view[i].remaining, total))];
      given := given + share;
    }
    assert view[..|view|] == view;
  }

  lemma NoShares(fillable: nat, total: Qty)
    requires total > 0
    ensures Sum(Shares([], fillable, total)) == 0
  {}

  lemma SumOne(x: nat)
    ensures Sum([x]) == x
  {}

  method Bump(base: seq<nat>, top: seq<nat>) returns (lots: seq<nat>)
    requires forall k :: 0 <= k < |top| ==> top[k] < |base|
    ensures lots == Bumped(base, top)
  {
    lots := base;
    for k := 0 to |top|
      invariant |lots| == |base|
      invariant Bumped(lots, top[k..]) == Bumped(base, top)
    {
      assert top[k..][0] == top[k] && top[k..][1..] == top[k + 1..];
      lots := lots[top[k] := lots[top[k]] + 1];
    }
  }

  method Emit(view: seq<RestingOrder>, lots: seq<nat>) returns (out: seq<Allocation>)
    requires AtMostSize(view, lots)
    ensures out == Emitted(view, lots, 0)
  {
    hide Emitted;
    out := [];
    EmitsLast(view, lots);
    for i := 0 to |view|
      invariant out + Emitted(view, lots, i) == Emitted(view, lots, 0)
    {
      EmitsNext(view, lots, i, out);
      if lots[i] > 0 {
        out := out + [Allocation(view[i].id, lots[i], i)];
      }
    }
  }

  lemma EmitsNext(view: seq<RestingOrder>, lots: seq<nat>, i: nat, out: seq<Allocation>)
    requires AtMostSize(view, lots) && i < |view|
    ensures out + Emitted(view, lots, i) ==
              out + (if lots[i] > 0 then [Allocation(view[i].id, lots[i], i)] else []) + Emitted(view, lots, i + 1)
  {}

  lemma EmitsLast(view: seq<RestingOrder>, lots: seq<nat>)
    requires AtMostSize(view, lots)
    ensures Emitted(view, lots, |view|) == []
  {}
}
