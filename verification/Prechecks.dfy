/** Fill-or-kill, budgets and what an order can expect to fill. */
module Prechecks {
  import opened Types
  import opened Books
  import opened Queues
  import opened Strategies
  import opened Matching
  import opened Crossings
  import opened Arithmetic

  /** No order of the taker's user rests on the side it hits, or prevention is off. */
  ghost predicate Unhindered(r: Rules, b: Book, o: Order) {
    Prevents(r.policy, o.user) ==> forall m :: Rests(b, m) && m.side == o.side.Opposite() ==> m.user != o.user
  }

  lemma UnhinderedRound(r: Rules, b: Book, o: Order, budget: nat)
    requires Sound(b) && Lawful(r.strategy) && Unhindered(r, b, o)
    ensures OneRound(r, b, o, budget).Halt? || OneRound(r, b, o, budget).Fills?
    ensures OneRound(r, b, o, budget).Fills? ==>
      forall rem: Qty :: Unhindered(r, OneRound(r, b, o, budget).book, o.(remaining := rem))
  {
    hide Best, Lawful, WithQueue, FilledAll, Capped, Total, TotalSeen, Positive, Fitting, IdsUnique, GoodBook;
    var side := o.side.Opposite();
    if Best(b, side).Some? && Prevents(r.policy, o.user) {
      ShownIsFront(r, b, o, budget);
      var q, v := Level(b, o), ShownLevel(r, b, o, budget);
      forall i | 0 <= i < |v| ensures v[i].user != o.user {
        assert v[i] == q[i] && q[i] in q;
        assert Rests(b, q[i]);
      }
    }
    if OneRound(r, b, o, budget).Fills? && Prevents(r.policy, o.user) {
      forall m | Rests(OneRound(r, b, o, budget).book, m) && m.side == side ensures m.user != o.user {
        RoundLowers(r, b, o, budget, m);
      }
    }
  }

  // --- taking lots out of the best level -------------------------------------------------------------------

  lemma BestAfterPartial(b: Book, side: Side, px: Price, q': seq<Order>)
    requires Best(b, side) == Some(px)
    ensures q' == [] ==> WithQueue(b, side, px, q') == Without(b, side, px)
    ensures q' != [] ==>
      && Best(WithQueue(b, side, px, q'), side) == Some(px)
      && Queue(WithQueue(b, side, px, q'), side, px) == q'
      && Without(WithQueue(b, side, px, q'), side, px) == Without(b, side, px)
  {
    BestIsBest(b, side);
    hide Best;
    if q' != [] {
      WithQueueTwice(b, side, px, q', []);
      assert forall p :: p in Levels(WithQueue(b, side, px, q'), side) ==> p in Levels(b, side);
      BestIs(WithQueue(b, side, px, q'), side, px);
    }
  }

  /** Lots taken from the best level within the limit come off what is crossable. */
  lemma CrossablePartial(b: Book, side: Side, limit: Price, px: Price, q': seq<Order>)
    requires Best(b, side) == Some(px) && !Better(side, limit, px) && Total(q') <= Total(Queue(b, side, px))
    ensures CrossableLots(WithQueue(b, side, px, q'), side, limit) ==
              CrossableLots(b, side, limit) - (Total(Queue(b, side, px)) - Total(q'))
  {
    hide Best, WithQueue, Without, Better;
    BestAfterPartial(b, side, px, q');
  }

  /** Lots taken from the best level come off what is left to sweep, at that level's price. */
  lemma SweepPartial(b: Book, side: Side, px: Price, q': seq<Order>, qty: nat, lots: nat)
    requires Best(b, side) == Some(px) && Total(q') == Total(Queue(b, side, px)) - lots
    requires 0 < lots <= qty && lots <= Total(Queue(b, side, px))
    ensures var b' := WithQueue(b, side, px, q');
            && SweepCost(b, side, qty).0 == SweepCost(b', side, qty - lots).0
            && SweepCost(b, side, qty).1 == SweepCost(b', side, qty - lots).1 + Notional(px, lots)
  {
    hide Best, WithQueue, Without, Notional;
    BestAfterPartial(b, side, px, q');
    var total := Total(Queue(b, side, px));
    var take := if qty <= total then qty else total;
    NotionalAdds(px, lots, take - lots);
    SweepNothing(Without(b, side, px), side);
    SweepNothing(WithQueue(b, side, px, q'), side);
    NotionalZero(px);
  }

  lemma SweepNothing(b: Book, side: Side)
    ensures SweepCost(b, side, 0) == (0, 0)
  {}

  // --- ordinary orders: the 128-bit budget never binds ----------------------------------------------------

  /** The budget covers the lots at any price. */
  ghost predicate Ample(budget: nat, remaining: nat) {
    budget >= Notional(U64_MAX, remaining)
  }

  lemma OrdinaryIsAmple(quantity: Qty)
    ensures Ample(U128_MAX, quantity)
  {
    MulMono(U64_MAX, quantity, U64_MAX);
  }

  lemma AmpleAffords(budget: nat, px: Price, remaining: Qty)
    requires Ample(budget, remaining)
    ensures Affordable(budget, px, remaining) == remaining
  {
    var d := if px == 0 then 1 else px;
    MulMonoLeft(d, U64_MAX, remaining);
    QuotientAtLeast(budget, d, remaining);
  }

  lemma AmpleAfter(budget: nat, px: Price, remaining: nat, lots: nat)
    requires Ample(budget, remaining) && lots <= remaining
    ensures budget - Notional(px, lots) >= 0 && Ample(budget - Notional(px, lots), remaining - lots)
  {
    NotionalAdds(U64_MAX, lots, remaining - lots);
    MulMonoLeft(px, U64_MAX, lots);
  }

  /** The limit an order crosses up to; a market order crosses everything. */
  function EffectiveLimit(o: Order): Price {
    if o.orderType == Limit then o.price else if o.side.Buy? then U64_MAX else 0
  }

  lemma CrossesWithin(o: Order, px: Price)
    ensures Crosses(o, px) <==> !Better(o.side.Opposite(), EffectiveLimit(o), px)
  {}

  /**
   An unhindered ordinary order fills exactly as much as is crossable: the whole of it or the
   whole of the crossable lots.
   */
  lemma {:induction false} FillsWhatIsCrossable(r: Rules, b: Book, o: Order, budget: nat)
    requires Sound(b) && Lawful(r.strategy) && Unhindered(r, b, o) && Ample(budget, o.remaining)
    ensures var c := Cross(r, b, o, budget);
            var lots := CrossableLots(b, o.side.Opposite(), EffectiveLimit(o));
            !c.stopped && c.pulled == [] && c.remaining == if lots <= o.remaining then o.remaining - lots else 0
    decreases o.remaining, |Resting(b)|
  {
    hide Sound, Lawful, OneRound, Resting, CrossableLots, Unhindered, Ample, Best;
    var side := o.side.Opposite();
    UnhinderedRound(r, b, o, budget);
    RoundProgress(r, b, o, budget);
    match OneRound(r, b, o, budget)
    case Halt =>
      HaltedEmpty(r, b, o, budget);
    case Fills(b', remaining, budget', ts) =>
      var lots := o.remaining - remaining;
      AmpleRound(r, b, o, budget);
      FillsWhatIsCrossable(r, b', o.(remaining := remaining), budget');
  }

  lemma HaltedEmpty(r: Rules, b: Book, o: Order, budget: nat)
    requires Sound(b) && Lawful(r.strategy) && OneRound(r, b, o, budget).Halt? && Ample(budget, o.remaining)
    ensures o.remaining == 0 || CrossableLots(b, o.side.Opposite(), EffectiveLimit(o)) == 0
  {
    hide Sound, Lawful, OneRound, Best, Ample;
    HaltMeans(r, b, o, budget);
    var best := Best(b, o.side.Opposite());
    if best.Some? {
      CrossesWithin(o, best.value);
      AmpleAffords(budget, best.value, o.remaining);
    }
  }

  lemma AmpleRound(r: Rules, b: Book, o: Order, budget: nat)
    requires Sound(b) && Lawful(r.strategy) && OneRound(r, b, o, budget).Fills? && Ample(budget, o.remaining)
    ensures var rd, side := OneRound(r, b, o, budget), o.side.Opposite();
            && rd.remaining >= 0 && rd.budget >= 0 && Ample(rd.budget, rd.remaining)
            && CrossableLots(b, side, EffectiveLimit(o)) - CrossableLots(rd.book, side, EffectiveLimit(o)) ==
                 o.remaining - rd.remaining
            && (rd.remaining > 0 || CrossableLots(b, side, EffectiveLimit(o)) >= o.remaining)
  {
    hide Best, Sound, Lawful, WithQueue, FilledAll, Capped, Total, TotalSeen, CrossableLots, Ample, GoodQueue, Honours,
      FillsFit, Notional, Positive;
    var side := o.side.Opposite();
    TradingRound(r, b, o, budget);
    var px, q, out := Best(b, side).value, Level(b, o), Answer(r, b, o, budget);
    ShownIsFront(r, b, o, budget);
    FilledAllLots(q, FillsOf(out), 0, side, px);
    FillQtyIsAllocated(out);
    CrossesWithin(o, px);
    CrossablePartial(b, side, EffectiveLimit(o), px, FilledAll(q, FillsOf(out)));
    AmpleAffords(budget, px, o.remaining);
    AmpleAfter(budget, px, o.remaining, Allocated(out));
  }

  // --- budget buys ---------------------------------------------------------------------------------------------

  /** The FOK_BUDGET precheck: all lots are there and their cost is within the budget. */
  ghost predicate BudgetCovers(b: Book, side: Side, lots: nat, budget: nat) {
    SweepCost(b, side, lots).0 == 0 && SweepCost(b, side, lots).1 <= budget
  }

  ghost predicate PricesPositive(b: Book, side: Side) {
    forall p :: p in Levels(b, side) ==> p > 0
  }

  /** The first lot costs the best price at least. */
  lemma SweepCostsBest(b: Book, side: Side, lots: nat)
    requires Best(b, side).Some? && lots > 0 && Total(Queue(b, side, Best(b, side).value)) > 0
    ensures SweepCost(b, side, lots).1 >= Best(b, side).value
  {
    hide Best, Total, Queue, Without;
    var total := Total(Queue(b, side, Best(b, side).value));
    MulMono(Best(b, side).value, 1, if lots <= total then lots else total);
  }

  lemma LevelHasLots(b: Book, side: Side)
    requires Sound(b) && Best(b, side).Some?
    ensures Total(Queue(b, side, Best(b, side).value)) > 0
  {
    BestIsBest(b, side);
    hide Best, IdsUnique, Fitting;
    var q := Queue(b, side, Best(b, side).value);
    assert q[0].remaining > 0;
  }

  lemma BudgetHalt(r: Rules, b: Book, o: Order, budget: nat)
    requires Sound(b) && Lawful(r.strategy) && OneRound(r, b, o, budget).Halt?
    requires o.side == Buy && EffectiveLimit(o) == U64_MAX && BudgetCovers(b, Sell, o.remaining, budget)
    requires budget > 0 || PricesPositive(b, Sell)
    ensures o.remaining == 0
  {
    hide Lawful, OneRound, Total;
    HaltMeans(r, b, o, budget);
    var best := Best(b, Sell);
    if best.Some? && o.remaining > 0 {
      BestIsBest(b, Sell);
      LevelHasLots(b, Sell);
      SweepCostsBest(b, Sell, o.remaining);
      CrossesWithin(o, best.value);
      hide Best, Sound, SweepCost;
      QuotientAtLeast(budget, if best.value == 0 then 1 else best.value, 1);
    }
  }

  /** A trading round moves what it takes from the sweep's lots and cost. */
  lemma SweepRound(r: Rules, b: Book, o: Order, budget: nat)
    requires Sound(b) && Lawful(r.strategy) && OneRound(r, b, o, budget).Fills? && o.side == Buy
    ensures var rd, px := OneRound(r, b, o, budget), Best(b, Sell).value;
            && rd.remaining >= 0 && rd.budget >= 0
            && SweepCost(b, Sell, o.remaining).0 == SweepCost(rd.book, Sell, rd.remaining).0
            && SweepCost(b, Sell, o.remaining).1 == SweepCost(rd.book, Sell, rd.remaining).1 + (budget - rd.budget)
            && (px == 0 ==> rd.budget == budget)
  {
    hide Sound, Lawful, WithQueue, FilledAll, Capped, Total, TotalSeen, SweepCost, GoodQueue, Honours, FillsFit,
      Notional, Positive, Best;
    RoundProgress(r, b, o, budget);
    TradingRound(r, b, o, budget);
    var px, q, out := Best(b, Sell).value, Level(b, o), Answer(r, b, o, budget);
    ShownIsFront(r, b, o, budget);
    FilledAllLots(q, FillsOf(out), 0, Sell, px);
    FillQtyIsAllocated(out);
    SweepPartial(b, Sell, px, FilledAll(q, FillsOf(out)), o.remaining, Allocated(out));
    NotionalOfFree(px, Allocated(out));
  }

  lemma BudgetRound(r: Rules, b: Book, o: Order, budget: nat)
    requires Sound(b) && Lawful(r.strategy) && OneRound(r, b, o, budget).Fills?
    requires o.side == Buy && BudgetCovers(b, Sell, o.remaining, budget)
    requires budget > 0 || PricesPositive(b, Sell)
    ensures var rd := OneRound(r, b, o, budget);
            && rd.remaining >= 0 && rd.budget >= 0 && BudgetCovers(rd.book, Sell, rd.remaining, rd.budget)
            && (rd.budget > 0 || PricesPositive(rd.book, Sell))
  {
    hide Sound, Lawful, OneRound, SweepCost, Best;
    SweepRound(r, b, o, budget);
    RoundPrices(r, b, o, budget);
    BestIsBest(b, Sell);
  }

  lemma NotionalOfFree(px: nat, lots: nat)
    ensures px == 0 ==> Notional(px, lots) == 0
  {}

  lemma {:induction false} BudgetFills(r: Rules, b: Book, o: Order, budget: nat)
    requires Sound(b) && Lawful(r.strategy) && Unhindered(r, b, o)
    requires o.side == Buy && EffectiveLimit(o) == U64_MAX && BudgetCovers(b, Sell, o.remaining, budget)
    requires budget > 0 || PricesPositive(b, Sell)
    ensures Cross(r, b, o, budget).remaining == 0 && !Cross(r, b, o, budget).stopped
    decreases o.remaining, |Resting(b)|
  {
    hide Sound, Lawful, OneRound, Resting, Unhindered, BudgetCovers, PricesPositive;
    UnhinderedRound(r, b, o, budget);
    RoundProgress(r, b, o, budget);
    match OneRound(r, b, o, budget)
    case Halt =>
      BudgetHalt(r, b, o, budget);
    case Fills(b', remaining, budget', ts) =>
      BudgetRound(r, b, o, budget);
      BudgetFills(r, b', o.(remaining := remaining), budget');
  }

  lemma NoBudgetNoFill(r: Rules, b: Book, o: Order)
    requires Sound(b) && Lawful(r.strategy)
    ensures Cross(r, b, o, 0).remaining == o.remaining && Cross(r, b, o, 0).trades == []
  {
    hide Sound, Lawful, Best, WithQueue, FilledAll, Capped;
    assert OneRound(r, b, o, 0).Halt?;
  }

  lemma {:induction false} FilledIsCovered(r: Rules, b: Book, o: Order, budget: nat)
    requires Sound(b) && Lawful(r.strategy) && Unhindered(r, b, o) && o.side == Buy
    requires Cross(r, b, o, budget).remaining == 0
    ensures BudgetCovers(b, Sell, o.remaining, budget)
    decreases o.remaining, |Resting(b)|
  {
    hide Sound, Lawful, OneRound, Resting, Unhindered, SweepCost;
    UnhinderedRound(r, b, o, budget);
    RoundProgress(r, b, o, budget);
    match OneRound(r, b, o, budget)
    case Halt =>
      SweepNothing(b, Sell);
    case Fills(b', remaining, budget', ts) =>
      FilledIsCovered(r, b', o.(remaining := remaining), budget');
      SweepRound(r, b, o, budget);
  }

  /**
   A budget buy fills completely exactly when it asks for nothing, or its budget is positive
   and covers the lots. The FOK_BUDGET precheck asks only for the second half: at budget 0 free
   levels pass it but are not taken, because affordable lots are counted at a price of at least 1.
   */
  lemma FokBudgetExact(r: Rules, b: Book, o: Order, budget: nat)
    requires Sound(b) && Lawful(r.strategy) && Unhindered(r, b, o)
    requires o.side == Buy && EffectiveLimit(o) == U64_MAX
    ensures Cross(r, b, o, budget).remaining == 0 <==>
              o.remaining == 0 || (budget > 0 && BudgetCovers(b, Sell, o.remaining, budget))
  {
    hide Sound, Lawful, Unhindered, BudgetCovers, Cross, EffectiveLimit;
    if budget == 0 {
      NoBudgetNoFill(r, b, o);
    } else if BudgetCovers(b, Sell, o.remaining, budget) {
      BudgetFills(r, b, o, budget);
    } else if Cross(r, b, o, budget).remaining == 0 {
      FilledIsCovered(r, b, o, budget);
    } else {
      CrossConserves(r, b, o, budget);
    }
  }

  /** The FOK_BUDGET precheck passes and yet nothing fills: a budget of 0 against a free level. */
  lemma ZeroBudgetPasses(r: Rules) returns (b: Book, o: Order)
    requires Lawful(r.strategy)
    ensures Sound(b) && o.side == Buy && EffectiveLimit(o) == U64_MAX && BudgetCovers(b, Sell, o.remaining, 0)
    ensures Cross(r, b, o, 0).remaining > 0
  {
    hide Lawful, Cross;
    var free := Order(1, 0, 0, Sell, Limit, Gtc, 0, 5, 5, 1);
    b := Book(map[], map[0 := [free]]);
    o := Order(2, 0, 0, Buy, Limit, IocBudget, U64_MAX, 5, 5, 2);
    assert forall side, p :: Queue(b, side, p) == [free] || Queue(b, side, p) == [];
    assert Queue(b, Sell, 0) == [free] && Total([free]) == 5 && free in [free];
    BestIs(b, Sell, 0);
    SweepNothing(Without(b, Sell, 0), Sell);
    NoBudgetNoFill(r, b, o);
  }

  /**
   A budget buy never spends more than its budget, and ends filled, with nothing left to hit,
   stopped by prevention, or unable to afford one more lot at the best price.
   */
  lemma BudgetBuyEnds(r: Rules, b: Book, o: Order, budget: nat)
    requires Sound(b) && Lawful(r.strategy) && o.side == Buy && EffectiveLimit(o) == U64_MAX
    ensures var c := Cross(r, b, o, budget);
            && Spent(c.trades) + c.budget == budget
            && (c.stopped || c.remaining == 0 || Best(c.book, Sell).None?
                || c.budget < Best(c.book, Sell).value || (Best(c.book, Sell).value == 0 && c.budget == 0))
  {
    hide Sound, Lawful, Cross, Best, Spent;
    CrossConserves(r, b, o, budget);
    CrossEnds(r, b, o, budget);
    var c := Cross(r, b, o, budget);
    if Best(c.book, Sell).Some? {
      var px := Best(c.book, Sell).value;
      CrossesWithin(o, px);
      var d := if px == 0 then 1 else px;
      if c.budget >= d {
        QuotientAtLeast(c.budget, d, 1);
      }
    }
  }

  // --- budget sells ---------------------------------------------------------------------------------------------

  /** `ceil(budget / max(quantity, 1))`: the floor price a budget sell is converted to. */
  function FloorPrice(budget: Price, quantity: Qty): nat {
    var q := if quantity == 0 then 1 else quantity;
    (budget + q - 1) / q
  }

  lemma FloorPriceCovers(budget: Price, quantity: Qty)
    requires quantity > 0
    ensures Notional(FloorPrice(budget, quantity), quantity) >= budget
  {
    DivisionLaw(budget + quantity - 1, quantity);
  }

  lemma {:induction false} SpentAtLeast(ts: seq<Trade>, p: nat)
    requires forall k :: 0 <= k < |ts| ==> ts[k].price >= p
    ensures Spent(ts) >= Notional(p, Traded(ts))
  {
    if ts != [] {
      SpentAtLeast(ts[1..], p);
      NotionalAdds(p, ts[0].quantity, Traded(ts[1..]));
      MulMonoLeft(p, ts[0].price, ts[0].quantity);
    }
  }

  /** A budget sell that fills completely earns at least its budget. */
  lemma BudgetSellEarns(r: Rules, b: Book, o: Order, budget: nat, asked: Price)
    requires Sound(b) && Lawful(r.strategy) && o.side == Sell && o.orderType == Limit
    requires o.remaining > 0 && o.price == FloorPrice(asked, o.remaining)
    ensures var c := Cross(r, b, o, budget); c.remaining == 0 ==> Spent(c.trades) >= asked
  {
    hide Sound, Lawful, Cross, Spent, Traded, FloorPrice, Notional;
    var c := Cross(r, b, o, budget);
    CrossConserves(r, b, o, budget);
    forall k | 0 <= k < |c.trades| ensures c.trades[k].price >= o.price {
      TradesAreProper(r, b, o, budget, k);
    }
    SpentAtLeast(c.trades, o.price);
    FloorPriceCovers(asked, o.remaining);
  }
}
