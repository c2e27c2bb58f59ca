/** What the outcome of a submission means: all-or-nothing orders, budgets, places in the queue. */
module Outcomes {
  import opened Types
  import opened Books
  import opened Queues
  import opened Strategies
  import opened Matching
  import opened Crossings
  import opened Prechecks
  import opened Priority
  import opened SelfTrades
  import opened Submissions
  import opened Arithmetic

  // --- fill or kill ---------------------------------------------------------------------------------

  /** Widening the limit never loses crossable lots. */
  lemma {:induction false} CrossableWidens(b: Book, side: Side, limit: Price, wider: Price)
    requires !Better(side, wider, limit)
    ensures CrossableLots(b, side, limit) <= CrossableLots(b, side, wider)
    decreases |Levels(b, side)|
  {
    hide Best, Without;
    var best := Best(b, side);
    if best.Some? && !Better(side, limit, best.value) {
      BestIsBest(b, side);
      WithoutSmaller(b, side, best.value);
      CrossableWidens(Without(b, side, best.value), side, limit, wider);
    }
  }

  lemma EffectiveIsWider(o: Order)
    ensures !Better(o.side.Opposite(), EffectiveLimit(o), o.price)
  {}

  predicate AllOrNothing(rep: Report) {
    rep.status.Rejected? || rep.status.WhollyFilled?
  }

  lemma StatusIsFilled(r: Rules, b: Book, o: Order)
    requires Sound(b) && Lawful(r.strategy) && BudgetFits(o)
    ensures var t, rep := Ticketed(b, o, r.now), Submit(r, b, o).1;
            && (t.admitted ==> (AllOrNothing(rep) <==> Cross(r, b, t.order, t.budget).remaining == 0))
            && (!t.admitted ==> rep.status.Rejected?)
  {
    hide Sound, Lawful, Cross, Joined, Ticketed;
    var t := Ticketed(b, o, r.now);
    if t.admitted {
      CrossConserves(r, b, t.order, t.budget);
      StoppedHasLeft(r, b, t.order, t.budget);
    }
  }

  /**
   A fill-or-kill order (or fill-or-kill budget sell) that is admitted is all-or-nothing exactly
   when the lots its self-trade policy leaves it cover the order.
   */
  lemma FillOrKill(r: Rules, b: Book, o: Order)
    requires Sound(b) && Lawful(r.strategy) && BudgetFits(o)
    requires o.tif.Fok? || (o.tif.FokBudget? && o.side.Sell?)
    ensures var t, rep := Ticketed(b, o, r.now), Submit(r, b, o).1;
            && (AllOrNothing(rep) <==> !t.admitted || o.quantity <= Available(r, b, t.order))
            && (Unhindered(r, b, t.order) ==> AllOrNothing(rep))
  {
    hide Sound, Lawful, Cross, Submit, Available, CrossableLots, Unhindered, Ample;
    var t := Ticketed(b, o, r.now);
    StatusIsFilled(r, b, o);
    OrdinaryIsAmple(o.quantity);
    if t.admitted {
      FillOrKillExact(r, b, t.order, t.budget);
      if Unhindered(r, b, t.order) {
        FillsWhatIsCrossable(r, b, t.order, t.budget);
        EffectiveIsWider(t.order);
        CrossableWidens(b, o.side.Opposite(), t.order.price, EffectiveLimit(t.order));
      }
    }
  }

  /**
   The lots a budget buy can have under its policy, at what they cost: all of them, those not its
   own, or those ahead of its own.
   */
  ghost predicate BudgetBuys(r: Rules, b: Book, user: User, lots: nat, budget: nat) {
    var own := Prevents(r.policy, user);
    && BudgetCovers(if own && r.policy.CancelMaker? then WithoutUser(b, Sell, user) else b, Sell, lots, budget)
    && (own && !r.policy.CancelMaker? ==> lots <= LotsAhead(r.strategy, b, Sell, U64_MAX, user))
  }

  /**
   A fill-or-kill budget buy ends rejected or filled exactly when the precheck fails, it asks for
   nothing, or its positive budget buys the lots its policy leaves it.
   */
  lemma FillOrKillBudget(r: Rules, b: Book, o: Order)
    requires Sound(b) && Lawful(r.strategy) && o.tif.FokBudget? && o.side.Buy?
    ensures AllOrNothing(Submit(r, b, o).1) <==>
              || !BudgetCovers(b, Sell, o.quantity, o.price)
              || o.quantity == 0
              || (o.price > 0 && BudgetBuys(r, b, o.user, o.quantity, o.price))
  {
    hide Sound, Lawful, Cross, Submit, BudgetCovers, WithoutUser, LotsAhead;
    var t := Ticketed(b, o, r.now);
    StatusIsFilled(r, b, o);
    if t.admitted {
      FillOrKillBudgetExact(r, b, t.order, t.budget);
    }
  }

  // --- budget sells -------------------------------------------------------------------------------------

  /** While enough lots rest at `floor` or better, a run that pulls no maker trades at `floor` or better. */
  lemma {:induction false} TradesWithin(r: Rules, b: Book, o: Order, budget: nat, floor: Price, k: nat)
    requires Sound(b) && Lawful(r.strategy) && !(Prevents(r.policy, o.user) && r.policy.CancelMaker?)
    requires o.remaining <= CrossableLots(b, o.side.Opposite(), floor) && k < |Cross(r, b, o, budget).trades|
    ensures !Better(o.side.Opposite(), floor, Cross(r, b, o, budget).trades[k].price)
    decreases o.remaining, |Resting(b)|
  {
    hide Sound, Lawful, OneRound, Resting, CrossableLots, Best, Better;
    RoundProgress(r, b, o, budget);
    NotPulling(r, b, o, budget);
    match OneRound(r, b, o, budget)
    case Halt =>
    case StopTaker(b', ids) =>
    case Fills(b', remaining, budget', ts) =>
      FloorRound(r, b, o, budget, floor);
      if k < |ts| {
        RoundPrices(r, b, o, budget);
      } else {
        TradesWithin(r, b', o.(remaining := remaining), budget', floor, k - |ts|);
      }
  }

  lemma NotPulling(r: Rules, b: Book, o: Order, budget: nat)
    requires !(Prevents(r.policy, o.user) && r.policy.CancelMaker?)
    ensures !OneRound(r, b, o, budget).Pull?
  {
    hide Best, WithQueue, FilledAll, Capped;
  }

  /** A round takes its lots at the best price, off what rests at the floor or better. */
  lemma FloorRound(r: Rules, b: Book, o: Order, budget: nat, floor: Price)
    requires Sound(b) && Lawful(r.strategy) && OneRound(r, b, o, budget).Fills?
    requires o.remaining <= CrossableLots(b, o.side.Opposite(), floor)
    ensures var rd, side := OneRound(r, b, o, budget), o.side.Opposite();
            && Best(b, side).Some? && !Better(side, floor, Best(b, side).value)
            && 0 <= rd.remaining <= CrossableLots(rd.book, side, floor)
  {
    hide Best, Sound, Lawful, WithQueue, FilledAll, Capped, Total, TotalSeen, GoodQueue, Honours, FillsFit, Notional,
      Positive, Better;
    var side := o.side.Opposite();
    TradingRound(r, b, o, budget);
    var px, q, out := Best(b, side).value, Level(b, o), Answer(r, b, o, budget);
    assert !Better(side, floor, px);
    ShownIsFront(r, b, o, budget);
    FilledAllLots(q, FillsOf(out), 0, side, px);
    FillQtyIsAllocated(out);
    CrossablePartial(b, side, floor, px, FilledAll(q, FillsOf(out)));
  }

  /**
   The floor of a budget sell binds: it is a limit order, or there is no floor, or it is
   fill-or-kill and keeps the makers its precheck counted.
   */
  predicate FloorBinds(r: Rules, o: Order) {
    o.orderType.Limit? || o.price == 0 || (o.tif.FokBudget? && !(Prevents(r.policy, o.user) && r.policy.CancelMaker?))
  }

  /** Every trade at the floor or better earns the budget. */
  lemma FloorEarns(ts: seq<Trade>, budget: Price, quantity: Qty)
    requires quantity > 0 && Traded(ts) == quantity
    requires forall k :: 0 <= k < |ts| ==> ts[k].price >= FloorPrice(budget, quantity)
    ensures Spent(ts) >= budget
  {
    hide Spent, Traded, FloorPrice, Notional;
    SpentAtLeast(ts, FloorPrice(budget, quantity));
    FloorPriceCovers(budget, quantity);
  }

  lemma FokSellEarns(r: Rules, b: Book, o: Order)
    requires Sound(b) && Lawful(r.strategy) && BudgetFits(o) && o.tif.FokBudget? && o.side.Sell? && o.quantity > 0
    requires FloorBinds(r, o) && o.orderType.Market? && o.price > 0 && Submit(r, b, o).1.status.WhollyFilled?
    ensures Spent(Submit(r, b, o).1.trades) >= o.price
  {
    hide Sound, Lawful, Cross, Spent, Joined, BudgetCovers, CrossableLots, FloorPrice, Traded;
    var t := Ticketed(b, o, r.now);
    var c := Cross(r, b, t.order, t.budget);
    CrossConserves(r, b, t.order, t.budget);
    forall k | 0 <= k < |c.trades| ensures c.trades[k].price >= t.order.price {
      TradesWithin(r, b, t.order, t.budget, t.order.price, k);
    }
    FloorEarns(c.trades, o.price, o.quantity);
  }

  /** A budget buy spends at most its budget; a budget sell that fills under a binding floor earns its budget. */
  lemma BudgetsHold(r: Rules, b: Book, o: Order)
    requires Sound(b) && Lawful(r.strategy) && BudgetFits(o) && Budgeted(o.tif)
    ensures var rep := Submit(r, b, o).1;
            && (o.side.Buy? ==> Spent(rep.trades) <= o.price)
            && (o.side.Sell? && o.quantity > 0 && FloorBinds(r, o) && rep.status.WhollyFilled? ==>
                  Spent(rep.trades) >= o.price)
  {
    hide Sound, Lawful, Cross, Spent, Joined, BudgetCovers, CrossableLots, FloorPrice;
    var t := Ticketed(b, o, r.now);
    NoTrades();
    if t.admitted {
      CrossConserves(r, b, t.order, t.budget);
      if o.side.Sell? && o.quantity > 0 && FloorBinds(r, o) && Submit(r, b, o).1.status.WhollyFilled? {
        if o.orderType.Limit? {
          BudgetSellEarns(r, b, t.order, t.budget, o.price);
        } else if o.price > 0 {
          FokSellEarns(r, b, o);
        }
      }
    }
  }

  /** `lots` bid at price 0 by nobody. */
  ghost function FreeBid(lots: Qty): Book {
    Book(map[0 := [Order(1, 0, 0, Buy, Limit, Gtc, 0, lots, lots, 1)]], map[])
  }

  /** The same, behind as many lots of `user` at `floor`. */
  ghost function OwnAndFreeBid(user: User, floor: Price, lots: Qty): Book {
    Book(map[0 := [Order(1, 0, 0, Buy, Limit, Gtc, 0, lots, lots, 1)],
             floor := [Order(2, 0, user, Buy, Limit, Gtc, floor, lots, lots, 2)]], map[])
  }

  lemma FreeBidIs(lots: Qty)
    requires lots > 0
    ensures var b := FreeBid(lots);
            Sound(b) && CrossableLots(b, Buy, 0) == lots && forall m :: Rests(b, m) ==> m.user == 0 && m.price == 0
  {
    var b := FreeBid(lots);
    var bid := b.bids[0][0];
    assert forall side, p :: Queue(b, side, p) == [bid] || Queue(b, side, p) == [];
    assert Queue(b, Buy, 0) == [bid] && Total([bid]) == lots && bid in [bid];
    BestIs(b, Buy, 0);
  }

  lemma OwnAndFreeQueues(user: User, floor: Price, lots: Qty, side: Side, p: Price)
    requires floor > 0
    ensures var b := OwnAndFreeBid(user, floor, lots);
            Queue(b, side, p) == if side.Buy? && (p == 0 || p == floor) then b.bids[p] else []
  {}

  lemma TotalOfOne(o: Order)
    ensures Total([o]) == o.remaining
  {
    assert [o][0] == o && [o][1..] == [];
  }

  lemma OwnAndFreeIsSound(user: User, floor: Price, lots: Qty)
    requires lots > 0 && floor > 0
    ensures Sound(OwnAndFreeBid(user, floor, lots))
  {
    hide Queue;
    var b := OwnAndFreeBid(user, floor, lots);
    var free, own := b.bids[0][0], b.bids[floor][0];
    TotalOfOne(free);
    TotalOfOne(own);
    forall side, p ensures Queue(b, side, p) == [] || Queue(b, side, p) == [free] || Queue(b, side, p) == [own] {
      OwnAndFreeQueues(user, floor, lots, side, p);
    }
    forall side, p | p in Levels(b, side) ensures Queue(b, side, p) != [] && GoodQueue(Queue(b, side, p), side, p) {
      OwnAndFreeQueues(user, floor, lots, side, p);
    }
  }

  lemma OwnAndFreeBidIs(user: User, floor: Price, lots: Qty)
    requires lots > 0 && floor > 0 && user != 0
    ensures var b := OwnAndFreeBid(user, floor, lots);
            Sound(b) && CrossableLots(b, Buy, floor) >= lots && WithoutUser(b, Buy, user) == FreeBid(lots)
  {
    hide Sound;
    var b := OwnAndFreeBid(user, floor, lots);
    var free, own := b.bids[0][0], b.bids[floor][0];
    OwnAndFreeIsSound(user, floor, lots);
    OnlyOwn(own, user);
    BestIs(b, Buy, floor);
    assert Others([free], user) == [free] by {
      assert [free][0] == free && [free][1..] == [];
    }
    assert WithoutUser(b, Buy, user).bids == FreeBid(lots).bids;
  }

  /** What a market sell finds at price 0 earns it nothing. */
  lemma FreeSale(r: Rules, o: Order)
    requires Lawful(r.strategy) && o.side.Sell? && o.orderType.Market? && o.remaining > 0
    ensures Sound(FreeBid(o.remaining))
    ensures var c := Cross(r, FreeBid(o.remaining), o, U128_MAX); !c.stopped && c.remaining == 0 && Spent(c.trades) == 0
  {
    hide Lawful, Sound, Cross, Spent, Ample, FreeBid, Rests, CrossableLots;
    var b := FreeBid(o.remaining);
    FreeBidIs(o.remaining);
    var c := Cross(r, b, o, U128_MAX);
    OrdinaryIsAmple(o.remaining);
    FillsWhatIsCrossable(r, b, o, U128_MAX);
    forall k | 0 <= k < |c.trades| ensures c.trades[k].price == 0 {
      TradesAreProper(r, b, o, U128_MAX, k);
    }
    FreeIsFree(c.trades);
  }

  /** A budget sell whose floor does not bind can fill at price 0 and earn nothing. */
  lemma MarketSellIgnoresFloor(r: Rules, o: Order) returns (b: Book)
    requires Lawful(r.strategy) && BudgetFits(o) && Budgeted(o.tif) && o.side.Sell? && o.quantity > 0
             && !FloorBinds(r, o)
    ensures Sound(b) && Submit(r, b, o).1.status.WhollyFilled? && Spent(Submit(r, b, o).1.trades) == 0
  {
    hide Lawful, Sound, Cross, Spent, Ample, FreeBid, OwnAndFreeBid, Joined, CrossableLots, WithoutUser, FloorPrice;
    var floor := FloorPrice(o.price, o.quantity);
    if o.tif.IocBudget? {
      b := FreeBid(o.quantity);
      FreeSale(r, Ticketed(b, o, r.now).order);
    } else {
      FloorPositive(o.price, o.quantity);
      FloorPriceFits(o.price, o.quantity);
      b := OwnAndFreeBid(o.user, floor, o.quantity);
      OwnAndFreeBidIs(o.user, floor, o.quantity);
      var t := Ticketed(b, o, r.now);
      OrdinaryIsAmple(o.quantity);
      CancelMakerIsAbsence(r, b, t.order, t.budget);
      FreeSale(Allowing(r), t.order);
    }
  }

  lemma FloorPositive(budget: Price, quantity: Qty)
    requires budget > 0 && quantity > 0
    ensures FloorPrice(budget, quantity) > 0
  {
    QuotientAtLeast(budget + quantity - 1, quantity, 1);
  }

  lemma {:induction false} FreeIsFree(ts: seq<Trade>)
    requires forall k :: 0 <= k < |ts| ==> ts[k].price == 0
    ensures Spent(ts) == 0
  {
    if ts != [] {
      FreeIsFree(ts[1..]);
    }
  }

  /** A budget sell is sure to earn its budget when it fills, on every book, exactly when its floor binds. */
  lemma BudgetSellExact(r: Rules, o: Order)
    requires Lawful(r.strategy) && BudgetFits(o) && Budgeted(o.tif) && o.side.Sell? && o.quantity > 0
    ensures (forall b ::
              Sound(b) && Submit(r, b, o).1.status.WhollyFilled? ==> Spent(Submit(r, b, o).1.trades) >= o.price)
            <==> FloorBinds(r, o)
  {
    hide Lawful, Submit, Sound, Spent;
    if FloorBinds(r, o) {
      forall b | Sound(b) && Submit(r, b, o).1.status.WhollyFilled? ensures Spent(Submit(r, b, o).1.trades) >= o.price {
        BudgetsHold(r, b, o);
      }
    } else {
      var b := MarketSellIgnoresFloor(r, o);
    }
  }

  // --- trades of a submission -------------------------------------------------------------------------

  /**
   Every trade of a submission prints at a resting maker's price within the limit, best price
   first and never while a better level rests, and is no prevented self-trade; each maker's
   lots fall by exactly what it traded.
   */
  lemma SubmissionTrades(r: Rules, b: Book, o: Order, p: Price, maker: OrderId)
    requires Sound(b) && Lawful(r.strategy) && BudgetFits(o)
    ensures var (b', rep) := Submit(r, b, o);
            var t, side := Ticketed(b, o, r.now).order, o.side.Opposite();
            && BestFirstTrades(b, b', side, rep.trades)
            && (forall k :: 0 <= k < |rep.trades| ==> ProperTrade(r, b, t, rep.trades[k]))
            && (maker !in rep.pulled ==>
                  LotsAt(b', side, p, maker) + TradedWith(rep.trades, p, maker) == LotsAt(b, side, p, maker))
            && (maker in rep.pulled ==> LotsAt(b', side, p, maker) == 0)
  {
    hide Sound, Lawful, Cross, WithQueue, BudgetCovers, CrossableLots, FloorPrice, LotsAt, TradedWith, ProperTrade,
      BestFirstTrades;
    var t := Ticketed(b, o, r.now);
    var side := o.side.Opposite();
    if t.admitted {
      var c := Cross(r, b, t.order, t.budget);
      PricePriority(r, b, t.order, t.budget);
      forall k | 0 <= k < |c.trades| ensures ProperTrade(r, b, t.order, c.trades[k]) {
        TradesAreProper(r, b, t.order, t.budget, k);
      }
      MakersConserve(r, b, t.order, t.budget, p, maker);
      RestedElsewhere(c.book, t.order.(remaining := c.remaining), side, p, maker);
      BestFirstElsewhere(b, c.book, t.order.(remaining := c.remaining), side, c.trades);
    } else {
      NoTrades();
      NoTradesYet(b, b, side);
    }
  }

  lemma RestedElsewhere(b: Book, o: Order, side: Side, p: Price, id: OrderId)
    requires side == o.side.Opposite()
    ensures LotsAt(Joined(b, o), side, p, id) == LotsAt(b, side, p, id)
  {
    hide WithQueue;
    QueueWithQueue(b, o.side, o.price, Queue(b, o.side, o.price) + [o], side, p);
  }

  lemma BestFirstElsewhere(b: Book, b': Book, o: Order, side: Side, ts: seq<Trade>)
    requires side == o.side.Opposite() && BestFirstTrades(b, b', side, ts)
    ensures BestFirstTrades(b, Joined(b', o), side, ts)
  {
    hide Queue, Better;
    OtherSideStays(b', o.side, o.price, Queue(b', o.side, o.price) + [o]);
  }

  // --- places in the queue --------------------------------------------------------------------------------

  lemma {:induction false} SetRemainingInPlace(q: seq<Order>, i: nat, r: Qty)
    requires i < |q| && r > 0 && forall j :: 0 <= j < i ==> q[j].id != q[i].id
    ensures SetRemaining(q, q[i].id, r) == q[i := q[i].(remaining := r)]
  {
    if i > 0 {
      assert q[0].id != q[i].id;
      SetRemainingInPlace(q[1..], i - 1, r);
      assert q[1..][i - 1] == q[i];
    }
  }

  /** A reduction in place keeps the order's position and touches nothing else of its queue. */
  lemma ReductionKeepsPlace(b: Book, side: Side, p: Price, i: nat, qty: Qty)
    requires Sound(b) && i < |Queue(b, side, p)| && 0 < qty <= Queue(b, side, p)[i].remaining
    ensures var q := Queue(b, side, p);
            Queue(Reduced(b, q[i], qty), side, p) == q[i := q[i].(remaining := qty)]
  {
    hide WithQueue, SetRemaining, IdsUnique, Fitting;
    var q := Queue(b, side, p);
    GoodAt(b, side, p);
    SetRemainingInPlace(q, i, qty);
    QueueWithQueue(b, side, p, SetRemaining(q, q[i].id, qty), side, p);
  }

  /**
   What rests of a submitted or requoted order goes to the back of its queue, behind orders
   that are all older, and carries the newest stamp.
   */
  lemma RestsAtBack(s: Setup, e: Engine, o: Order)
    requires EngineInv(e) && Lawful(s.strategy) && e.clock < U64_MAX && Acceptable(e.book, o)
    ensures var (b', rep) := Submit(RulesAt(s, e.clock + 1), e.book, o);
            rep.resting ==>
              && o.quantity - rep.filled > 0
              && var rest := o.(timestamp := e.clock + 1, remaining := o.quantity - rep.filled);
              && Queue(b', o.side, o.price) == Queue(e.book, o.side, o.price) + [rest]
              && forall i :: 0 <= i < |Queue(e.book, o.side, o.price)| ==>
                               Queue(e.book, o.side, o.price)[i].timestamp < rest.timestamp
  {
    hide GoodBook, IdsUnique, Fitting, Lawful, Cross, WithQueue, Uncrossed, TimeOrdered, BudgetCovers, CrossableLots,
      FloorPrice, Rests, HasId, RoomFor;
    var r := RulesAt(s, e.clock + 1);
    var t := Ticketed(e.book, o, r.now);
    if t.admitted && MayRest(t.order) {
      var c := Cross(r, e.book, t.order, t.budget);
      CrossConserves(r, e.book, t.order, t.budget);
      var q := Queue(e.book, o.side, o.price);
      assert Queue(c.book, o.side, o.price) == q;
      QueueWithQueue(c.book, o.side, o.price, q + [t.order.(remaining := c.remaining)], o.side, o.price);
      forall i | 0 <= i < |q| ensures q[i].timestamp < e.clock + 1 {
        RestsAt(e.book, o.side, o.price, q[i]);
      }
    }
  }
}
