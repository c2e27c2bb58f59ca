/** What every run of the crossing loop keeps, for every lawful strategy and every policy. */
module Crossings {
  import opened Types
  import opened Books
  import opened Queues
  import opened Strategies
  import opened Matching

  // --- conservation of quantity and of budget ------------------------------------------------------

  function Traded(ts: seq<Trade>): nat {
    if ts == [] then 0 else ts[0].quantity + Traded(ts[1..])
  }

  function Spent(ts: seq<Trade>): nat {
    if ts == [] then 0 else Notional(ts[0].price, ts[0].quantity) + Spent(ts[1..])
  }

  /** Lots traded with one maker at one price. */
  function TradedWith(ts: seq<Trade>, p: Price, maker: OrderId): nat {
    if ts == [] then 0
    else (if ts[0].maker == maker && ts[0].price == p then ts[0].quantity else 0) + TradedWith(ts[1..], p, maker)
  }

  lemma {:induction false} TradedConcat(a: seq<Trade>, b: seq<Trade>, p: Price, maker: OrderId)
    ensures Traded(a + b) == Traded(a) + Traded(b)
    ensures Spent(a + b) == Spent(a) + Spent(b)
    ensures TradedWith(a + b, p, maker) == TradedWith(a, p, maker) + TradedWith(b, p, maker)
  {
    hide Notional;
    if a == [] {
      assert a + b == b;
    } else {
      assert (a + b)[1..] == a[1..] + b;
      TradedConcat(a[1..], b, p, maker);
    }
  }

  lemma {:induction false} TradesAddUp(r: Rules, o: Order, px: Price, v: seq<Order>, out: seq<Allocation>,
                                       p: Price, maker: OrderId)
    ensures var ts := TradesOf(r, o, px, v, out);
            && Traded(ts) == Allocated(out)
            && Spent(ts) == Notional(px, Allocated(out))
            && TradedWith(ts, p, maker) == if p == px then FillQtyOf(FillsOf(out), maker) else 0
  {
    if out != [] {
      TradesAddUp(r, o, px, v, out[1..], p, maker);
      assert TradesOf(r, o, px, v, out)[1..] == TradesOf(r, o, px, v, out[1..]);
      assert FillsOf(out)[1..] == FillsOf(out[1..]);
      NotionalAdds(px, out[0].qty, Allocated(out[1..]));
    }
  }

  lemma NotionalAdds(px: nat, a: nat, b: nat)
    ensures Notional(px, a + b) == Notional(px, a) + Notional(px, b)
  {}

  lemma OtherSideStays(b: Book, side: Side, p: Price, q: seq<Order>)
    ensures Levels(WithQueue(b, side, p, q), side.Opposite()) == Levels(b, side.Opposite())
  {}

  lemma FillsRoundTotals(r: Rules, b: Book, o: Order, budget: nat)
    requires OneRound(r, b, o, budget).Fills?
    ensures var rd := OneRound(r, b, o, budget);
            && Traded(rd.trades) + rd.remaining == o.remaining
            && Spent(rd.trades) + rd.budget == budget
  {
    hide Best, WithQueue, FilledAll, Capped, Notional;
    var v, out := ShownLevel(r, b, o, budget), Answer(r, b, o, budget);
    TradesAddUp(r, o, Best(b, o.side.Opposite()).value, v, out, 0, 0);
  }

  lemma RoundKeepsOwnSide(r: Rules, b: Book, o: Order, budget: nat)
    ensures var rd := OneRound(r, b, o, budget); !rd.Halt? ==> Levels(rd.book, o.side) == Levels(b, o.side)
  {
    hide Best, WithQueue, FilledAll, Capped, Pulled;
    var rd := OneRound(r, b, o, budget);
    var side := o.side.Opposite();
    if !rd.Halt? {
      var px, q := Best(b, side).value, Level(b, o);
      OtherSideStays(b, side, px, Pulled(q, OwnIds(ShownLevel(r, b, o, budget), o.user)));
      OtherSideStays(b, side, px, FilledAll(q, FillsOf(Answer(r, b, o, budget))));
    }
  }

  /** Lots: traded plus left is what came in; notional: spent plus left is the budget. */
  lemma {:induction false} CrossConserves(r: Rules, b: Book, o: Order, budget: nat)
    requires Sound(b) && Lawful(r.strategy)
    ensures var c := Cross(r, b, o, budget);
            && Sound(c.book)
            && Traded(c.trades) + c.remaining == o.remaining
            && Spent(c.trades) + c.budget == budget
            && Levels(c.book, o.side) == Levels(b, o.side)
    decreases o.remaining, |Resting(b)|
  {
    hide Sound, Lawful, OneRound, Resting, Traded, Spent, Levels;
    RoundProgress(r, b, o, budget);
    RoundKeepsOwnSide(r, b, o, budget);
    NoTrades();
    match OneRound(r, b, o, budget)
    case Halt =>
    case StopTaker(b', ids) =>
    case Pull(b', ids) =>
      CrossConserves(r, b', o, budget);
    case Fills(b', remaining, budget', ts) =>
      FillsRoundTotals(r, b, o, budget);
      CrossConserves(r, b', o.(remaining := remaining), budget');
      TradedConcat(ts, Cross(r, b', o.(remaining := remaining), budget').trades, 0, 0);
  }

  lemma NoTrades()
    ensures Traded([]) == 0 && Spent([]) == 0 && forall p, id :: TradedWith([], p, id) == 0
  {}

  // --- what the makers give ----------------------------------------------------------------------------

  /** Lots order `id` has at one price of the side being hit. */
  ghost function LotsAt(b: Book, side: Side, p: Price, id: OrderId): Qty {
    Lots(Queue(b, side, p), id)
  }

  lemma FillsRoundLots(r: Rules, b: Book, o: Order, budget: nat, p: Price, id: OrderId)
    requires Sound(b) && Lawful(r.strategy) && OneRound(r, b, o, budget).Fills?
    ensures var rd := OneRound(r, b, o, budget);
            LotsAt(rd.book, o.side.Opposite(), p, id) + TradedWith(rd.trades, p, id) ==
              LotsAt(b, o.side.Opposite(), p, id)
  {
    hide Best, Sound, Lawful, WithQueue, FilledAll, Capped, Lots, TradedWith, FillQtyOf, Honours, FillsFit, GoodQueue,
      Total, Allocated;
    TradingRound(r, b, o, budget);
    var side := o.side.Opposite();
    var px, q, out := Best(b, side).value, Level(b, o), Answer(r, b, o, budget);
    TradesAddUp(r, o, px, ShownLevel(r, b, o, budget), out, p, id);
    QueueWithQueue(b, side, px, FilledAll(q, FillsOf(out)), side, p);
    ShownIsFront(r, b, o, budget);
    FilledAllLots(q, FillsOf(out), id, side, px);
  }

  /** A queue after own orders were pulled from the book's best level. */
  lemma PullRoundLots(r: Rules, b: Book, o: Order, budget: nat, p: Price, id: OrderId)
    requires Sound(b) && (OneRound(r, b, o, budget).Pull? || OneRound(r, b, o, budget).StopTaker?)
    ensures var rd := OneRound(r, b, o, budget);
            LotsAt(rd.book, o.side.Opposite(), p, id) ==
              if id in rd.pulled then 0 else LotsAt(b, o.side.Opposite(), p, id)
  {
    hide Best, Sound, WithQueue, Pulled, Capped, Lots, GoodQueue, Total, Positive, TotalSeen;
    if OneRound(r, b, o, budget).pulled != [] {
      var side := o.side.Opposite();
      var px, q, v := Best(b, side).value, Level(b, o), ShownLevel(r, b, o, budget);
      var ids := OwnIds(v, o.user);
      ShownIsFront(r, b, o, budget);
      QueueWithQueue(b, side, px, Pulled(q, ids), side, p);
      if p == px {
        PulledLots(q, ids, id, side, px);
      } else if id in ids {
        OwnIdsAre(v, o.user, id);
        var i :| 0 <= i < |v| && v[i].user == o.user && v[i].id == id;
        assert q[i] == v[i] && q[i] in q;
        OnePlace(b, side, px, p, q[i]);
      }
    } else {
      WithSameQueueOrSame(r, b, o, budget);
    }
  }

  lemma WithSameQueueOrSame(r: Rules, b: Book, o: Order, budget: nat)
    requires Sound(b) && (OneRound(r, b, o, budget).Pull? || OneRound(r, b, o, budget).StopTaker?)
    requires OneRound(r, b, o, budget).pulled == []
    ensures OneRound(r, b, o, budget).book == b
  {
    hide Best, Capped, IdsUnique, Fitting, GoodQueue;
    WithSameQueue(b, o.side.Opposite(), Best(b, o.side.Opposite()).value);
  }

  /** An id lives at one price only. */
  lemma OnePlace(b: Book, side: Side, p: Price, p': Price, o: Order)
    requires Sound(b) && o in Queue(b, side, p) && p' != p
    ensures Lots(Queue(b, side, p'), o.id) == 0
  {
    hide Lots, Fitting;
    if Lots(Queue(b, side, p'), o.id) > 0 {
      LotsFound(Queue(b, side, p'), o.id);
      var o' :| o' in Queue(b, side, p') && o'.id == o.id;
      RestsAt(b, side, p, o);
      RestsAt(b, side, p', o');
      assert false;
    }
  }

  /** Makers lose exactly what was traded with them, or were pulled by self-trade prevention. */
  lemma {:induction false} MakersConserve(r: Rules, b: Book, o: Order, budget: nat, p: Price, id: OrderId)
    requires Sound(b) && Lawful(r.strategy)
    ensures var c, side := Cross(r, b, o, budget), o.side.Opposite();
            && (id !in c.pulled ==> LotsAt(c.book, side, p, id) + TradedWith(c.trades, p, id) == LotsAt(b, side, p, id))
            && (id in c.pulled ==>
              LotsAt(c.book, side, p, id) == 0 && TradedWith(c.trades, p, id) <= LotsAt(b, side, p, id))
    decreases o.remaining, |Resting(b)|
  {
    hide Sound, Lawful, OneRound, Resting, TradedWith, LotsAt;
    RoundProgress(r, b, o, budget);
    NoTrades();
    match OneRound(r, b, o, budget)
    case Halt =>
    case StopTaker(b', ids) =>
      PullRoundLots(r, b, o, budget, p, id);
    case Pull(b', ids) =>
      PullRoundLots(r, b, o, budget, p, id);
      MakersConserve(r, b', o, budget, p, id);
    case Fills(b', remaining, budget', ts) =>
      FillsRoundLots(r, b, o, budget, p, id);
      MakersConserve(r, b', o.(remaining := remaining), budget', p, id);
      TradedConcat(ts, Cross(r, b', o.(remaining := remaining), budget').trades, p, id);
  }

  // --- each trade --------------------------------------------------------------------------------------

  /** `m` is the maker of trade `t`: resting on the side hit, at the traded price. */
  ghost predicate MakerOf(b: Book, o: Order, t: Trade, m: Order) {
    && Rests(b, m) && m.side == o.side.Opposite() && m.price == t.price
    && m.id == t.maker && m.user == t.makerUser && t.quantity <= m.remaining
  }

  /** A trade prints at its maker's price, within the taker's limit, and is no prevented self-trade. */
  ghost predicate ProperTrade(r: Rules, b: Book, o: Order, t: Trade) {
    && t.taker == o.id && t.aggressor == o.side && t.takerUser == o.user && t.timestamp == r.now
    && t.quantity > 0 && Crosses(o, t.price)
    && (exists m :: MakerOf(b, o, t, m))
    && (Prevents(r.policy, o.user) ==> t.makerUser != o.user)
  }

  lemma FillsRoundTrades(r: Rules, b: Book, o: Order, budget: nat, k: nat)
    requires Sound(b) && Lawful(r.strategy) && OneRound(r, b, o, budget).Fills?
    requires k < |OneRound(r, b, o, budget).trades|
    ensures ProperTrade(r, b, o, OneRound(r, b, o, budget).trades[k])
  {
    hide Best, Sound, Lawful, WithQueue, FilledAll, Capped, Lots, FillsFit, Total, Allocated, TotalSeen, GoodBook;
    TradingRound(r, b, o, budget);
    ShownIsFront(r, b, o, budget);
    var side := o.side.Opposite();
    var px, q, v, out := Best(b, side).value, Level(b, o), ShownLevel(r, b, o, budget), Answer(r, b, o, budget);
    var t := OneRound(r, b, o, budget).trades[k];
    assert WithinOrder(SeenAll(v), out[k]);
    var m := v[out[k].idx];
    assert m == q[out[k].idx] && m in q;
    assert m.side == side && m.price == px;
    assert Rests(b, m);
    assert t == TradeOf(r, o, px, v, out[k]);
    assert MakerOf(b, o, t, m);
  }

  lemma RoundLowers(r: Rules, b: Book, o: Order, budget: nat, m: Order)
    requires Sound(b) && Lawful(r.strategy) && !OneRound(r, b, o, budget).Halt?
    requires Rests(OneRound(r, b, o, budget).book, m)
    ensures exists m0 :: Rests(b, m0) && m0.(remaining := m.remaining) == m && m.remaining <= m0.remaining
  {
    hide Best, Sound, Lawful, WithQueue, FilledAll, Capped, Pulled, Lowered, Rests;
    var side := o.side.Opposite();
    var rd, px, q := OneRound(r, b, o, budget), Best(b, side).value, Level(b, o);
    if rd.Fills? {
      var q' := FilledAll(q, FillsOf(Answer(r, b, o, budget)));
      FilledAllLowers(q, FillsOf(Answer(r, b, o, budget)), side, px);
      ResoundIds(b, side, px, q', m);
    } else if rd.book == b {
      assert m.(remaining := m.remaining) == m;
    } else {
      var ids := OwnIds(ShownLevel(r, b, o, budget), o.user);
      PulledLowers(q, ids, side, px);
      ResoundIds(b, side, px, Pulled(q, ids), m);
    }
  }

  lemma ProperEarlier(r: Rules, b: Book, o: Order, budget: nat, o': Order, t: Trade)
    requires Sound(b) && Lawful(r.strategy) && !OneRound(r, b, o, budget).Halt?
    requires o' == o.(remaining := o'.remaining) && ProperTrade(r, OneRound(r, b, o, budget).book, o', t)
    ensures ProperTrade(r, b, o, t)
  {
    hide Sound, Lawful, OneRound, Rests;
    var m :| MakerOf(OneRound(r, b, o, budget).book, o', t, m);
    RoundLowers(r, b, o, budget, m);
    var m0 :| Rests(b, m0) && m0.(remaining := m.remaining) == m && m.remaining <= m0.remaining;
    assert MakerOf(b, o, t, m0);
  }

  /** Every trade of a run is proper. */
  lemma {:induction false} TradesAreProper(r: Rules, b: Book, o: Order, budget: nat, k: nat)
    requires Sound(b) && Lawful(r.strategy) && k < |Cross(r, b, o, budget).trades|
    ensures ProperTrade(r, b, o, Cross(r, b, o, budget).trades[k])
    decreases o.remaining, |Resting(b)|
  {
    hide Sound, Lawful, OneRound, Resting, ProperTrade;
    RoundProgress(r, b, o, budget);
    match OneRound(r, b, o, budget)
    case Halt =>
    case StopTaker(b', ids) =>
    case Pull(b', ids) =>
      TradesAreProper(r, b', o, budget, k);
      ProperEarlier(r, b, o, budget, o, Cross(r, b, o, budget).trades[k]);
    case Fills(b', remaining, budget', ts) =>
      if k < |ts| {
        FillsRoundTrades(r, b, o, budget, k);
      } else {
        var o' := o.(remaining := remaining);
        TradesAreProper(r, b', o', budget', k - |ts|);
        ProperEarlier(r, b, o, budget, o', Cross(r, b, o, budget).trades[k]);
      }
  }

  // --- price priority --------------------------------------------------------------------------------------

  /** A round trades at the best price only, and no level appears. */
  lemma RoundPrices(r: Rules, b: Book, o: Order, budget: nat)
    requires !OneRound(r, b, o, budget).Halt?
    ensures var rd, side := OneRound(r, b, o, budget), o.side.Opposite();
            && Best(b, side).Some?
            && (forall p :: p in Levels(rd.book, side) ==> p in Levels(b, side))
            && (rd.Fills? ==> forall k :: 0 <= k < |rd.trades| ==> rd.trades[k].price == Best(b, side).value)
  {
    hide Best, FilledAll, Capped, Pulled;
  }

  /** Trades in price order, with no better level left resting. */
  ghost predicate BestFirstTrades(b: Book, b': Book, side: Side, ts: seq<Trade>) {
    && (forall p :: p in Levels(b', side) ==> p in Levels(b, side))
    && (forall k :: 0 <= k < |ts| ==> ts[k].price in Levels(b, side))
    && (forall i, k :: 0 <= i < k < |ts| ==> !Better(side, ts[k].price, ts[i].price))
    && (forall k, p :: 0 <= k < |ts| && p in Levels(b', side) ==> !Better(side, p, ts[k].price))
  }

  lemma TradesAtBest(b: Book, b1: Book, b': Book, side: Side, ts: seq<Trade>, rest: seq<Trade>)
    requires Best(b, side).Some? && forall p :: p in Levels(b1, side) ==> p in Levels(b, side)
    requires forall k :: 0 <= k < |ts| ==> ts[k].price == Best(b, side).value
    requires BestFirstTrades(b1, b', side, rest)
    ensures BestFirstTrades(b, b', side, ts + rest)
  {
    BestIsBest(b, side);
    hide Best, Better;
    var all := ts + rest;
    forall k | 0 <= k < |all| ensures all[k].price in Levels(b, side) {
      assert k >= |ts| ==> all[k] == rest[k - |ts|];
    }
    forall i, k | 0 <= i < k < |all| ensures !Better(side, all[k].price, all[i].price) {
      assert all[k].price in Levels(b, side);
      assert i >= |ts| ==> all[i] == rest[i - |ts|] && all[k] == rest[k - |ts|];
    }
    forall k, p | 0 <= k < |all| && p in Levels(b', side) ensures !Better(side, p, all[k].price) {
      assert k >= |ts| ==> all[k] == rest[k - |ts|];
    }
  }

  /**
   Price priority: a run takes levels best first and never trades at a price while a better
   one is left resting.
   */
  lemma {:induction false} PricePriority(r: Rules, b: Book, o: Order, budget: nat)
    requires Sound(b) && Lawful(r.strategy)
    ensures var c := Cross(r, b, o, budget); BestFirstTrades(b, c.book, o.side.Opposite(), c.trades)
    decreases o.remaining, |Resting(b)|
  {
    hide Sound, Lawful, OneRound, Resting, BestFirstTrades, Best;
    RoundProgress(r, b, o, budget);
    var side := o.side.Opposite();
    match OneRound(r, b, o, budget)
    case Halt =>
      NoTradesYet(b, b, side);
    case StopTaker(b', ids) =>
      RoundPrices(r, b, o, budget);
      NoTradesYet(b, b', side);
    case Pull(b', ids) =>
      RoundPrices(r, b, o, budget);
      PricePriority(r, b', o, budget);
      var c := Cross(r, b', o, budget);
      TradesAtBest(b, b', c.book, side, [], c.trades);
      assert [] + c.trades == c.trades;
    case Fills(b', remaining, budget', ts) =>
      RoundPrices(r, b, o, budget);
      PricePriority(r, b', o.(remaining := remaining), budget');
      var c := Cross(r, b', o.(remaining := remaining), budget');
      TradesAtBest(b, b', c.book, side, ts, c.trades);
  }

  lemma NoTradesYet(b: Book, b': Book, side: Side)
    requires forall p :: p in Levels(b', side) ==> p in Levels(b, side)
    ensures BestFirstTrades(b, b', side, [])
  {}

  lemma BestIsBest(b: Book, side: Side)
    requires Best(b, side).Some?
    ensures Best(b, side).value in Levels(b, side)
    ensures forall p :: p in Levels(b, side) ==> !Better(side, p, Best(b, side).value)
    ensures !Better(side, Best(b, side).value, Best(b, side).value)
  {}

  // --- why a run ends ----------------------------------------------------------------------------------------

  /** A run that is not stopped ends filled, or the best level left is out of limit or out of budget. */
  lemma {:induction false} CrossEnds(r: Rules, b: Book, o: Order, budget: nat)
    requires Sound(b) && Lawful(r.strategy)
    ensures var c := Cross(r, b, o, budget);
            var best := Best(c.book, o.side.Opposite());
            !c.stopped ==>
              c.remaining == 0 || best.None? || !Crosses(o, best.value)
              || Affordable(c.budget, best.value, c.remaining) == 0
    decreases o.remaining, |Resting(b)|
  {
    hide Sound, Lawful, OneRound, Resting, Best, Affordable;
    RoundProgress(r, b, o, budget);
    match OneRound(r, b, o, budget)
    case Halt =>
      HaltMeans(r, b, o, budget);
    case StopTaker(b', ids) =>
    case Pull(b', ids) =>
      CrossEnds(r, b', o, budget);
    case Fills(b', remaining, budget', ts) =>
      CrossEnds(r, b', o.(remaining := remaining), budget');
  }

  lemma HaltMeans(r: Rules, b: Book, o: Order, budget: nat)
    requires Sound(b) && Lawful(r.strategy) && OneRound(r, b, o, budget).Halt?
    ensures var best := Best(b, o.side.Opposite());
            o.remaining == 0 || best.None? || !Crosses(o, best.value)
            || Affordable(budget, best.value, o.remaining) == 0
  {
    hide Best, Sound, Capped, Total, TotalSeen, GoodQueue, Within, DistinctMakers;
    if Best(b, o.side.Opposite()).Some? && Wanted(r, b, o, budget) > 0 {
      ShownIsFront(r, b, o, budget);
      var v, n, out := ShownLevel(r, b, o, budget), Wanted(r, b, o, budget), Answer(r, b, o, budget);
      assert Honours(SeenAll(v), n, out);
      AllocatedTotals(Level(b, o), v, n, out);
    }
  }

  /** Without prevention nothing is pulled and the taker is never stopped. */
  lemma {:induction false} NothingPulled(r: Rules, b: Book, o: Order, budget: nat)
    requires Sound(b) && Lawful(r.strategy) && !Prevents(r.policy, o.user)
    ensures var c := Cross(r, b, o, budget); c.pulled == [] && !c.stopped
    decreases o.remaining, |Resting(b)|
  {
    hide Sound, Lawful, Resting, Best, WithQueue, FilledAll, Capped;
    RoundProgress(r, b, o, budget);
    match OneRound(r, b, o, budget)
    case Halt =>
    case Fills(b', remaining, budget', ts) =>
      NothingPulled(r, b', o.(remaining := remaining), budget');
  }
}
