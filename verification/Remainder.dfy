/** What becomes of an order's lots: traded, resting at its price, or dropped, and exactly when. */
module Remainders {
  import opened Types
  import opened Books
  import opened Strategies
  import opened Matching
  import opened Crossings
  import opened Prechecks
  import opened SelfTrades
  import opened Submissions
  import opened Outcomes

  /** Self-trade prevention stops the order: an own maker lies within its limit, too few lots ahead of it. */
  ghost predicate Stops(r: Rules, b: Book, o: Order) {
    var side, limit := o.side.Opposite(), EffectiveLimit(o);
    var ahead := LotsAhead(r.strategy, b, side, limit, o.user);
    Prevents(r.policy, o.user) && !r.policy.CancelMaker? && ahead < o.quantity && ahead < CrossableLots(b, side, limit)
  }

  /**
   The lots an order without a budget takes, read off the book before it is sent: nothing for a
   fill-or-kill that fails its precheck; the levels ahead of its first own maker when it is stopped;
   else what is crossable up to its quantity, own makers left out where they give way.
   */
  ghost function Takes(r: Rules, b: Book, o: Order): nat {
    var side, limit := o.side.Opposite(), EffectiveLimit(o);
    if o.tif.Fok? && CrossableLots(b, side, o.price) < o.quantity then 0
    else if Stops(r, b, o) then LotsAhead(ByLevel(r.strategy), b, side, limit, o.user)
    else
      var own := Prevents(r.policy, o.user) && r.policy.CancelMaker?;
      Min(o.quantity, CrossableLots(if own then WithoutUser(b, side, o.user) else b, side, limit))
  }

  /** The crossing of an ordinary order: when it is stopped, and how much it takes. */
  lemma CrossedExactly(r: Rules, b: Book, o: Order)
    requires Sound(b) && Lawful(r.strategy) && o.remaining == o.quantity
    requires o.tif.Fok? ==> CrossableLots(b, o.side.Opposite(), o.price) >= o.quantity
    ensures var c := Cross(r, b, o, U128_MAX);
            (c.stopped <==> Stops(r, b, o)) && o.quantity - c.remaining == Takes(r, b, o)
  {
    hide Sound, Lawful, Cross, Ample, CrossableLots, LotsAhead, WithoutUser, EffectiveLimit;
    var side := o.side.Opposite();
    OrdinaryIsAmple(o.quantity);
    if !Prevents(r.policy, o.user) {
      FillsWhatIsCrossable(r, b, o, U128_MAX);
    } else if r.policy.CancelMaker? {
      CancelMakerIsAbsence(r, b, o, U128_MAX);
      FillsWhatIsCrossable(Allowing(r), WithoutUser(b, side, o.user), o, U128_MAX);
    } else {
      StoppedExactly(r, b, o, U128_MAX);
      if Cross(r, b, o, U128_MAX).stopped {
        StoppedTrades(r, b, o, U128_MAX);
      } else {
        NotStoppedIsAllowed(r, b, o, U128_MAX);
        FillsWhatIsCrossable(Allowing(r), b, o, U128_MAX);
      }
    }
  }

  lemma NoLotsOf(b: Book, side: Side, p: Price, id: OrderId)
    requires Sound(b) && !HasId(b, id)
    ensures LotsAt(b, side, p, id) == 0
  {
    hide IdsUnique, Fitting, HasId;
    NoSuchId(b, side, p, id);
    NotThere(Queue(b, side, p), id, 0);
  }

  /** What joins a book is on it at its own price only. */
  lemma JoinedLots(b: Book, o: Order, side: Side, p: Price)
    requires Sound(b) && !HasId(b, o.id)
    ensures LotsAt(Joined(b, o), side, p, o.id) == if side == o.side && p == o.price then o.remaining else 0
  {
    hide WithQueue, GoodBook, IdsUnique, Fitting, HasId, Lots;
    var q := Queue(b, o.side, o.price);
    QueueWithQueue(b, o.side, o.price, q + [o], side, p);
    NoLotsOf(b, side, p, o.id);
    NoSuchId(b, o.side, o.price, o.id);
    LotsAtBack(q, o);
  }

  /**
   Where the lots of an order go. A good-till-cancel limit rests, at its own price, exactly what it
   did not trade, unless self-trade prevention stops it: then what is left is dropped. No other order
   leaves anything on the book.
   */
  lemma RemainderRests(r: Rules, b: Book, o: Order, side: Side, p: Price)
    requires Sound(b) && Lawful(r.strategy) && BudgetFits(o) && !HasId(b, o.id)
    ensures var (b', rep) := Submit(r, b, o);
            LotsAt(b', side, p, o.id) ==
              if MayRest(o) && !Stops(r, b, o) && side == o.side && p == o.price then o.quantity - Traded(rep.trades)
              else 0
    ensures var (b', rep) := Submit(r, b, o);
            rep.resting <==> MayRest(o) && !Stops(r, b, o) && Traded(rep.trades) < o.quantity
  {
    hide Sound, Lawful, Cross, Joined, HasId, LotsAt, Traded, CrossableLots, BudgetCovers, FloorPrice, Stops;
    var t := Ticketed(b, o, r.now);
    NoLotsOf(b, side, p, o.id);
    if t.admitted {
      var c := Cross(r, b, t.order, t.budget);
      CrossConserves(r, b, t.order, t.budget);
      FreshAfterCross(r, b, t.order, t.budget);
      NoLotsOf(c.book, side, p, o.id);
      JoinedLots(c.book, t.order.(remaining := c.remaining), side, p);
      if MayRest(o) {
        CrossedExactly(r, b, t.order);
        StopsAlike(r, b, o, t.order);
      }
    } else {
      NoTrades();
    }
  }

  lemma StopsAlike(r: Rules, b: Book, o: Order, o': Order)
    requires o' == o.(timestamp := o'.timestamp, remaining := o'.remaining)
    ensures Stops(r, b, o) <==> Stops(r, b, o')
  {}

  /** How much an order trades, under every policy: exactly what the book shows beforehand. */
  lemma TradesWhatIsThere(r: Rules, b: Book, o: Order)
    requires Sound(b) && Lawful(r.strategy) && !Budgeted(o.tif)
    ensures Traded(Submit(r, b, o).1.trades) == Takes(r, b, o)
  {
    hide Sound, Lawful, Cross, Joined, Traded, CrossableLots, Takes, WithoutUser, EffectiveLimit, Stops;
    var t := Ticketed(b, o, r.now);
    TakesAlike(r, b, o, t.order);
    if t.admitted {
      CrossConserves(r, b, t.order, t.budget);
      CrossedExactly(r, b, t.order);
    } else {
      NoTrades();
      TakesNothing(r, b, o);
    }
  }

  lemma TakesAlike(r: Rules, b: Book, o: Order, o': Order)
    requires o' == o.(timestamp := o'.timestamp, remaining := o'.remaining)
    ensures Takes(r, b, o) == Takes(r, b, o')
  {
    hide CrossableLots, LotsAhead, WithoutUser;
  }

  lemma TakesNothing(r: Rules, b: Book, o: Order)
    requires o.tif.Fok? && CrossableLots(b, o.side.Opposite(), o.price) < o.quantity
    ensures Takes(r, b, o) == 0
  {
    hide CrossableLots, LotsAhead, WithoutUser, Stops;
  }

  /** Is the order refused before it trades: a fill-or-kill whose precheck fails. */
  ghost predicate Refuses(b: Book, o: Order)
    requires BudgetFits(o)
  {
    FloorPriceFitsIfBudgeted(o);
    var side := o.side.Opposite();
    match o.tif
    case Fok => CrossableLots(b, side, o.price) < o.quantity
    case FokBudget =>
      if o.side.Buy? then !BudgetCovers(b, side, o.quantity, o.price)
      else CrossableLots(b, side, FloorPrice(o.price, o.quantity)) < o.quantity
    case _ => false
  }

  /** The status of a submission, by what it traded and what rests. */
  lemma StatusMeans(r: Rules, b: Book, o: Order)
    requires Sound(b) && Lawful(r.strategy) && BudgetFits(o)
    ensures var rep := Submit(r, b, o).1;
            && rep.filled == Traded(rep.trades) <= o.quantity
            && rep.status ==
                 (if Refuses(b, o) then Rejected
                  else if Traded(rep.trades) == o.quantity then WhollyFilled
                  else if Traded(rep.trades) > 0 then PartiallyFilled
                  else if rep.resting then NowResting
                  else Cancelled)
  {
    hide Sound, Lawful, Cross, Joined, Traded, CrossableLots, BudgetCovers, FloorPrice;
    var t := Ticketed(b, o, r.now);
    FloorPriceFitsIfBudgeted(o);
    if t.admitted {
      CrossConserves(r, b, t.order, t.budget);
      StoppedHasLeft(r, b, t.order, t.budget);
    } else {
      NoTrades();
    }
  }

  /** An order takes no more than its quantity, and one that is stopped takes less. */
  lemma TakesAtMost(r: Rules, b: Book, o: Order)
    ensures Takes(r, b, o) <= o.quantity && (Stops(r, b, o) ==> Takes(r, b, o) < o.quantity)
  {
    hide CrossableLots;
    ByLevelIsLess(r.strategy, b, o.side.Opposite(), EffectiveLimit(o), o.user);
  }

  lemma {:induction false} ByLevelIsLess(s: Strategy, b: Book, side: Side, limit: Price, user: User)
    ensures LotsAhead(ByLevel(s), b, side, limit, user) <= LotsAhead(s, b, side, limit, user)
    decreases |Levels(b, side)|
  {
    hide Best, Without, HasOwn, Front, Better;
    var best := Best(b, side);
    if best.Some? && !Better(side, limit, best.value) {
      WithoutSmaller(b, side, best.value);
      ByLevelIsLess(s, Without(b, side, best.value), side, limit, user);
    }
  }

  // --- everybody else's orders ------------------------------------------------------------------------

  lemma LotsBesideOther(q: seq<Order>, o: Order, id: OrderId)
    requires id != o.id
    ensures Lots(q + [o], id) == Lots(q, id)
  {
    if q == [] {
      assert q + [o] == [o];
      assert [o][1..] == [];
    } else {
      LotsBesideOther(q[1..], o, id);
      assert (q + [o])[1..] == q[1..] + [o];
    }
  }

  lemma JoinedBeside(b: Book, o: Order, side: Side, p: Price, id: OrderId)
    requires id != o.id
    ensures LotsAt(Joined(b, o), side, p, id) == LotsAt(b, side, p, id)
  {
    hide WithQueue, Lots;
    var q := Queue(b, o.side, o.price);
    QueueWithQueue(b, o.side, o.price, q + [o], side, p);
    LotsBesideOther(q, o, id);
  }

  lemma RestingLots(b: Book, m: Order)
    requires Sound(b) && Rests(b, m)
    ensures LotsAt(b, m.side, m.price, m.id) == m.remaining
  {
    hide IdsUnique, Fitting, Lots;
    GoodAt(b, m.side, m.price);
    LotsOf(Queue(b, m.side, m.price), m);
  }

  lemma {:induction false} NeverTradedWith(ts: seq<Trade>, p: Price, maker: OrderId)
    requires forall k :: 0 <= k < |ts| ==> ts[k].maker != maker
    ensures TradedWith(ts, p, maker) == 0
  {
    if ts != [] {
      NeverTradedWith(ts[1..], p, maker);
    }
  }

  /** Under prevention no trade names an own maker. */
  lemma NoOwnTrades(r: Rules, b: Book, o: Order, m: Order, ts: seq<Trade>)
    requires Sound(b) && Rests(b, m) && m.user == o.user && Prevents(r.policy, o.user)
    requires forall k :: 0 <= k < |ts| ==> ProperTrade(r, b, o, ts[k])
    ensures TradedWith(ts, m.price, m.id) == 0
  {
    hide GoodBook, Fitting, Rests;
    forall k | 0 <= k < |ts| ensures ts[k].maker != m.id {
      assert ProperTrade(r, b, o, ts[k]);
      var m' :| MakerOf(b, o, ts[k], m');
    }
    NeverTradedWith(ts, m.price, m.id);
  }

  /**
   What a submission does to each order resting before it. Its own side is left alone; a maker loses
   exactly what it traded; under prevention the taker's own makers trade nothing and are either left
   whole or pulled.
   */
  lemma Bystanders(r: Rules, b: Book, o: Order, m: Order)
    requires Sound(b) && Lawful(r.strategy) && BudgetFits(o) && Rests(b, m) && m.id != o.id
    ensures var (b', rep) := Submit(r, b, o);
            var lots, traded := LotsAt(b', m.side, m.price, m.id), TradedWith(rep.trades, m.price, m.id);
            if m.side == o.side then lots == m.remaining
            else if Prevents(r.policy, o.user) && m.user == o.user then
              traded == 0 && lots == (if m.id in rep.pulled then 0 else m.remaining)
            else lots == m.remaining - traded && m.id !in rep.pulled
  {
    hide Sound, Lawful, Cross, Joined, Traded, TradedWith, CrossableLots, BudgetCovers, FloorPrice, LotsAt, Rests,
      ProperTrade;
    RestingLots(b, m);
    var (b', rep) := Submit(r, b, o);
    var t := Ticketed(b, o, r.now);
    if !t.admitted {
      NoTrades();
    } else {
      var c := Cross(r, b, t.order, t.budget);
      JoinedBeside(c.book, t.order.(remaining := c.remaining), m.side, m.price, m.id);
      if m.side == o.side {
        SameSideLots(r, b, t.order, t.budget, m.price, m.id);
      } else {
        assert m.side == o.side.Opposite();
        MakersConserve(r, b, t.order, t.budget, m.price, m.id);
        if m.id in c.pulled {
          PulledIsOwn(r, b, t.order, t.budget, m);
        }
        if Prevents(r.policy, o.user) && m.user == o.user {
          SubmissionTrades(r, b, o, m.price, m.id);
          NoOwnTrades(r, b, t.order, m, rep.trades);
        }
      }
    }
  }

  lemma SameSideLots(r: Rules, b: Book, o: Order, budget: nat, p: Price, id: OrderId)
    requires Sound(b) && Lawful(r.strategy)
    ensures LotsAt(Cross(r, b, o, budget).book, o.side, p, id) == LotsAt(b, o.side, p, id)
  {
    hide Sound, Lawful, Cross, Lots;
    CrossConserves(r, b, o, budget);
  }

  lemma PulledIsOwn(r: Rules, b: Book, o: Order, budget: nat, m: Order)
    requires Sound(b) && Lawful(r.strategy) && Rests(b, m) && m.id in Cross(r, b, o, budget).pulled
    ensures m.user == o.user && Prevents(r.policy, o.user)
  {
    hide GoodBook, Fitting, Lawful, Cross, Rests;
    PulledWereOwn(r, b, o, budget, m.id);
    if !Prevents(r.policy, o.user) {
      NothingPulled(r, b, o, budget);
    }
  }
}
