/** The matching engine over the slab-backed book, proved against the matching of plain books. */
module MatchingEngines {
  import opened Types
  import opened Books
  import opened Queues
  import opened Strategies
  import opened Matching
  import opened Crossings
  import opened Prechecks
  import opened SelfTrades
  import opened Submissions
  import opened LevelIndexes
  import opened Stores
  import opened StoreViews
  import opened OrderBooks
  import opened Arithmetic
  import opened Exports

  // --- steps of one round -------------------------------------------------------------------------

  lemma {:induction false} CappedWhole(q: seq<Order>, cap: int)
    requires Total(q) <= cap && forall i :: 0 <= i < |q| ==> q[i].remaining > 0
    ensures Capped(q, cap) == q
  {
    if q != [] {
      CappedWhole(q[1..], cap - q[0].remaining);
      NoLots(q[1..]);
    }
  }

  lemma NoLots(q: seq<Order>)
    requires forall i :: 0 <= i < |q| ==> q[i].remaining > 0
    ensures Total(q) == 0 <==> q == []
  {}

  lemma {:induction false} PulledSnoc(q: seq<Order>, ids: seq<OrderId>, id: OrderId)
    ensures Pulled(q, ids + [id]) == SetRemaining(Pulled(q, ids), id, 0)
    decreases |ids|
  {
    if ids == [] {
      assert ids + [id] == [id];
    } else {
      assert (ids + [id])[1..] == ids[1..] + [id];
      PulledSnoc(SetRemaining(q, ids[0], 0), ids[1..], id);
    }
  }

  lemma {:induction false} OwnIdsSnoc(v: seq<Order>, o: Order, user: User)
    ensures OwnIds(v + [o], user) == OwnIds(v, user) + if o.user == user then [o.id] else []
  {
    if v == [] {
      assert v + [o] == [o];
    } else {
      assert (v + [o])[1..] == v[1..] + [o];
      OwnIdsSnoc(v[1..], o, user);
      var first := if v[0].user == user then [v[0].id] else [];
      var last := if o.user == user then [o.id] else [];
      assert first + (OwnIds(v[1..], user) + last) == first + OwnIds(v[1..], user) + last;
    }
  }

  function SaturatingSub(a: nat, b: nat): nat {
    if b <= a then a - b else 0
  }

  /** Turning an answer into trades and fills; the budget pays for what is taken. */
  method Execute(r: Rules, o: Order, px: Price, view: seq<RestingOrder>, out: seq<Allocation>, budget: nat,
                 ghost v: seq<Order>)
    returns (remaining: Qty, left: nat, ts: seq<Trade>, fills: seq<Fill>)
    requires view == SeenAll(v) && Within(view, out) && Allocated(out) <= o.remaining
    requires Notional(px, Allocated(out)) <= budget
    ensures ts == TradesOf(r, o, px, v, out) && fills == FillsOf(out)
    ensures remaining == o.remaining - Allocated(out) && left == budget - Notional(px, Allocated(out))
  {
    hide Allocated, Notional;
    remaining, left, ts, fills := o.remaining, budget, [], [];
    ExecutedNone(px);
    for k := 0 to |out|
      invariant ts == TradesOf(r, o, px, v, out[..k]) && fills == FillsOf(out[..k])
      invariant Allocated(out[..k]) <= o.remaining && Notional(px, Allocated(out[..k])) <= budget
      invariant remaining == o.remaining - Allocated(out[..k]) && left == budget - Notional(px, Allocated(out[..k]))
    {
      var a := out[k];
      ExecutedMore(px, out, k);
      assert WithinOrder(view, a);
      assert out[..k + 1] == out[..k] + [a];
      if a.qty != 0 {
        ts := ts + [Trade(o.id, a.id, o.side, px, a.qty, r.now, view[a.idx].user, o.user)];
        remaining := remaining - a.qty;
        left := SaturatingSub(left, px * a.qty);
        fills := fills + [Fill(a.id, a.qty)];
      }
    }
    assert out[..|out|] == out;
  }

  lemma ExecutedNone(px: Price)
    ensures Allocated([]) == 0 && Notional(px, 0) == 0
  {}

  lemma ExecutedMore(px: Price, out: seq<Allocation>, k: nat)
    requires k < |out|
    ensures Allocated(out[..k + 1]) == Allocated(out[..k]) + out[k].qty <= Allocated(out)
    ensures Notional(px, Allocated(out[..k + 1])) ==
            Notional(px, Allocated(out[..k])) + px * out[k].qty <= Notional(px, Allocated(out))
  {
    assert out[..k + 1] == out[..k] + [out[k]];
    AllocatedConcat(out[..k], [out[k]]);
    assert out == out[..k + 1] + out[k + 1..];
    AllocatedConcat(out[..k + 1], out[k + 1..]);
    Distribute(px, Allocated(out[..k]), out[k].qty);
    MulMono(px, Allocated(out[..k + 1]), Allocated(out));
  }

  // --- the loop, one round at a time ------------------------------------------------------------------

  /** A whole run is what was done so far followed by the run from here. */
  ghost predicate Follows(whole: Crossing, ts: seq<Trade>, ids: seq<OrderId>, rest: Crossing) {
    whole == rest.(trades := ts + rest.trades, pulled := ids + rest.pulled)
  }

  lemma FollowsPull(r: Rules, b: Book, o: Order, budget: nat, whole: Crossing, ts: seq<Trade>, ids: seq<OrderId>)
    requires Sound(b) && Lawful(r.strategy) && OneRound(r, b, o, budget).Pull?
    requires Follows(whole, ts, ids, Cross(r, b, o, budget))
    ensures var rd := OneRound(r, b, o, budget);
            && Sound(rd.book) && |Resting(rd.book)| < |Resting(b)|
            && Follows(whole, ts, ids + rd.pulled, Cross(r, rd.book, o, budget))
  {
    hide Sound, Lawful, OneRound, Resting;
    RoundProgress(r, b, o, budget);
    var rd := OneRound(r, b, o, budget);
    assert ids + (rd.pulled + Cross(r, rd.book, o, budget).pulled) ==
           ids + rd.pulled + Cross(r, rd.book, o, budget).pulled;
  }

  lemma FollowsFills(r: Rules, b: Book, o: Order, budget: nat, whole: Crossing, ts: seq<Trade>, ids: seq<OrderId>)
    requires Sound(b) && Lawful(r.strategy) && OneRound(r, b, o, budget).Fills?
    requires Follows(whole, ts, ids, Cross(r, b, o, budget))
    ensures var rd := OneRound(r, b, o, budget);
            && Sound(rd.book) && 0 <= rd.remaining < o.remaining && rd.budget >= 0
            && Follows(whole, ts + rd.trades, ids, Cross(r, rd.book, o.(remaining := rd.remaining), rd.budget))
  {
    hide Sound, Lawful, OneRound, Resting;
    RoundProgress(r, b, o, budget);
    var rd := OneRound(r, b, o, budget);
    var rest := Cross(r, rd.book, o.(remaining := rd.remaining), rd.budget);
    assert ts + (rd.trades + rest.trades) == ts + rd.trades + rest.trades;
  }

  lemma FollowsEnd(r: Rules, b: Book, o: Order, budget: nat, whole: Crossing, ts: seq<Trade>, ids: seq<OrderId>)
    requires Sound(b) && Lawful(r.strategy) && (OneRound(r, b, o, budget).Halt? || OneRound(r, b, o, budget).StopTaker?)
    requires Follows(whole, ts, ids, Cross(r, b, o, budget))
    ensures var rd := OneRound(r, b, o, budget);
            && (rd.StopTaker? ==> Sound(rd.book))
            && whole == Crossing(if rd.Halt? then b else rd.book, o.remaining, budget, ts,
                                 if rd.Halt? then ids else ids + rd.pulled, rd.StopTaker?)
  {
    hide Sound, Lawful, OneRound, Resting;
    RoundProgress(r, b, o, budget);
    assert ts + [] == ts && ids + [] == ids;
  }

  /** The next own maker of a view is still there when its turn comes, and leaves. */
  lemma PullNext(b: Book, side: Side, px: Price, v: seq<Order>, i: nat, user: User)
    requires Sound(b) && i < |v| <= |Queue(b, side, px)| && v == Queue(b, side, px)[..|v|] && v[i].user == user
    ensures var q, ids := Queue(b, side, px), OwnIds(v[..i], user);
            var b' := WithQueue(b, side, px, Pulled(q, ids));
            && OwnIds(v[..i + 1], user) == ids + [v[i].id]
            && Sound(b') && HasId(b', v[i].id)
            && forall m :: Rests(b', m) && m.id == v[i].id ==>
                 Removed(b', m) == WithQueue(b, side, px, Pulled(q, OwnIds(v[..i + 1], user)))
  {
    hide WithQueue, Pulled, SetRemaining, Lots, Lowered, OwnIds;
    var q, ids := Queue(b, side, px), OwnIds(v[..i], user);
    var q' := Pulled(q, ids);
    var b' := WithQueue(b, side, px, q');
    assert v[..i + 1] == v[..i] + [v[i]];
    OwnIdsSnoc(v[..i], v[i], user);
    GoodAt(b, side, px);
    NotPulledYet(q, v, i, user, side, px);
    PulledLowers(q, ids, side, px);
    Resound(b, side, px, q');
    QueueWithQueue(b, side, px, q', side, px);
    LotsFound(q', v[i].id);
    var o :| o in q' && o.id == v[i].id;
    RestsAt(b', side, px, o);
    PulledSnoc(q, ids, v[i].id);
    WithQueueTwice(b, side, px, q', SetRemaining(q', v[i].id, 0));
  }

  lemma NotPulledYet(q: seq<Order>, v: seq<Order>, i: nat, user: User, side: Side, px: Price)
    requires GoodQueue(q, side, px) && i < |v| <= |q| && v == q[..|v|]
    ensures Lots(Pulled(q, OwnIds(v[..i], user)), v[i].id) > 0
  {
    hide Pulled, Lots;
    assert v[i] == q[i] && q[i] in q;
    LotsOf(q, q[i]);
    OwnIdsAre(v[..i], user, v[i].id);
    assert forall j :: 0 <= j < i ==> v[..i][j] == q[j];
    PulledLots(q, OwnIds(v[..i], user), v[i].id, side, px);
  }

  /** A round that reaches a crossable, affordable level. */
  ghost predicate Reaches(b: Book, o: Order, budget: nat, px: Price) {
    && o.remaining > 0 && Best(b, o.side.Opposite()) == Some(px) && Crosses(o, px)
    && Affordable(budget, px, o.remaining) > 0
  }

  lemma RoundPulls(r: Rules, b: Book, o: Order, budget: nat, px: Price)
    requires Reaches(b, o, budget, px) && Prevents(r.policy, o.user) && HasOwn(ShownLevel(r, b, o, budget), o.user)
    ensures var ids := OwnIds(ShownLevel(r, b, o, budget), o.user);
            var b' := WithQueue(b, o.side.Opposite(), px, Pulled(Matching.Level(b, o), ids));
            OneRound(r, b, o, budget) ==
              match r.policy
              case CancelTaker => StopTaker(b, [])
              case CancelBoth => StopTaker(b', ids)
              case _ => Pull(b', ids)
  {
    hide Best, WithQueue, Pulled, Capped, Affordable, Crosses;
  }

  lemma RoundTrades(r: Rules, b: Book, o: Order, budget: nat, px: Price)
    requires Reaches(b, o, budget, px) && !(Prevents(r.policy, o.user) && HasOwn(ShownLevel(r, b, o, budget), o.user))
    ensures var q, v, out := Matching.Level(b, o), ShownLevel(r, b, o, budget), Answer(r, b, o, budget);
            OneRound(r, b, o, budget) ==
              if out == [] then Halt
              else Fills(WithQueue(b, o.side.Opposite(), px, FilledAll(q, FillsOf(out))), o.remaining - Allocated(out),
                         budget - Notional(px, Allocated(out)), TradesOf(r, o, px, v, out))
  {
    hide Best, WithQueue, FilledAll, Capped, Affordable, Crosses;
  }

  /** What a trading round needs of the answer. */
  lemma AnswerReady(r: Rules, b: Book, o: Order, budget: nat, px: Price)
    requires Sound(b) && Lawful(r.strategy) && Reaches(b, o, budget, px) && OneRound(r, b, o, budget).Fills?
    ensures var q, v, out := Matching.Level(b, o), ShownLevel(r, b, o, budget), Answer(r, b, o, budget);
            && Within(SeenAll(v), out) && Allocated(out) <= o.remaining
            && Notional(px, Allocated(out)) <= budget && FillsFit(q, FillsOf(out))
  {
    hide Sound, Lawful, OneRound, Capped, Within, FillsFit, Notional, Total;
    TradingRound(r, b, o, budget);
    AffordableIsPaid(budget, px, o.remaining, Allocated(Answer(r, b, o, budget)));
  }

  class MatchingEngine {
    const book: OrderBook
    const setup: Setup
    var clock: u64
    /** Makers cancelled by self-trade prevention during the last submission. */
    var pulled: seq<OrderId>

    ghost function Repr(): set<object> {
      {this} + book.Repr()
    }

    ghost predicate Valid()
      reads Repr()
    {
      book.Valid() && Sound(book.Shows()) && Lawful(setup.strategy)
    }

    constructor (setup: Setup)
      requires Lawful(setup.strategy)
      ensures Valid() && State() == Engine(Book(map[], map[]), 0) && this.setup == setup
      ensures fresh(Repr())
    {
      hide Lawful, Core, View, Tidy, LevelIndex.Valid;
      book := new OrderBook();
      this.setup := setup;
      clock, pulled := 0, [];
    }

    /** What the strategy is shown of a level. */
    method ShowLevel(side: Side, px: Price, n: Qty) returns (view: seq<RestingOrder>)
      requires Valid()
      modifies book.pool`free, book.bids, book.bids.l0, book.asks, book.asks.l0
      ensures Valid() && book.Shows() == old(book.Shows())
      ensures view == SeenAll(Shown(setup.strategy, Queue(book.Shows(), side, px), n))
    {
      hide Lawful, Core, View, Tidy, LevelIndex.Valid, Total, Capped, IdsUnique;
      GoodAt(book.Shows(), side, px);
      CappedWhole(Queue(book.Shows(), side, px), U64_MAX);
      if setup.strategy.fullLevelRequired {
        view := book.LevelViewCapped(side, px, U64_MAX);
      } else {
        view := book.LevelViewCapped(side, px, n);
      }
    }

    /** Cancel the user's own makers of a view, front to back. */
    method PullOwn(side: Side, px: Price, view: seq<RestingOrder>, user: User, ghost v: seq<Order>)
      requires Valid() && view == SeenAll(v)
      requires |v| <= |Queue(book.Shows(), side, px)| && v == Queue(book.Shows(), side, px)[..|v|]
      modifies this`pulled, book, book.pool, book.bids, book.bids.l0, book.asks, book.asks.l0
      ensures book.Valid() && Sound(book.Shows())
      ensures book.Shows() ==
              WithQueue(old(book.Shows()), side, px, Pulled(Queue(old(book.Shows()), side, px), OwnIds(v, user)))
      ensures pulled == old(pulled) + OwnIds(v, user)
    {
      hide Lawful, Core, View, Tidy, LevelIndex.Valid, Sound, WithQueue, Pulled, Removed, OwnIds, Rests, HasId, Queue;
      ghost var b := book.Shows();
      ghost var before := pulled;
      PullNone(b, side, px, v, user);
      for i := 0 to |view|
        invariant book.Valid() && Sound(book.Shows())
        invariant book.Shows() == WithQueue(b, side, px, Pulled(Queue(b, side, px), OwnIds(v[..i], user)))
        invariant pulled == before + OwnIds(v[..i], user)
      {
        if view[i].user == user {
          PullNext(b, side, px, v, i, user);
          ghost var now := book.Shows();
          var gone := book.Cancel(view[i].id);
          ReducingSoundIf(now, gone);
          pulled := pulled + [view[i].id];
        } else {
          assert v[..i + 1] == v[..i] + [v[i]];
          OwnIdsSnoc(v[..i], v[i], user);
          assert OwnIds(v[..i + 1], user) == OwnIds(v[..i], user);
        }
      }
      assert v[..|view|] == v;
    }

    /** Let the strategy split the lots over a level and apply what it decides. */
    method TradeLevel(o: Order, px: Price, n: Qty, view: seq<RestingOrder>, budget: nat, ghost v: seq<Order>)
      returns (traded: bool, remaining: Qty, left: nat, ts: seq<Trade>)
      requires Valid() && Reaches(book.Shows(), o, budget, px) && n == Affordable(budget, px, o.remaining)
      requires view == SeenAll(v) && v == ShownLevel(RulesAt(setup, clock), book.Shows(), o, budget)
      requires !(Prevents(setup.policy, o.user) && HasOwn(v, o.user))
      modifies book, book.pool, book.bids, book.bids.l0, book.asks, book.asks.l0
      ensures book.Valid()
      ensures OneRound(RulesAt(setup, clock), old(book.Shows()), o, budget) ==
                if traded then Fills(book.Shows(), remaining, left, ts) else Halt
      ensures !traded ==> book.Shows() == old(book.Shows())
    {
      hide Lawful, Core, View, Tidy, LevelIndex.Valid, Sound, OneRound, Best, Crosses, HasOwn, FilledAll, WithQueue,
        Within, Notional, FillsFit, Affordable;
      var r := RulesAt(setup, clock);
      ghost var b := book.Shows();
      RoundTrades(r, b, o, budget, px);
      var out := setup.strategy.allocate(view, n);
      if out == [] {
        return false, o.remaining, budget, [];
      }
      AnswerReady(r, b, o, budget, px);
      traded := true;
      var fills;
      remaining, left, ts, fills := Execute(r, o, px, view, out, budget, v);
      book.ApplyFills(o.side.Opposite(), px, fills);
    }

    /** Best price first, level by level, until the order is exhausted or nothing crossable is left. */
    method CrossBook(o0: Order, budget0: nat) returns (o: Order, budget: nat, trades: seq<Trade>, stopped: bool)
      requires Valid() && pulled == []
      modifies this`pulled, book, book.pool, book.bids, book.bids.l0, book.asks, book.asks.l0
      ensures book.Valid() && Sound(book.Shows())
      ensures var c := Cross(RulesAt(setup, clock), old(book.Shows()), o0, budget0);
              && book.Shows() == c.book && o == o0.(remaining := c.remaining) && budget == c.budget
              && trades == c.trades && pulled == c.pulled && stopped == c.stopped
    {
      hide Lawful, Core, View, Tidy, LevelIndex.Valid, Sound, Cross, OneRound, Best, Crosses, Affordable, HasOwn,
        OwnIds, Resting, Pulled, WithQueue, Total, Capped, TotalSeen, GoodQueue, Positive, Prevents, Follows;
      var r := RulesAt(setup, clock);
      var side := o0.side.Opposite();
      o, budget, trades, stopped := o0, budget0, [], false;
      ghost var whole := Cross(r, book.Shows(), o, budget);
      FollowsStart(whole);
      while o.remaining > 0
        invariant book.Valid() && Sound(book.Shows()) && !stopped
        invariant o == o0.(remaining := o.remaining)
        invariant Follows(whole, trades, pulled, Cross(r, book.Shows(), o, budget))
        decreases o.remaining, |Resting(book.Shows())|
      {
        ghost var b := book.Shows();
        var best := book.BestPrice(side);
        if best.None? || !Crosses(o, best.value) || Affordable(budget, best.value, o.remaining) == 0 {
          HaltWhen(r, b, o, budget);
          FollowsEnd(r, b, o, budget, whole, trades, pulled);
          return;
        }
        var px := best.value;
        var n := Affordable(budget, px, o.remaining);
        ghost var v := ShownLevel(r, b, o, budget);
        ShownIsFront(r, b, o, budget);
        var view := ShowLevel(side, px, n);
        assert view == SeenAll(v) && book.Shows() == b;
        var own := OwnSeen(view, o.user, v);
        if Prevents(setup.policy, o.user) && own {
          RoundPulls(r, b, o, budget, px);
          if setup.policy.CancelTaker? {
            FollowsEnd(r, b, o, budget, whole, trades, pulled);
            assert pulled + [] == pulled;
            stopped := true;
            return;
          }
          ghost var ids := pulled;
          PullOwn(side, px, view, o.user, v);
          if setup.policy.CancelBoth? {
            FollowsEnd(r, b, o, budget, whole, trades, ids);
            stopped := true;
            return;
          }
          FollowsPull(r, b, o, budget, whole, trades, ids);
        } else {
          var traded, remaining, left, ts := TradeLevel(o, px, n, view, budget, v);
          if !traded {
            FollowsEnd(r, b, o, budget, whole, trades, pulled);
            return;
          }
          FollowsFills(r, b, o, budget, whole, trades, pulled);
          o, budget, trades := o.(remaining := remaining), left, trades + ts;
        }
      }
      HaltWhen(r, book.Shows(), o, budget);
      FollowsEnd(r, book.Shows(), o, budget, whole, trades, pulled);
    }

    /** Budget conversions and the fill-or-kill prechecks, against the book as it stands. */
    method Prepare(o0: Order) returns (t: Ticket)
      requires Valid() && BudgetFits(o0) && SumsFit(book.Shows(), o0, clock)
      ensures t == Ticketed(book.Shows(), o0, clock)
    {
      hide Lawful, Core, View, Tidy, LevelIndex.Valid, Sound, CrossableLots, SweepCost, FloorPrice;
      var o := o0.(timestamp := clock, remaining := o0.quantity);
      var budget := U128_MAX;
      if Budgeted(o0.tif) {
        match o0.side {
          case Sell =>
            FloorPriceFits(o0.price, o0.quantity);
            o := o.(price := FloorPrice(o0.price, o0.quantity), tif := if o0.tif.FokBudget? then Fok else Ioc);
          case Buy =>
            budget := o0.price;
            o := o.(price := U64_MAX, tif := IocBudget);
            if o0.tif.FokBudget? {
              var fillable, cost := book.CostToFill(Buy, o.quantity);
              if fillable < o.quantity || cost > budget {
                return Ticket(o, budget, false);
              }
            }
        }
      }
      if o.tif.Fok? {
        var sum := book.CrossableQty(o.side, o.price);
        if sum < o.remaining {
          return Ticket(o, budget, false);
        }
      }
      return Ticket(o, budget, true);
    }

    /** Rest or drop what is left of an order. */
    method Finalize(o: Order, trades: seq<Trade>) returns (rep: Report)
      requires Valid() && o.remaining <= o.quantity
      requires o.remaining > 0 && MayRest(o) ==> !HasId(book.Shows(), o.id) && RoomFor(book.Shows(), o)
      modifies book, book.pool, book.bids, book.bids.l0, book.asks, book.asks.l0
      ensures Valid()
      ensures var rest := o.remaining > 0 && MayRest(o);
              && book.Shows() == (if rest then Joined(old(book.Shows()), o) else old(book.Shows()))
              && rep == Report(if o.remaining == 0 then WhollyFilled
                               else if o.remaining < o.quantity then PartiallyFilled
                               else if rest then NowResting
                               else Cancelled,
                               o.quantity - o.remaining, trades, pulled, rest)
    {
      hide Lawful, Core, View, Tidy, LevelIndex.Valid, Sound, Joined, HasId, RoomFor;
      var filled := o.quantity - o.remaining;
      if o.remaining == 0 {
        return Report(WhollyFilled, filled, trades, pulled, false);
      }
      if !MayRest(o) {
        return Report(if filled > 0 then PartiallyFilled else Cancelled, filled, trades, pulled, false);
      }
      RoomMeansFits(book.Shows(), o);
      JoiningSound(book.Shows(), o);
      var ok := book.TryInsert(o);
      return Report(if filled > 0 then PartiallyFilled else NowResting, filled, trades, pulled, true);
    }

    /** One entry: stamp, precheck, cross, rest or drop. Proved equal to `Submit` on the plain book. */
    method SubmitInto(o0: Order) returns (rep: Report)
      requires Valid() && clock < U64_MAX && Acceptable(book.Shows(), o0) && SumsFit(book.Shows(), o0, clock + 1)
      modifies Repr()
      ensures Valid() && clock == old(clock) + 1
      ensures (book.Shows(), rep) == Submit(RulesAt(setup, clock), old(book.Shows()), o0)
    {
      hide Lawful, Core, View, Tidy, LevelIndex.Valid, Sound, Cross, Joined, HasId, RoomFor, Ticketed, SumsFit,
        BudgetFits;
      ghost var b := book.Shows();
      clock, pulled := clock + 1, [];
      var t := Prepare(o0);
      TicketKeeps(b, o0, clock);
      if !t.admitted {
        return Report(Rejected, 0, [], [], false);
      }
      ghost var r := RulesAt(setup, clock);
      var o, budget, trades, stopped := CrossBook(t.order, t.budget);
      CrossConserves(r, b, t.order, t.budget);
      if stopped {
        var filled := o.quantity - o.remaining;
        StoppedHasLeft(r, b, t.order, t.budget);
        return Report(if filled > 0 then PartiallyFilled else Cancelled, filled, trades, pulled, false);
      }
      RoomToRest(r, b, o0, t.order, t.budget);
      rep := Finalize(o, trades);
    }

    /** The engine as a value. */
    ghost function State(): Engine
      requires Valid()
      reads Repr()
    {
      Engine(book.Shows(), clock)
    }

    /** The cancel step. */
    method CancelOrder(id: OrderId) returns (removed: bool)
      requires Valid() && Enabled(State(), CancelOne(id))
      modifies Repr()
      ensures Valid() && State() == Step(setup, old(State()), CancelOne(id))
      ensures removed <==> HasId(old(book.Shows()), id)
    {
      hide Lawful, Core, View, Tidy, LevelIndex.Valid, Sound, Reduced, Rests, Submissions.Find;
      ghost var b := book.Shows();
      var gone := book.Cancel(id);
      FoundSame(b, id, gone);
      ReducingSoundIf(b, gone);
      return gone.Some?;
    }

    /**
     The amend step: a reduction at the same price keeps its place, anything else
     re-enters it as a good-till-cancel order.
     */
    method Modify(id: OrderId, price: Price, qty: Qty) returns (outcome: AmendOutcome)
      requires Valid() && Enabled(State(), Amend(id, price, qty))
      modifies Repr()
      ensures Valid() && State() == Step(setup, old(State()), Amend(id, price, qty))
      ensures outcome == Amended(setup, old(State()), id, price, qty)
    {
      hide Lawful, Core, View, Tidy, LevelIndex.Valid, Sound, Reduced, Rests, Submissions.Find, Submit, HasId, RoomFor;
      ghost var b := book.Shows();
      var found := book.Find(id);
      FoundSame(b, id, found);
      if found.None? {
        return NotFound;
      }
      var o := found.value;
      ReducingSound(b, o, if qty <= o.remaining then qty else 0);
      if InPlace(o, price, qty) {
        if qty == 0 {
          var gone := book.Cancel(id);
          FoundSame(b, id, gone);
          return AmendCancelled;
        }
        var ok := book.Reduce(id, qty);
        assert book.Shows() == Reduced(b, o, qty);
        return ReducedTo(qty);
      }
      var gone := book.Cancel(id);
      FoundSame(b, id, gone);
      ReducingSound(b, o, 0);
      RemovedFresh(b, o);
      var rep := SubmitInto(Requoted(o, price, qty));
      return Requote(rep);
    }

    /** The step that clears a user, order by order. */
    method CancelAllForUser(user: User) returns (ids: seq<OrderId>)
      requires Valid() && Enabled(State(), CancelUser(user))
      modifies Repr()
      ensures Valid() && State() == Step(setup, old(State()), CancelUser(user))
      ensures forall id :: id in ids <==> id in IdsOfUser(old(book.Shows()), user)
      ensures forall j, k :: 0 <= j < k < |ids| ==> ids[j] != ids[k]
    {
      hide Lawful, Core, View, Tidy, LevelIndex.Valid, Sound, Reduced, Cleared, Rests, HasId, IdsOfUser;
      ghost var b := book.Shows();
      ids := book.OrdersOfUser(user);
      for k := 0 to |ids|
        invariant book.Valid() && Sound(book.Shows())
        invariant Cleared(book.Shows(), user) == Cleared(b, user)
        invariant forall id :: id in IdsOfUser(book.Shows(), user) <==> id in ids[k..]
        invariant clock == old(clock)
      {
        ghost var now := book.Shows();
        assert ids[k] in ids[k..];
        OwnedRests(now, ids[k], user);
        var gone := book.Cancel(ids[k]);
        ClearingOne(now, ids[k], user, gone);
      }
      NothingToClear(book.Shows(), user);
    }

    /** Every resting order, sorted by stamp. */
    method ExportOrders() returns (os: seq<Order>)
      requires Valid()
      ensures Exported(book.Shows(), os)
    {
      hide Lawful, Core, View, Tidy, LevelIndex.Valid, Sound, Rests, SortByStamp;
      var all := book.IterOrders();
      SortByStampSorts(all);
      os := SortByStamp(all);
    }

    /** Re-insert exported orders into a fresh engine, without matching. */
    method Restore(clock: u64, os: seq<Order>)
      requires Valid() && book.Shows() == Book(map[], map[]) && Restorable(os)
      modifies Repr()
      ensures Valid() && State() == Engine(Rebuilt(os), clock)
    {
      hide Lawful, Core, View, Tidy, LevelIndex.Valid, Sound, Rebuilt, Joined, RoomFor, HasId;
      this.clock := clock;
      RebuiltStart(os);
      for k := 0 to |os|
        invariant book.Valid() && Sound(book.Shows())
        invariant book.Shows() == Rebuilt(os[..k]) && this.clock == clock
      {
        RebuiltNext(os, k);
        RoomMeansFits(book.Shows(), os[k]);
        JoiningSound(book.Shows(), os[k]);
        var ok := book.TryInsert(os[k]);
      }
      assert os[..|os|] == os;
    }
  }

  /** What an amendment reports. */
  ghost function Amended(s: Setup, e: Engine, id: OrderId, price: Price, qty: Qty): AmendOutcome
    requires Sound(e.book) && Lawful(s.strategy) && Enabled(e, Amend(id, price, qty))
  {
    hide Sound, Lawful, Submit, Reduced, Rests, RoomFor, Submissions.Find;
    match Submissions.Find(e.book, id)
    case None => NotFound
    case Some(o) =>
      if !InPlace(o, price, qty) then
        LeavingKeeps(e, o);
        Requote(Submit(RulesAt(s, e.clock + 1), Removed(e.book, o), Requoted(o, price, qty)).1)
      else if qty == 0 then AmendCancelled
      else ReducedTo(qty)
  }

  datatype AmendOutcome = NotFound | ReducedTo(remaining: Qty) | AmendCancelled | Requote(report: Report)

  lemma RebuiltStart(os: seq<Order>)
    ensures Rebuilt(os[..0]) == Book(map[], map[])
  {}

  lemma RebuiltNext(os: seq<Order>, k: nat)
    requires k < |os|
    ensures Rebuilt(os[..k + 1]) == Joined(Rebuilt(os[..k]), os[k])
  {
    assert os[..k + 1][..k] == os[..k];
  }

  /** The order found by id is the only one. */
  lemma FoundSame(b: Book, id: OrderId, r: Option<Order>)
    requires Sound(b)
    requires r.Some? ==> r.value.id == id && Rests(b, r.value)
    requires r.None? ==> !HasId(b, id)
    ensures r == Submissions.Find(b, id) && (r.Some? <==> HasId(b, id))
  {
    hide GoodBook, Fitting;
  }

  lemma OwnedRests(b: Book, id: OrderId, user: User)
    requires Sound(b) && id in IdsOfUser(b, user)
    ensures HasId(b, id)
  {
    hide Resting;
    var o :| o in Resting(b) && o.user == user && o.id == id;
    RestingAre(b, o);
  }

  /** The checked sum of the fill-or-kill precheck does not overflow. */
  ghost predicate SumsFit(b: Book, o: Order, now: u64)
    requires BudgetFits(o)
  {
    o.tif.Fok? || (o.tif.FokBudget? && o.side.Sell?) ==>
      CrossableLots(b, o.side.Opposite(), Ticketed(b, o, now).order.price) <= U64_MAX
  }

  lemma RoomMeansFits(b: Book, o: Order)
    requires RoomFor(b, o)
    ensures Total(Queue(b, o.side, o.price)) + o.remaining <= U64_MAX
  {}

  lemma TicketKeeps(b: Book, o: Order, now: u64)
    requires BudgetFits(o)
    ensures var t := Ticketed(b, o, now).order;
            && t.quantity == t.remaining == o.quantity && t.id == o.id
            && (MayRest(t) ==> MayRest(o) && t == o.(timestamp := now, remaining := o.quantity))
  {
    hide CrossableLots, BudgetCovers, FloorPrice;
  }

  /** What is left of an acceptable order finds room after crossing. */
  lemma RoomToRest(r: Rules, b: Book, o: Order, t: Order, budget: nat)
    requires Sound(b) && Lawful(r.strategy)
    requires MayRest(t) ==> !HasId(b, o.id) && RoomFor(b, o.(remaining := o.quantity))
    requires MayRest(t) ==> t == o.(timestamp := r.now, remaining := o.quantity)
    ensures var c := Cross(r, b, t, budget);
            MayRest(t) && c.remaining <= t.remaining ==>
              !HasId(c.book, t.id) && RoomFor(c.book, t.(remaining := c.remaining))
  {
    hide Sound, Lawful, Cross, MayRest, HasId, IdsOfUser, Total;
    if MayRest(t) {
      var c := Cross(r, b, t, budget);
      FreshAfterCross(r, b, t, budget);
      CrossConserves(r, b, t, budget);
      UsersAfterCross(r, b, t, budget, t.user);
      assert Queue(c.book, t.side, t.price) == Queue(b, o.side, o.price);
    }
  }

  lemma UsersAfterCross(r: Rules, b: Book, o: Order, budget: nat, user: User)
    requires Sound(b) && Lawful(r.strategy)
    ensures |IdsOfUser(Cross(r, b, o, budget).book, user)| <= |IdsOfUser(b, user)|
  {
    hide GoodBook, IdsUnique, Fitting, Lawful, Cross, Rests, Resting;
    var b' := Cross(r, b, o, budget).book;
    CrossConserves(r, b, o, budget);
    forall id | id in IdsOfUser(b', user) ensures id in IdsOfUser(b, user) {
      var m :| m in Resting(b') && m.user == user && m.id == id;
      RestingAre(b', m);
      CrossLowers(r, b, o, budget, m);
      var m0 :| Rests(b, m0) && m0.(remaining := m.remaining) == m && m.remaining <= m0.remaining;
      RestingAre(b, m0);
      assert m0 in Resting(b) && m0.user == user && m0.id == id;
    }
    CardinalityMono(IdsOfUser(b', user), IdsOfUser(b, user));
  }

  lemma FollowsStart(whole: Crossing)
    ensures Follows(whole, [], [], whole)
  {}

  /** Does the view hold an order of this user? */
  method OwnSeen(view: seq<RestingOrder>, user: User, ghost v: seq<Order>) returns (own: bool)
    requires view == SeenAll(v)
    ensures own == HasOwn(v, user)
  {
    for i := 0 to |view|
      invariant forall j :: 0 <= j < i ==> v[j].user != user
    {
      if view[i].user == user {
        return true;
      }
    }
    return false;
  }

  lemma PullNone(b: Book, side: Side, px: Price, v: seq<Order>, user: User)
    requires Sound(b)
    ensures OwnIds(v[..0], user) == [] && WithQueue(b, side, px, Pulled(Queue(b, side, px), [])) == b
  {
    WithSameQueue(b, side, px);
  }

  lemma ReducingSoundIf(b: Book, gone: Option<Order>)
    requires Sound(b)
    ensures gone.Some? && Rests(b, gone.value) ==> Sound(Removed(b, gone.value))
  {
    if gone.Some? && Rests(b, gone.value) {
      ReducingSound(b, gone.value, 0);
    }
  }

  // --- clearing a user ------------------------------------------------------------------------------------

  /** After one of a user's orders left, clearing the rest gives what clearing all gave. */
  lemma ClearingOne(b: Book, id: OrderId, user: User, gone: Option<Order>)
    requires Sound(b) && id in IdsOfUser(b, user) && gone.Some? && gone.value.id == id && Rests(b, gone.value)
    ensures var b' := Removed(b, gone.value);
            && Sound(b') && Cleared(b', user) == Cleared(b, user)
            && forall id' :: id' in IdsOfUser(b', user) <==> id' in IdsOfUser(b, user) && id' != id
  {
    hide Resting, GoodBook, Fitting, Reduced, Cleared, HasId;
    var o := gone.value;
    var m :| m in Resting(b) && m.user == user && m.id == id;
    RestingAre(b, m);
    assert m == o;
    ReducingSound(b, o, 0);
    ClearedAfter(b, o);
    forall id' ensures id' in IdsOfUser(Removed(b, o), user) <==> id' in IdsOfUser(b, user) && id' != id {
      IdsAfter(b, o, id');
    }
  }

  lemma ClearedAfter(b: Book, o: Order)
    requires Sound(b) && Rests(b, o)
    ensures Cleared(Removed(b, o), o.user) == Cleared(b, o.user)
  {
    hide WithQueue, WithoutUser, Others, IdsUnique, Fitting, SetRemaining;
    var q := Queue(b, o.side, o.price);
    GoodAt(b, o.side, o.price);
    OthersCancelled(q, o.id, o.user);
    var l, r := Cleared(Removed(b, o), o.user), Cleared(b, o.user);
    ReducingSound(b, o, 0);
    SoundNoEmpty(b);
    SoundNoEmpty(Removed(b, o));
    ClearedQueues(Removed(b, o), o.user);
    ClearedQueues(b, o.user);
    forall side, p ensures Queue(l, side, p) == Queue(r, side, p) {
      QueueWithQueue(b, o.side, o.price, SetRemaining(q, o.id, 0), side, p);
    }
    SameQueues(l, r);
  }

  lemma ClearedQueues(b: Book, user: User)
    requires NoEmptyLevel(b)
    ensures NoEmptyLevel(Cleared(b, user))
    ensures forall side, p :: Queue(Cleared(b, user), side, p) == Others(Queue(b, side, p), user)
  {
    hide WithoutUser, Others, Queue, NoEmptyLevel;
    WithoutUserNoEmpty(b, Buy, user);
    WithoutUserNoEmpty(WithoutUser(b, Buy, user), Sell, user);
    forall side, p ensures Queue(Cleared(b, user), side, p) == Others(Queue(b, side, p), user) {
      WithoutUserQueue(b, Buy, user, side, p);
      WithoutUserQueue(WithoutUser(b, Buy, user), Sell, user, side, p);
    }
  }

  lemma IdsAfter(b: Book, o: Order, id: OrderId)
    requires Sound(b) && Rests(b, o)
    ensures id in IdsOfUser(Removed(b, o), o.user) <==> id in IdsOfUser(b, o.user) && id != o.id
  {
    hide Resting, GoodBook, Fitting, Rests, SetRemaining, WithQueue, Queue;
    var b' := Removed(b, o);
    ReducingSound(b, o, 0);
    RemovedFresh(b, o);
    if m :| m in Resting(b') && m.user == o.user && m.id == id {
      RestingAre(b', m);
      ResoundIds(b, o.side, o.price, SetRemaining(Queue(b, o.side, o.price), o.id, 0), m);
      var m0 :| Rests(b, m0) && m0.(remaining := m.remaining) == m && m.remaining <= m0.remaining;
      RestingAre(b, m0);
    }
    if m :| m in Resting(b) && m.user == o.user && m.id == id && id != o.id {
      RestingAre(b, m);
      StaysOn(b, o, m);
      RestingAre(b', m);
    }
  }

  lemma StaysOn(b: Book, o: Order, m: Order)
    requires Sound(b) && Rests(b, o) && Rests(b, m) && m.id != o.id
    ensures Rests(Removed(b, o), m)
  {
    hide WithQueue, IdsUnique, Fitting, SetRemaining, GoodBook;
    var q := Queue(b, o.side, o.price);
    QueueWithQueue(b, o.side, o.price, SetRemaining(q, o.id, 0), m.side, m.price);
    if m in q {
      StaysIn(q, o.id, m);
    }
  }

  lemma {:induction false} StaysIn(q: seq<Order>, id: OrderId, m: Order)
    requires m in q && m.id != id
    ensures m in SetRemaining(q, id, 0)
  {
    if q[0].id == id {
      assert m in q[1..];
      assert SetRemaining(q, id, 0) == q[1..];
    } else if m != q[0] {
      assert m in q[1..];
      StaysIn(q[1..], id, m);
    }
  }

  lemma NothingToClear(b: Book, user: User)
    requires Sound(b) && forall id :: id !in IdsOfUser(b, user)
    ensures Cleared(b, user) == b
  {
    hide Cleared, Resting, IdsUnique, Fitting, Others;
    SoundNoEmpty(b);
    ClearedQueues(b, user);
    forall side, p ensures Queue(Cleared(b, user), side, p) == Queue(b, side, p) {
      var q := Queue(b, side, p);
      forall i | 0 <= i < |q| ensures q[i].user != user {
        RestsAt(b, side, p, q[i]);
        RestingAre(b, q[i]);
        assert q[i].id in IdsOfUser(b, q[i].user);
      }
      OthersOfNone(q, user);
    }
    SameQueues(Cleared(b, user), b);
  }
}
