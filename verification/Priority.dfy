/** Time priority: under FIFO no maker is filled while an earlier one at its level keeps quantity. */
module Priority {
  import opened Types
  import opened Books
  import opened Queues
  import opened Strategies
  import opened Matching
  import opened Crossings

  /** Every queue of the book is in time order. */
  ghost predicate TimeOrdered(b: Book) {
    forall side, p :: InTimeOrder(Queue(b, side, p))
  }

  lemma {:induction false} NoFillFor(out: seq<Allocation>, id: OrderId)
    requires forall k :: 0 <= k < |out| ==> out[k].id != id
    ensures FillQtyOf(FillsOf(out), id) == 0
  {
    if out != [] {
      assert FillsOf(out)[1..] == FillsOf(out[1..]);
      NoFillFor(out[1..], id);
    }
  }

  lemma FillQtyFront(a: Allocation, rest: seq<Allocation>, id: OrderId)
    ensures FillQtyOf(FillsOf([a] + rest), id) == (if a.id == id then a.qty else 0) + FillQtyOf(FillsOf(rest), id)
  {
    assert FillsOf([a] + rest)[1..] == FillsOf(rest);
  }

  /** FIFO reaches position `j` only after taking everything before it. */
  lemma {:induction false} FifoTakesAll(view: seq<RestingOrder>, i0: nat, n: nat, i: nat, j: nat)
    requires i0 <= i < j < |view| && Positive(view)
    requires forall a, b :: 0 <= a < b < |view| ==> view[a].id != view[b].id
    requires exists k ::
               0 <= k < |Greedy(view, Positions(i0, |view|), n)| && Greedy(view, Positions(i0, |view|), n)[k].idx == j
    ensures FillQtyOf(FillsOf(Greedy(view, Positions(i0, |view|), n)), view[i].id) == view[i].remaining
    decreases |view| - i0
  {
    hide Greedy, FillQtyOf;
    var out := Greedy(view, Positions(i0, |view|), n);
    if n == 0 {
      GreedyStops(view, i0, n);
    } else {
      GreedyFront(view, i0, n);
      var fill := Min(n, view[i0].remaining);
      var rest := Greedy(view, Positions(i0 + 1, |view|), n - fill);
      assert out == [Allocation(view[i0].id, fill, i0)] + rest;
      FillQtyFront(Allocation(view[i0].id, fill, i0), rest, view[i].id);
      var k :| 0 <= k < |out| && out[k].idx == j;
      assert rest[k - 1].idx == j;
      GreedyPlaces(view, i0 + 1, n - fill);
      if n - fill == 0 {
        GreedyStops(view, i0 + 1, 0);
      } else if i == i0 {
        NoFillFor(rest, view[i].id);
      } else {
        FifoTakesAll(view, i0 + 1, n - fill, i, j);
      }
    }
  }

  lemma GreedyPlaces(view: seq<RestingOrder>, i0: nat, n: nat)
    requires i0 <= |view|
    ensures forall k :: 0 <= k < |Greedy(view, Positions(i0, |view|), n)| ==>
              var a := Greedy(view, Positions(i0, |view|), n)[k]; i0 <= a.idx < |view| && a.id == view[a.idx].id
  {
    hide Greedy;
    GreedyHonours(view, Positions(i0, |view|), n);
    var out := Greedy(view, Positions(i0, |view|), n);
    forall k | 0 <= k < |out| ensures i0 <= out[k].idx < |view| && out[k].id == view[out[k].idx].id {
      assert WithinOrder(view, out[k]);
    }
  }

  /** In a FIFO round, orders older than a maker that traded are emptied. */
  lemma FifoRound(r: Rules, b: Book, o: Order, budget: nat, k: nat, e: Order, m: Order)
    requires Sound(b) && TimeOrdered(b) && r.strategy == PriceTimePriority && Lawful(r.strategy)
    requires OneRound(r, b, o, budget).Fills? && k < |OneRound(r, b, o, budget).trades|
    requires Rests(b, e) && Rests(b, m) && e.side == m.side == o.side.Opposite() && e.price == m.price
    requires var t := OneRound(r, b, o, budget).trades[k]; m.price == t.price && m.id == t.maker
    requires e.timestamp < m.timestamp
    ensures LotsAt(OneRound(r, b, o, budget).book, e.side, e.price, e.id) == 0
  {
    hide Best, Sound, Lawful, WithQueue, FilledAll, Capped, Lots, FillQtyOf, FillsFit, Total, Allocated, TotalSeen,
      GoodBook, Greedy, Honours, DistinctFills;
    var side := o.side.Opposite();
    TradingRound(r, b, o, budget);
    ShownIsFront(r, b, o, budget);
    RoundPrices(r, b, o, budget);
    var px, q, v, out := Best(b, side).value, Level(b, o), ShownLevel(r, b, o, budget), Answer(r, b, o, budget);
    AnswerFits(q, v, Wanted(r, b, o, budget), out, side, px);
    var i := OlderIn(q, v, e, m, out[k].idx);
    FifoTakesAll(SeenAll(v), 0, Wanted(r, b, o, budget), i, out[k].idx);
    FilledAllLots(q, FillsOf(out), e.id, side, px);
    QueueWithQueue(b, side, px, FilledAll(q, FillsOf(out)), side, e.price);
    LotsOf(q, e);
  }

  lemma OlderIn(q: seq<Order>, v: seq<Order>, e: Order, m: Order, j: nat) returns (i: nat)
    requires |v| <= |q| && v == q[..|v|] && j < |v| && v[j].id == m.id && e in q && m in q
    requires InTimeOrder(q) && DistinctIds(q) && e.timestamp < m.timestamp
    ensures i < j && v[i] == e
  {
    i :| 0 <= i < |q| && q[i] == e;
    assert q[j] == v[j];
    assert q[j] == m;
    assert i < j;
  }

  lemma LoweredInTime(b: Book, side: Side, p: Price, q': seq<Order>)
    requires TimeOrdered(b) && Lowered(Queue(b, side, p), q', side, p)
    ensures TimeOrdered(WithQueue(b, side, p, q'))
  {
    hide WithQueue, AllCome, GoodQueue, Total, InTimeOrder;
    forall side', p' ensures InTimeOrder(Queue(WithQueue(b, side, p, q'), side', p')) {
      QueueWithQueue(b, side, p, q', side', p');
    }
  }

  lemma RoundKeepsTime(r: Rules, b: Book, o: Order, budget: nat)
    requires TimeOrdered(b) && !OneRound(r, b, o, budget).Halt?
    ensures TimeOrdered(OneRound(r, b, o, budget).book)
  {
    hide Best, WithQueue, FilledAll, Capped, Pulled, Lowered, TimeOrdered;
    var side := o.side.Opposite();
    var rd, px, q := OneRound(r, b, o, budget), Best(b, side).value, Level(b, o);
    if rd.Fills? {
      FilledAllLowers(q, FillsOf(Answer(r, b, o, budget)), side, px);
      LoweredInTime(b, side, px, FilledAll(q, FillsOf(Answer(r, b, o, budget))));
    } else if rd.book != b {
      var ids := OwnIds(ShownLevel(r, b, o, budget), o.user);
      PulledLowers(q, ids, side, px);
      LoweredInTime(b, side, px, Pulled(q, ids));
    }
  }

  /** Crossing keeps every queue in time order: reduced makers keep their place. */
  lemma {:induction false} CrossKeepsTime(r: Rules, b: Book, o: Order, budget: nat)
    requires Sound(b) && Lawful(r.strategy) && TimeOrdered(b)
    ensures TimeOrdered(Cross(r, b, o, budget).book)
    decreases o.remaining, |Resting(b)|
  {
    hide Sound, Lawful, OneRound, Resting, TimeOrdered;
    RoundProgress(r, b, o, budget);
    if !OneRound(r, b, o, budget).Halt? {
      RoundKeepsTime(r, b, o, budget);
    }
    match OneRound(r, b, o, budget)
    case Halt =>
    case StopTaker(b', ids) =>
    case Pull(b', ids) =>
      CrossKeepsTime(r, b', o, budget);
    case Fills(b', remaining, budget', ts) =>
      CrossKeepsTime(r, b', o.(remaining := remaining), budget');
  }

  /** An order with lots left after a round is the same order, lowered. */
  lemma StillResting(r: Rules, b: Book, o: Order, budget: nat, e: Order) returns (e': Order)
    requires Sound(b) && Lawful(r.strategy) && !OneRound(r, b, o, budget).Halt?
    requires Rests(b, e) && LotsAt(OneRound(r, b, o, budget).book, e.side, e.price, e.id) > 0
    ensures Rests(OneRound(r, b, o, budget).book, e') && e' == e.(remaining := e'.remaining)
  {
    hide OneRound, Lots, GoodBook, Fitting, Rests;
    var b' := OneRound(r, b, o, budget).book;
    RoundProgress(r, b, o, budget);
    LotsFound(Queue(b', e.side, e.price), e.id);
    e' :| e' in Queue(b', e.side, e.price) && e'.id == e.id;
    RestsAt(b', e.side, e.price, e');
    RoundLowers(r, b, o, budget, e');
  }

  lemma GoneStaysGone(r: Rules, b: Book, o: Order, budget: nat, p: Price, id: OrderId)
    requires Sound(b) && Lawful(r.strategy) && LotsAt(b, o.side.Opposite(), p, id) == 0
    ensures LotsAt(Cross(r, b, o, budget).book, o.side.Opposite(), p, id) == 0
  {
    hide Sound, Lawful, Cross, LotsAt;
    MakersConserve(r, b, o, budget, p, id);
  }

  /** A maker of the rest of a run was resting before the round, with the same stamp. */
  lemma LaterMaker(r: Rules, b: Book, o: Order, budget: nat, o': Order, t: Trade, m: Order) returns (m': Order)
    requires Sound(b) && Lawful(r.strategy) && !OneRound(r, b, o, budget).Halt?
    requires o' == o.(remaining := o'.remaining) && ProperTrade(r, OneRound(r, b, o, budget).book, o', t)
    requires Rests(b, m) && m.id == t.maker
    ensures Rests(OneRound(r, b, o, budget).book, m') && m' == m.(remaining := m'.remaining) && m'.id == t.maker
  {
    hide OneRound, Lots, GoodBook, Fitting, Rests, Lawful;
    m' :| MakerOf(OneRound(r, b, o, budget).book, o', t, m');
    RoundLowers(r, b, o, budget, m');
  }

  /** Time priority over a whole run. */
  lemma {:induction false} TimePriority(r: Rules, b: Book, o: Order, budget: nat, k: nat, e: Order, m: Order)
    requires Sound(b) && TimeOrdered(b) && r.strategy == PriceTimePriority && Lawful(r.strategy)
    requires k < |Cross(r, b, o, budget).trades|
    requires Rests(b, e) && Rests(b, m) && e.side == m.side == o.side.Opposite() && e.price == m.price
    requires var t := Cross(r, b, o, budget).trades[k]; m.price == t.price && m.id == t.maker
    requires e.timestamp < m.timestamp
    ensures LotsAt(Cross(r, b, o, budget).book, e.side, e.price, e.id) == 0
    decreases o.remaining, |Resting(b)|
  {
    hide Sound, Lawful, OneRound, Resting, TimeOrdered, LotsAt, Rests, ProperTrade;
    RoundProgress(r, b, o, budget);
    if !OneRound(r, b, o, budget).Halt? {
      RoundKeepsTime(r, b, o, budget);
    }
    match OneRound(r, b, o, budget)
    case Halt =>
    case StopTaker(b', ids) =>
    case Pull(b', ids) =>
      LaterPriority(r, b, o, budget, o, budget, k, e, m);
    case Fills(b', remaining, budget', ts) =>
      var o' := o.(remaining := remaining);
      if k < |ts| {
        FifoRound(r, b, o, budget, k, e, m);
        GoneStaysGone(r, b', o', budget', e.price, e.id);
      } else {
        LaterPriority(r, b, o, budget, o', budget', k - |ts|, e, m);
      }
  }

  /** Time priority for a trade after the first round. */
  lemma {:induction false} LaterPriority(r: Rules, b: Book, o: Order, budget: nat, o': Order, budget': nat, k: nat,
                                         e: Order, m: Order)
    requires Sound(b) && TimeOrdered(b) && r.strategy == PriceTimePriority && Lawful(r.strategy)
    requires !OneRound(r, b, o, budget).Halt? && o' == o.(remaining := o'.remaining)
    requires var b' := OneRound(r, b, o, budget).book;
             && Sound(b') && TimeOrdered(b')
             && (o'.remaining < o.remaining || (o'.remaining == o.remaining && |Resting(b')| < |Resting(b)|))
             && k < |Cross(r, b', o', budget').trades|
             && m.price == Cross(r, b', o', budget').trades[k].price
               && m.id == Cross(r, b', o', budget').trades[k].maker
    requires Rests(b, e) && Rests(b, m) && e.side == m.side == o.side.Opposite() && e.price == m.price
    requires e.timestamp < m.timestamp
    ensures LotsAt(Cross(r, OneRound(r, b, o, budget).book, o', budget').book, e.side, e.price, e.id) == 0
    decreases o.remaining, |Resting(b)|, 0
  {
    hide Sound, Lawful, OneRound, Resting, TimeOrdered, LotsAt, Rests, ProperTrade, Cross;
    var b' := OneRound(r, b, o, budget).book;
    var t := Cross(r, b', o', budget').trades[k];
    TradesAreProper(r, b', o', budget', k);
    if LotsAt(b', e.side, e.price, e.id) == 0 {
      GoneStaysGone(r, b', o', budget', e.price, e.id);
    } else {
      var e' := StillResting(r, b, o, budget, e);
      var m' := LaterMaker(r, b, o, budget, o', t, m);
      TimePriority(r, b', o', budget', k, e', m');
    }
  }

  // --- filling in turn ------------------------------------------------------------------------------------

  lemma {:induction false} NothingAt(view: seq<RestingOrder>, order: seq<nat>, n: nat, i: nat)
    requires (forall k :: 0 <= k < |order| ==> order[k] < |view|) && i !in order
    ensures AllocatedAt(Greedy(view, order, n), i) == 0
    decreases |order|
  {
    if order != [] && n > 0 {
      var fill := Min(n, view[order[0]].remaining);
      NothingAt(view, order[1..], n - fill, i);
      FrontAllocation(view, order, n, i);
    }
  }

  lemma FrontAllocation(view: seq<RestingOrder>, order: seq<nat>, n: nat, i: nat)
    requires (forall k :: 0 <= k < |order| ==> order[k] < |view|) && order != [] && n > 0
    ensures var fill := Min(n, view[order[0]].remaining);
            AllocatedAt(Greedy(view, order, n), i) ==
              (if order[0] == i then fill else 0) + AllocatedAt(Greedy(view, order[1..], n - fill), i)
  {
    var fill := Min(n, view[order[0]].remaining);
    var rest := Greedy(view, order[1..], n - fill);
    var out := Greedy(view, order, n);
    if fill > 0 {
      assert out == [Allocation(view[order[0]].id, fill, order[0])] + rest;
      assert out[0].idx == order[0] && out[0].qty == fill && out[1..] == rest;
    } else {
      assert out == rest;
    }
  }

  /** Greedy filling goes in turn: nobody gets lots before everyone ahead of them in the order is filled. */
  lemma {:induction false} GreedyInTurn(view: seq<RestingOrder>, order: seq<nat>, n: nat, j: nat, k: nat)
    requires (forall x :: 0 <= x < |order| ==> order[x] < |view|) && DistinctPositions(order) && j < k < |order|
    ensures AllocatedAt(Greedy(view, order, n), order[k]) > 0 ==>
              AllocatedAt(Greedy(view, order, n), order[j]) == view[order[j]].remaining
    decreases |order|
  {
    hide Greedy;
    if n == 0 {
      NoLotsAtAll(view, order, order[k]);
    } else {
      var fill := Min(n, view[order[0]].remaining);
      var rest := order[1..];
      assert forall x :: 0 <= x < |rest| ==> rest[x] == order[x + 1];
      FrontAllocation(view, order, n, order[j]);
      FrontAllocation(view, order, n, order[k]);
      if j > 0 {
        GreedyInTurn(view, rest, n - fill, j - 1, k - 1);
      } else {
        NothingAt(view, rest, n - fill, order[0]);
        if n - fill == 0 {
          NoLotsAtAll(view, rest, order[k]);
        }
      }
    }
  }

  lemma NoLotsAtAll(view: seq<RestingOrder>, order: seq<nat>, i: nat)
    requires forall k :: 0 <= k < |order| ==> order[k] < |view|
    ensures AllocatedAt(Greedy(view, order, 0), i) == 0
  {}

  /**
   Size priority: an order gets lots only when every larger one of its level is filled, and among
   equals every earlier one.
   */
  lemma LargestFirst(view: seq<RestingOrder>, n: Qty, i: nat, j: nat)
    requires i < |view| && j < |view|
    requires view[i].remaining > view[j].remaining
             || (view[i].remaining == view[j].remaining
                 && (view[i].timestamp < view[j].timestamp || (view[i].timestamp == view[j].timestamp && i < j)))
    ensures AllocatedAt(BySize(view, n), j) > 0 ==> AllocatedAt(BySize(view, n), i) == view[i].remaining
  {
    hide Greedy, SizeOrder, AllocatedAt, TotalSeen, TotalAt;
    var order := SizeOrder(view, |view|);
    SizeOrderSorted(view, |view|);
    SortedIsDistinct(view, order);
    assert i in order && j in order;
    var x :| 0 <= x < |order| && order[x] == i;
    var y :| 0 <= y < |order| && order[y] == j;
    assert x < y;
    GreedyInTurn(view, order, n, x, y);
  }
}
