/**
 Matching on plain books: the crossing loop as a function of the book, one round per level
 visited.
 */
module Matching {
  import opened Types
  import opened Books
  import opened Strategies
  import opened Queues
  import opened Arithmetic

  /** Self-trade prevention: which side gives way, if any. */
  datatype SelfTradePolicy = Allow | CancelTaker | CancelMaker | CancelBoth

  datatype Trade = Trade(
    taker: OrderId, maker: OrderId, aggressor: Side, price: Price, quantity: Qty,
    timestamp: u64, makerUser: User, takerUser: User)

  /** What a crossing run is parameterised by: strategy, policy and the engine's sequence number. */
  datatype Rules = Rules(strategy: Strategy, policy: SelfTradePolicy, now: u64)

  const U128_MAX: nat := 0xFFFF_FFFF_FFFF_FFFF_FFFF_FFFF_FFFF_FFFF

  // --- sound books -----------------------------------------------------------------------------

  ghost predicate Fitting(b: Book) {
    forall side, p :: Total(Queue(b, side, p)) <= U64_MAX
  }

  /** Well-formed, ids unique across the book, level totals within the machine word. */
  ghost predicate Sound(b: Book) {
    GoodBook(b) && IdsUnique(b) && Fitting(b)
  }

  // --- pieces of one round -----------------------------------------------------------------------

  /** `px` is within the taker's limit; a market order has none. */
  predicate Crosses(o: Order, px: Price) {
    o.orderType == Market || !Better(o.side.Opposite(), o.price, px)
  }

  /** Lots the budget affords at `px`. */
  function Affordable(budget: nat, px: Price, remaining: Qty): Qty {
    Min(budget / (if px == 0 then 1 else px), remaining)
  }

  /** The part of the level the strategy is shown. */
  function Shown(s: Strategy, q: seq<Order>, affordable: Qty): seq<Order> {
    if s.fullLevelRequired then q else Capped(q, affordable)
  }

  predicate Prevents(policy: SelfTradePolicy, user: User) {
    policy != Allow && user != 0
  }

  predicate HasOwn(v: seq<Order>, user: User) {
    exists i :: 0 <= i < |v| && v[i].user == user
  }

  /** Ids of the user's own orders in a view, in view order. */
  function OwnIds(v: seq<Order>, user: User): seq<OrderId> {
    if v == [] then []
    else (if v[0].user == user then [v[0].id] else []) + OwnIds(v[1..], user)
  }

  /** The queue after a list of its orders was cancelled one by one. */
  function Pulled(q: seq<Order>, ids: seq<OrderId>): seq<Order>
    decreases |ids|
  {
    if ids == [] then q else Pulled(SetRemaining(q, ids[0], 0), ids[1..])
  }

  function FillsOf(out: seq<Allocation>): (r: seq<Fill>)
    ensures |r| == |out| && forall k :: 0 <= k < |out| ==> r[k] == Fill(out[k].id, out[k].qty)
  {
    seq(|out|, k requires 0 <= k < |out| => Fill(out[k].id, out[k].qty))
  }

  function TradeOf(r: Rules, o: Order, px: Price, v: seq<Order>, a: Allocation): Trade {
    Trade(o.id, a.id, o.side, px, a.qty, r.now, if a.idx < |v| then v[a.idx].user else 0, o.user)
  }

  function TradesOf(r: Rules, o: Order, px: Price, v: seq<Order>, out: seq<Allocation>): (ts: seq<Trade>)
    ensures |ts| == |out| && forall k :: 0 <= k < |out| ==> ts[k] == TradeOf(r, o, px, v, out[k])
  {
    seq(|out|, k requires 0 <= k < |out| => TradeOf(r, o, px, v, out[k]))
  }

  // --- one round --------------------------------------------------------------------------------

  datatype Round =
    | Halt
    | StopTaker(book: Book, pulled: seq<OrderId>)
    | Pull(book: Book, pulled: seq<OrderId>)
    | Fills(book: Book, remaining: int, budget: int, trades: seq<Trade>)

  /** One iteration of the crossing loop. */
  ghost function OneRound(r: Rules, b: Book, o: Order, budget: nat): Round {
    var side := o.side.Opposite();
    var best := Best(b, side);
    if o.remaining == 0 || best.None? || !Crosses(o, best.value) then Halt
    else
      var px := best.value;
      var n := Affordable(budget, px, o.remaining);
      if n == 0 then Halt
      else
        var q := Queue(b, side, px);
        var v := Shown(r.strategy, q, n);
        if Prevents(r.policy, o.user) && HasOwn(v, o.user) then
          if r.policy.CancelTaker? then StopTaker(b, [])
          else
            var ids := OwnIds(v, o.user);
            var b' := WithQueue(b, side, px, Pulled(q, ids));
            if r.policy.CancelBoth? then StopTaker(b', ids) else Pull(b', ids)
        else
          var out := r.strategy.allocate(SeenAll(v), n);
          if out == [] then Halt
          else
            Fills(WithQueue(b, side, px, FilledAll(q, FillsOf(out))),
                  o.remaining - Allocated(out),
                  budget - Notional(px, Allocated(out)),
                  TradesOf(r, o, px, v, out))
  }

  // --- replacing a queue by a lowered one -----------------------------------------------------------

  lemma ResoundIds(b: Book, side: Side, p: Price, q': seq<Order>, o: Order)
    requires Sound(b) && Lowered(Queue(b, side, p), q', side, p)
    requires Rests(WithQueue(b, side, p, q'), o)
    ensures exists o0 :: Rests(b, o0) && o0.(remaining := o.remaining) == o && o.remaining <= o0.remaining
  {
    hide WithQueue, Best, Queue, GoodBook, IdsUnique, Fitting, Comes, GoodQueue, InTimeOrder, Total;
    var q := Queue(b, side, p);
    QueueWithQueue(b, side, p, q', o.side, o.price);
    if o.side == side && o.price == p {
      var j :| 0 <= j < |q'| && q'[j] == o;
      var i := ComesFrom(q, o);
      assert q[i] in q && Rests(b, q[i]);
    } else {
      assert Rests(b, o) && o.(remaining := o.remaining) == o;
    }
  }

  lemma ComesFrom(q: seq<Order>, o: Order) returns (i: nat)
    requires Comes(q, o)
    ensures i < |q| && q[i].(remaining := o.remaining) == o && o.remaining <= q[i].remaining
  {
    i :| 0 <= i < |q| && q[i].(remaining := o.remaining) == o && o.remaining <= q[i].remaining;
  }

  lemma GoodAt(b: Book, side: Side, p: Price)
    requires GoodBook(b)
    ensures GoodQueue(Queue(b, side, p), side, p)
  {}

  lemma Resound(b: Book, side: Side, p: Price, q': seq<Order>)
    requires Sound(b) && Lowered(Queue(b, side, p), q', side, p)
    ensures Sound(WithQueue(b, side, p, q'))
  {
    hide WithQueue, Queue, GoodQueue, Total, AllCome, InTimeOrder, Rests;
    var b' := WithQueue(b, side, p, q');
    ResoundGood(b, side, p, q');
    forall side', p' ensures Total(Queue(b', side', p')) <= U64_MAX {
      QueueWithQueue(b, side, p, q', side', p');
    }
    forall o, o' | Rests(b', o) && Rests(b', o') && o.id == o'.id ensures o == o' {
      ResoundIds(b, side, p, q', o);
      ResoundIds(b, side, p, q', o');
      SamePlace(b', o, o');
    }
  }

  lemma SamePlace(b: Book, o: Order, o': Order)
    requires GoodBook(b) && Rests(b, o) && Rests(b, o') && o.id == o'.id && o.side == o'.side && o.price == o'.price
    ensures o == o'
  {
    GoodAt(b, o.side, o.price);
  }

  lemma ResoundGood(b: Book, side: Side, p: Price, q': seq<Order>)
    requires Sound(b) && Lowered(Queue(b, side, p), q', side, p)
    ensures GoodBook(WithQueue(b, side, p, q'))
  {
    hide WithQueue, GoodQueue, Total, AllCome, InTimeOrder, IdsUnique, Fitting;
    var b' := WithQueue(b, side, p, q');
    WithQueueNoEmpty(b, side, p, q');
    GoodAt(b, side, p);
    forall side', p' | p' in Levels(b', side')
      ensures Queue(b', side', p') != [] && GoodQueue(Queue(b', side', p'), side', p')
    {
      QueueWithQueue(b, side, p, q', side', p');
      GoodAt(b, side', p');
    }
  }

  // --- what a round works on ---------------------------------------------------------------------------

  /** The level a round visits, what the strategy is shown of it and what it answers. */
  ghost function Level(b: Book, o: Order): seq<Order> {
    var best := Best(b, o.side.Opposite());
    if best.None? then [] else Queue(b, o.side.Opposite(), best.value)
  }

  ghost function Wanted(r: Rules, b: Book, o: Order, budget: nat): Qty {
    var best := Best(b, o.side.Opposite());
    if best.None? then 0 else Affordable(budget, best.value, o.remaining)
  }

  ghost function ShownLevel(r: Rules, b: Book, o: Order, budget: nat): seq<Order> {
    Shown(r.strategy, Level(b, o), Wanted(r, b, o, budget))
  }

  ghost function Answer(r: Rules, b: Book, o: Order, budget: nat): seq<Allocation> {
    r.strategy.allocate(SeenAll(ShownLevel(r, b, o, budget)), Wanted(r, b, o, budget))
  }

  /** What is shown is a front of the level, live, and enough for the lots wanted. */
  lemma ShownIsFront(r: Rules, b: Book, o: Order, budget: nat)
    requires Sound(b) && Best(b, o.side.Opposite()).Some?
    ensures var q, v := Level(b, o), ShownLevel(r, b, o, budget);
            && |v| <= |q| && v == q[..|v|] && v != []
            && GoodQueue(q, o.side.Opposite(), Best(b, o.side.Opposite()).value)
            && Positive(SeenAll(v)) && TotalSeen(SeenAll(v)) <= U64_MAX
            && (|v| == |q| || Total(v) >= Wanted(r, b, o, budget))
            && TotalSeen(SeenAll(v)) == Total(v)
  {
    hide Best, Capped, Total, TotalSeen, IdsUnique;
    var q, v := Level(b, o), ShownLevel(r, b, o, budget);
    GoodAt(b, o.side.Opposite(), Best(b, o.side.Opposite()).value);
    CappedIsFront(q, Wanted(r, b, o, budget));
    TotalSeenAll(v);
    assert q == q[..|v|] + q[|v|..];
    TotalConcat(q[..|v|], q[|v|..]);
  }

  lemma {:induction false} FillQtyIsAllocated(out: seq<Allocation>)
    ensures FillQty(FillsOf(out)) == Allocated(out)
  {
    if out != [] {
      assert FillsOf(out)[1..] == FillsOf(out[1..]);
      FillQtyIsAllocated(out[1..]);
    }
  }

  /** An answer that honours the contract on a front of a level is a list of fills that fit it. */
  lemma AnswerFits(q: seq<Order>, v: seq<Order>, n: nat, out: seq<Allocation>, side: Side, p: Price)
    requires GoodQueue(q, side, p) && |v| <= |q| && v == q[..|v|] && Honours(SeenAll(v), n, out)
    ensures FillsFit(q, FillsOf(out)) && DistinctFills(FillsOf(out))
    ensures forall k :: 0 <= k < |out| ==> out[k].idx < |v| && out[k].id == v[out[k].idx].id
                                           && 0 < out[k].qty <= Lots(q, out[k].id)
  {
    hide Lots, Allocated, TotalSeen;
    var fills := FillsOf(out);
    forall k | 0 <= k < |out|
      ensures out[k].idx < |v| && out[k].id == v[out[k].idx].id && 0 < out[k].qty <= Lots(q, out[k].id)
    {
      assert WithinOrder(SeenAll(v), out[k]);
      var o := q[out[k].idx];
      assert o in q;
      LotsOf(q, o);
    }
    DistinctFillsFit(q, fills, side, p);
  }

  // --- what validation leaves open ---------------------------------------------------------------

  /** Lots an answer takes from the order at position `i` of the view. */
  function AllocatedAt(out: seq<Allocation>, i: nat): nat {
    if out == [] then 0 else (if out[0].idx == i then out[0].qty else 0) + AllocatedAt(out[1..], i)
  }

  lemma {:induction false} AllocatedAtIs(v: seq<Order>, out: seq<Allocation>, i: nat)
    requires DistinctIds(v) && i < |v| && Within(SeenAll(v), out)
    ensures FillQtyOf(FillsOf(out), v[i].id) == AllocatedAt(out, i)
    decreases |out|
  {
    if out != [] {
      assert WithinOrder(SeenAll(v), out[0]);
      forall k | 0 <= k < |out[1..]| ensures WithinOrder(SeenAll(v), out[1..][k]) {
        assert WithinOrder(SeenAll(v), out[k + 1]);
      }
      assert FillsOf(out)[1..] == FillsOf(out[1..]);
      AllocatedAtIs(v, out[1..], i);
      var j := out[0].idx;
      assert v[j].id == v[i].id <==> j == i;
    }
  }

  lemma {:induction false} AllocatedElsewhere(v: seq<Order>, out: seq<Allocation>, id: OrderId)
    requires Within(SeenAll(v), out) && forall i :: 0 <= i < |v| ==> v[i].id != id
    ensures FillQtyOf(FillsOf(out), id) == 0
    decreases |out|
  {
    if out != [] {
      assert WithinOrder(SeenAll(v), out[0]) && v[out[0].idx].id != id;
      forall k | 0 <= k < |out[1..]| ensures WithinOrder(SeenAll(v), out[1..][k]) {
        assert WithinOrder(SeenAll(v), out[k + 1]);
      }
      assert FillsOf(out)[1..] == FillsOf(out[1..]);
      AllocatedElsewhere(v, out[1..], id);
    }
  }

  /**
   Applying the fills of an answer that `validate` accepts over-fills no order exactly when no
   order of the view is given more lots in all than it has.
   */
  lemma ValidatedFits(q: seq<Order>, n: nat, out: seq<Allocation>, side: Side, p: Price)
    requires GoodQueue(q, side, p) && n <= |q| && Within(SeenAll(q[..n]), out)
    ensures FillsFit(q, FillsOf(out)) <==> forall i :: 0 <= i < n ==> AllocatedAt(out, i) <= q[i].remaining
  {
    hide Lots, GoodQueue, FillsFit, AllocatedAt, FillQtyOf;
    var v, fills := q[..n], FillsOf(out);
    forall k | 0 <= k < |fills| ensures fills[k].qty > 0 {
      assert WithinOrder(SeenAll(v), out[k]);
    }
    FillsFitExact(q, fills, side, p);
    GoodIsDistinct(q, side, p);
    forall i | 0 <= i < n
      ensures FillQtyOf(fills, q[i].id) <= Lots(q, q[i].id) <==> AllocatedAt(out, i) <= q[i].remaining
    {
      assert v[i] == q[i] && q[i] in q;
      AllocatedAtIs(v, out, i);
      LotsOf(q, q[i]);
    }
    if FillsFit(q, fills) {
      forall i | 0 <= i < n ensures AllocatedAt(out, i) <= q[i].remaining {
        assert FillQtyOf(fills, q[i].id) <= Lots(q, q[i].id);
      }
    } else {
      var id: OrderId :| FillQtyOf(fills, id) > Lots(q, id);
      if i :| 0 <= i < n && q[i].id == id {
        assert AllocatedAt(out, i) > q[i].remaining;
      } else {
        AllocatedElsewhere(v, out, id);
      }
    }
  }

  /** `validate` accepts an answer that takes two lots from an order of one: its fills do not fit. */
  lemma ValidateAdmitsOverfill()
    ensures var q := [Order(1, 0, 0, Sell, Limit, Gtc, 5, 1, 1, 1), Order(2, 0, 0, Sell, Limit, Gtc, 5, 1, 1, 2)];
            var out := [Allocation(1, 1, 0), Allocation(1, 1, 0)];
            && GoodQueue(q, Sell, 5) && Within(SeenAll(q), out) && Allocated(out) == Min(2, TotalSeen(SeenAll(q)))
            && AllocatedAt(out, 0) == 2 > q[0].remaining && !FillsFit(q, FillsOf(out))
  {
    hide FillsFit;
    var q := [Order(1, 0, 0, Sell, Limit, Gtc, 5, 1, 1, 1), Order(2, 0, 0, Sell, Limit, Gtc, 5, 1, 1, 2)];
    var out := [Allocation(1, 1, 0), Allocation(1, 1, 0)];
    var view := SeenAll(q);
    assert view[1..] == [view[1]] && view[1..][1..] == [];
    assert out[1..] == [out[1]] && out[1..][1..] == [];
    assert q[..2] == q;
    ValidatedFits(q, 2, out, Sell, 5);
  }

  // --- a trading round -----------------------------------------------------------------------------

  ghost predicate Trading(r: Rules, b: Book, o: Order, budget: nat) {
    OneRound(r, b, o, budget).Fills?
  }

  /** A trading round: the lots taken are positive, affordable and exactly what the level gives. */
  lemma TradingRound(r: Rules, b: Book, o: Order, budget: nat)
    requires Sound(b) && Lawful(r.strategy) && Trading(r, b, o, budget)
    ensures Best(b, o.side.Opposite()).Some?
    ensures var q, v, n, out := Level(b, o), ShownLevel(r, b, o, budget), Wanted(r, b, o, budget),
            Answer(r, b, o, budget);
            && n > 0 && Honours(SeenAll(v), n, out) && out != []
            && FillsFit(q, FillsOf(out)) && DistinctFills(FillsOf(out))
            && Allocated(out) == Min(n, Total(v)) == Min(n, Total(q)) && 0 < Allocated(out) <= o.remaining
            && Crosses(o, Best(b, o.side.Opposite()).value)
  {
    hide Best, Total, Capped, WithQueue, FilledAll, Honours, FillsFit, IdsUnique, DistinctFills;
    ShownIsFront(r, b, o, budget);
    var q, v, n, out := Level(b, o), ShownLevel(r, b, o, budget), Wanted(r, b, o, budget), Answer(r, b, o, budget);
    assert Honours(SeenAll(v), n, out);
    AnswerFits(q, v, n, out, o.side.Opposite(), Best(b, o.side.Opposite()).value);
    AllocatedTotals(q, v, n, out);
  }

  lemma AllocatedTotals(q: seq<Order>, v: seq<Order>, n: nat, out: seq<Allocation>)
    requires Honours(SeenAll(v), n, out) && n > 0 && v != [] && |v| <= |q| && v == q[..|v|]
    requires Positive(SeenAll(v)) && TotalSeen(SeenAll(v)) == Total(v) && (|v| == |q| || Total(v) >= n)
    ensures Allocated(out) == Min(n, Total(v)) == Min(n, Total(q)) && Allocated(out) > 0
  {
    assert q == v + q[|v|..];
    TotalConcat(v, q[|v|..]);
    assert SeenAll(v)[0].remaining > 0;
  }

  // --- budgets --------------------------------------------------------------------------------------------

  /** What the budget affords never costs more than the budget, so the saturating subtraction is exact. */
  lemma AffordableIsPaid(budget: nat, px: Price, remaining: Qty, lots: nat)
    requires lots <= Affordable(budget, px, remaining)
    ensures Notional(px, lots) <= budget
  {
    var d := if px == 0 then 1 else px;
    QuotientTimes(budget, d);
    MulMono(px, lots, budget / d);
    MulMonoLeft(px, d, budget / d);
  }

  // --- cancelling own makers ---------------------------------------------------------------------------------

  lemma {:induction false} PulledLowers(q: seq<Order>, ids: seq<OrderId>, side: Side, p: Price)
    ensures Lowered(q, Pulled(q, ids), side, p)
    decreases |ids|
  {
    hide Lowered, SetRemaining, Lots;
    if ids == [] {
      LoweredSame(q, side, p);
    } else {
      SetRemainingLowers(q, ids[0], 0, side, p);
      PulledLowers(SetRemaining(q, ids[0], 0), ids[1..], side, p);
      LoweredTwice(q, SetRemaining(q, ids[0], 0), Pulled(q, ids), side, p);
    }
  }

  /** The cancelled orders are gone, the others keep their lots. */
  lemma {:induction false} PulledLots(q: seq<Order>, ids: seq<OrderId>, id: OrderId, side: Side, p: Price)
    requires GoodQueue(q, side, p)
    ensures Lots(Pulled(q, ids), id) == if id in ids then 0 else Lots(q, id)
    decreases |ids|
  {
    hide GoodQueue, SetRemaining, Lots;
    if ids != [] {
      SetRemainingLowers(q, ids[0], 0, side, p);
      GoodIsDistinct(q, side, p);
      SetRemainingLots(q, ids[0], 0, id);
      PulledLots(SetRemaining(q, ids[0], 0), ids[1..], id, side, p);
      assert ids == [ids[0]] + ids[1..];
    }
  }

  lemma {:induction false} OwnIdsAre(v: seq<Order>, user: User, id: OrderId)
    ensures id in OwnIds(v, user) <==> exists i :: 0 <= i < |v| && v[i].user == user && v[i].id == id
  {
    if v != [] {
      OwnIdsAre(v[1..], user, id);
      assert forall i :: 0 <= i < |v| - 1 ==> v[1..][i] == v[i + 1];
    }
  }

  /** Cancelling at least one order of a level leaves strictly fewer orders on the book. */
  lemma PulledFewer(b: Book, side: Side, p: Price, ids: seq<OrderId>, gone: Order)
    requires Sound(b) && gone in Queue(b, side, p) && gone.id in ids
    ensures var b' := WithQueue(b, side, p, Pulled(Queue(b, side, p), ids));
            Sound(b') && |Resting(b')| < |Resting(b)|
  {
    hide WithQueue, Pulled, IdsUnique, Fitting, Lowered, GoodQueue, Rests, Best;
    var q := Queue(b, side, p);
    var b' := WithQueue(b, side, p, Pulled(q, ids));
    PulledLowers(q, ids, side, p);
    Resound(b, side, p, Pulled(q, ids));
    forall o | o in Resting(b') ensures o in Resting(b) && o != gone {
      PulledStill(b, side, p, ids, gone, o);
    }
    GoodAt(b, side, p);
    RestsAt(b, side, p, gone);
    RestingAre(b, gone);
    assert Resting(b') <= Resting(b) - {gone};
    CardinalityMono(Resting(b'), Resting(b) - {gone});
  }

  lemma CardinalityMono<T>(a: set<T>, b: set<T>)
    requires a <= b
    ensures |a| <= |b|
  {
    if a != {} {
      var x :| x in a;
      CardinalityMono(a - {x}, b - {x});
    }
  }

  lemma RestsAt(b: Book, side: Side, p: Price, o: Order)
    requires GoodBook(b) && o in Queue(b, side, p)
    ensures Rests(b, o) && o.side == side && o.price == p
  {
    GoodAt(b, side, p);
  }

  /** An order still resting after cancels rested before, unlowered, and is none of the cancelled. */
  lemma PulledStill(b: Book, side: Side, p: Price, ids: seq<OrderId>, gone: Order, o: Order)
    requires Sound(b) && gone in Queue(b, side, p) && gone.id in ids
    requires var b' := WithQueue(b, side, p, Pulled(Queue(b, side, p), ids)); Sound(b') && o in Resting(b')
    ensures o in Resting(b) && o != gone
  {
    hide WithQueue, Pulled, IdsUnique, Fitting, Lowered, GoodQueue, Best;
    var q := Queue(b, side, p);
    var b' := WithQueue(b, side, p, Pulled(q, ids));
    RestingAre(b', o);
    RestingAre(b, o);
    QueueWithQueue(b, side, p, Pulled(q, ids), o.side, o.price);
    RestsAt(b, side, p, gone);
    if o.side == side && o.price == p {
      StillThere(q, ids, o, side, p, gone);
      GoodAt(b, side, p);
    }
  }

  lemma StillThere(q: seq<Order>, ids: seq<OrderId>, o: Order, side: Side, p: Price, gone: Order)
    requires o in Pulled(q, ids) && gone.id in ids
    requires GoodQueue(q, side, p)
    ensures o in q && o != gone
  {
    hide Pulled;
    PulledLowers(q, ids, side, p);
    var q' := Pulled(q, ids);
    var j :| 0 <= j < |q'| && q'[j] == o;
    assert Comes(q, o);
    var i :| 0 <= i < |q| && q[i].(remaining := o.remaining) == o && o.remaining <= q[i].remaining;
    LotsOf(q', o);
    LotsOf(q, q[i]);
    PulledLots(q, ids, o.id, side, p);
    PulledLots(q, ids, gone.id, side, p);
  }

  // --- the crossing loop ------------------------------------------------------------------------------------------

  datatype Crossing = Crossing(
    book: Book, remaining: Qty, budget: nat, trades: seq<Trade>, pulled: seq<OrderId>, stopped: bool)

  /** Every round leaves a sound book and makes progress. */
  lemma RoundProgress(r: Rules, b: Book, o: Order, budget: nat)
    requires Sound(b) && Lawful(r.strategy)
    ensures match OneRound(r, b, o, budget)
            case Halt => true
            case StopTaker(b', _) => Sound(b')
            case Pull(b', _) => Sound(b') && |Resting(b')| < |Resting(b)|
            case Fills(b', remaining, budget', _) => Sound(b') && 0 <= remaining < o.remaining && budget' >= 0
  {
    hide Best, Sound, Lawful, WithQueue, FilledAll, Pulled, Resting, Capped, Total, Lowered, Honours;
    var side := o.side.Opposite();
    if OneRound(r, b, o, budget).Fills? {
      TradingRound(r, b, o, budget);
      var px, q, out := Best(b, side).value, Level(b, o), Answer(r, b, o, budget);
      FilledAllLowers(q, FillsOf(out), side, px);
      Resound(b, side, px, FilledAll(q, FillsOf(out)));
      AffordableIsPaid(budget, px, o.remaining, Allocated(out));
    } else if !OneRound(r, b, o, budget).Halt? {
      PullingRound(r, b, o, budget);
    }
  }

  lemma PullingRound(r: Rules, b: Book, o: Order, budget: nat)
    requires Sound(b) && Best(b, o.side.Opposite()).Some?
    requires HasOwn(ShownLevel(r, b, o, budget), o.user)
    ensures var b' := WithQueue(b, o.side.Opposite(), Best(b, o.side.Opposite()).value,
                                Pulled(Level(b, o), OwnIds(ShownLevel(r, b, o, budget), o.user)));
            Sound(b') && |Resting(b')| < |Resting(b)|
  {
    hide Best, Sound, WithQueue, Pulled, Resting, Capped, GoodQueue, Positive, Total, TotalSeen;
    ShownIsFront(r, b, o, budget);
    var v := ShownLevel(r, b, o, budget);
    var i :| 0 <= i < |v| && v[i].user == o.user;
    OwnIdsAre(v, o.user, v[i].id);
    assert v[i] == Level(b, o)[i];
    PulledFewer(b, o.side.Opposite(), Best(b, o.side.Opposite()).value, OwnIds(v, o.user), v[i]);
  }

  /** The crossing loop, run to its end. */
  ghost function Cross(r: Rules, b: Book, o: Order, budget: nat): Crossing
    requires Sound(b) && Lawful(r.strategy)
    decreases o.remaining, |Resting(b)|
  {
    RoundProgress(r, b, o, budget);
    match OneRound(r, b, o, budget)
    case Halt => Crossing(b, o.remaining, budget, [], [], false)
    case StopTaker(b', ids) => Crossing(b', o.remaining, budget, [], ids, true)
    case Pull(b', ids) =>
      var c := Cross(r, b', o, budget);
      c.(pulled := ids + c.pulled)
    case Fills(b', remaining, budget', ts) =>
      var c := Cross(r, b', o.(remaining := remaining), budget');
      c.(trades := ts + c.trades)
  }
}
