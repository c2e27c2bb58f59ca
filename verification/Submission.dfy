/** Order intake on plain books: prechecks, crossing, resting, amending, and what every run keeps. */
module Submissions {
  import opened Types
  import opened Books
  import opened Queues
  import opened Strategies
  import opened Matching
  import opened Crossings
  import opened Arithmetic
  import opened Prechecks
  import opened Priority
  import opened SelfTrades

  datatype OrderStatus = WhollyFilled | PartiallyFilled | NowResting | Cancelled | Rejected

  datatype Report = Report(status: OrderStatus, filled: Qty, trades: seq<Trade>, pulled: seq<OrderId>, resting: bool)

  // --- before crossing -----------------------------------------------------------------------------

  predicate Budgeted(tif: TimeInForce) {
    tif.IocBudget? || tif.FokBudget?
  }

  /** The ceiling division that converts a budget sell does not overflow. */
  predicate BudgetFits(o: Order) {
    o.side.Sell? && Budgeted(o.tif) ==> o.price + (if o.quantity == 0 then 1 else o.quantity) - 1 <= U64_MAX
  }

  lemma FloorPriceFits(budget: Price, quantity: Qty)
    requires budget + (if quantity == 0 then 1 else quantity) - 1 <= U64_MAX
    ensures FloorPrice(budget, quantity) <= U64_MAX
  {
    var q := if quantity == 0 then 1 else quantity;
    DivisionLaw(budget + q - 1, q);
    MulMonoLeft(1, q, (budget + q - 1) / q);
  }

  /** An order on its way into the crossing loop: stamped, with its limit and its spending cap. */
  datatype Ticket = Ticket(order: Order, budget: nat, admitted: bool)

  /** Stamping, the budget conversions and the two fill-or-kill prechecks. */
  ghost function Ticketed(b: Book, o: Order, now: u64): Ticket
    requires BudgetFits(o)
  {
    var s := o.(timestamp := now, remaining := o.quantity);
    if Budgeted(o.tif) && o.side.Buy? then
      Ticket(s.(price := U64_MAX, tif := IocBudget), o.price,
             o.tif.FokBudget? ==> BudgetCovers(b, Sell, o.quantity, o.price))
    else
      FloorPriceFitsIfBudgeted(o);
      var t := if Budgeted(o.tif) then
        s.(price := FloorPrice(o.price, o.quantity), tif := if o.tif.FokBudget? then Fok else Ioc)
               else s;
      Ticket(t, U128_MAX, t.tif.Fok? ==> t.remaining <= CrossableLots(b, t.side.Opposite(), t.price))
  }

  lemma FloorPriceFitsIfBudgeted(o: Order)
    requires BudgetFits(o)
    ensures Budgeted(o.tif) && o.side.Sell? ==> FloorPrice(o.price, o.quantity) <= U64_MAX
  {
    if Budgeted(o.tif) && o.side.Sell? {
      FloorPriceFits(o.price, o.quantity);
    }
  }

  // --- submitting ------------------------------------------------------------------------------------

  predicate MayRest(o: Order) {
    o.orderType.Limit? && o.tif.Gtc?
  }

  /** Match an order against the book and rest or drop its remainder. `r.now` is the order's stamp. */
  ghost function Submit(r: Rules, b: Book, o: Order): (Book, Report)
    requires Sound(b) && Lawful(r.strategy) && BudgetFits(o)
  {
    var t := Ticketed(b, o, r.now);
    if !t.admitted then (b, Report(Rejected, 0, [], [], false))
    else
      var c := Cross(r, b, t.order, t.budget);
      CrossConserves(r, b, t.order, t.budget);
      var filled := o.quantity - c.remaining;
      var rest := !c.stopped && c.remaining > 0 && MayRest(t.order);
      var status :=
        if !c.stopped && c.remaining == 0 then WhollyFilled
        else if filled > 0 then PartiallyFilled
        else if rest then NowResting
        else Cancelled;
      (if rest then Joined(c.book, t.order.(remaining := c.remaining)) else c.book,
       Report(status, filled, c.trades, c.pulled, rest))
  }

  // --- what a run of the loop keeps of the resting orders ----------------------------------------------

  /** Whatever rests after crossing rested before, with at least that quantity. */
  lemma {:induction false} CrossLowers(r: Rules, b: Book, o: Order, budget: nat, m: Order)
    requires Sound(b) && Lawful(r.strategy) && Rests(Cross(r, b, o, budget).book, m)
    ensures exists m0 :: Rests(b, m0) && m0.(remaining := m.remaining) == m && m.remaining <= m0.remaining
    decreases o.remaining, |Resting(b)|
  {
    hide Sound, Lawful, OneRound, Resting, Rests;
    RoundProgress(r, b, o, budget);
    var rd := OneRound(r, b, o, budget);
    if rd.Halt? {
      assert m.(remaining := m.remaining) == m;
    } else {
      var m1 := m;
      if rd.Pull? {
        CrossLowers(r, rd.book, o, budget, m);
        m1 :| Rests(rd.book, m1) && m1.(remaining := m.remaining) == m && m.remaining <= m1.remaining;
      } else if rd.Fills? {
        CrossLowers(r, rd.book, o.(remaining := rd.remaining), rd.budget, m);
        m1 :| Rests(rd.book, m1) && m1.(remaining := m.remaining) == m && m.remaining <= m1.remaining;
      }
      RoundLowers(r, b, o, budget, m1);
      var m0 :| Rests(b, m0) && m0.(remaining := m1.remaining) == m1 && m1.remaining <= m0.remaining;
      assert m0.(remaining := m.remaining) == m;
    }
  }

  lemma {:induction false} CrossKeepsAmple(r: Rules, b: Book, o: Order, budget: nat)
    requires Sound(b) && Lawful(r.strategy) && Ample(budget, o.remaining)
    ensures Ample(Cross(r, b, o, budget).budget, Cross(r, b, o, budget).remaining)
    decreases o.remaining, |Resting(b)|
  {
    hide Sound, Lawful, OneRound, Resting, Ample;
    RoundProgress(r, b, o, budget);
    match OneRound(r, b, o, budget)
    case Halt =>
    case StopTaker(_, _) =>
    case Pull(b', ids) =>
      CrossKeepsAmple(r, b', o, budget);
    case Fills(b', remaining, budget', ts) =>
      AmpleRound(r, b, o, budget);
      CrossKeepsAmple(r, b', o.(remaining := remaining), budget');
  }

  // --- conservation of quantity ----------------------------------------------------------------------------

  /** What a status says about the outcome. */
  ghost predicate StatusFits(quantity: Qty, rep: Report) {
    match rep.status
    case WhollyFilled => rep.filled == quantity && !rep.resting
    case PartiallyFilled => 0 < rep.filled < quantity
    case NowResting => rep.filled == 0 && rep.resting
    case Cancelled => rep.filled == 0 && !rep.resting
    case Rejected => rep.filled == 0 && !rep.resting && rep.trades == [] && rep.pulled == []
  }

  lemma LotsAtBack(q: seq<Order>, o: Order)
    requires forall i :: 0 <= i < |q| ==> q[i].id != o.id
    ensures Lots(q + [o], o.id) == o.remaining
  {
    NotThere(q, o.id, 0);
    if q == [] {
      assert q + [o] == [o];
    } else {
      LotsAtBack(q[1..], o);
      assert (q + [o])[1..] == q[1..] + [o];
    }
  }

  lemma NoSuchId(b: Book, side: Side, p: Price, id: OrderId)
    requires GoodBook(b) && !HasId(b, id)
    ensures forall i :: 0 <= i < |Queue(b, side, p)| ==> Queue(b, side, p)[i].id != id
  {
    forall i | 0 <= i < |Queue(b, side, p)| ensures Queue(b, side, p)[i].id != id {
      RestsAt(b, side, p, Queue(b, side, p)[i]);
    }
  }

  /**
   Quantity is conserved: an order's quantity is what it traded plus what now rests of it plus
   what was dropped, and something is dropped only when nothing rests.
   */
  lemma SubmitConserves(r: Rules, b: Book, o: Order)
    requires Sound(b) && Lawful(r.strategy) && BudgetFits(o) && !HasId(b, o.id)
    ensures var (b', rep) := Submit(r, b, o);
            var t := Ticketed(b, o, r.now).order;
            var rested := LotsAt(b', o.side, t.price, o.id);
            && rep.filled == Traded(rep.trades)
            && StatusFits(o.quantity, rep)
            && (rep.resting ==> rested > 0 && rep.filled + rested == o.quantity)
            && (!rep.resting ==> rested == 0 && Levels(b', o.side) == Levels(b, o.side))
  {
    hide GoodBook, IdsUnique, Fitting, Lawful, Cross, WithQueue, Traded, Lots;
    var t := Ticketed(b, o, r.now);
    NoSuchId(b, o.side, t.order.price, o.id);
    NotThere(Queue(b, o.side, t.order.price), o.id, 0);
    if t.admitted {
      CrossConserves(r, b, t.order, t.budget);
      StoppedHasLeft(r, b, t.order, t.budget);
      var c := Cross(r, b, t.order, t.budget);
      assert Queue(c.book, o.side, t.order.price) == Queue(b, o.side, t.order.price);
      var rest := t.order.(remaining := c.remaining);
      QueueWithQueue(c.book, o.side, rest.price, Queue(c.book, o.side, rest.price) + [rest], o.side, rest.price);
      LotsAtBack(Queue(b, o.side, t.order.price), rest);
    } else {
      NoTrades();
    }
  }

  lemma {:induction false} StoppedHasLeft(r: Rules, b: Book, o: Order, budget: nat)
    requires Sound(b) && Lawful(r.strategy)
    ensures Cross(r, b, o, budget).stopped ==> Cross(r, b, o, budget).remaining > 0
    decreases o.remaining, |Resting(b)|
  {
    hide Sound, Lawful, Resting, WithQueue, FilledAll, Pulled, Capped, Best;
    RoundProgress(r, b, o, budget);
    match OneRound(r, b, o, budget)
    case Halt =>
    case StopTaker(_, _) =>
    case Pull(b', ids) =>
      StoppedHasLeft(r, b', o, budget);
    case Fills(b', remaining, budget', ts) =>
      StoppedHasLeft(r, b', o.(remaining := remaining), budget');
  }

  // --- the engine as a state machine ----------------------------------------------------------------------

  datatype Engine = Engine(book: Book, clock: u64)

  /** The strategy and the self-trade policy an engine is built with. */
  datatype Setup = Setup(strategy: Strategy, policy: SelfTradePolicy)

  datatype Event = Entry(order: Order) | CancelOne(id: OrderId) | Amend(id: OrderId, price: Price, qty: Qty)
    | CancelUser(user: User)

  function RulesAt(s: Setup, now: u64): Rules {
    Rules(s.strategy, s.policy, now)
  }

  /** Best bid below best ask. */
  ghost predicate Uncrossed(b: Book) {
    forall p, q :: p in Levels(b, Buy) && q in Levels(b, Sell) ==> p < q
  }

  ghost predicate Stamped(b: Book, clock: u64) {
    forall o :: Rests(b, o) ==> o.timestamp <= clock && MayRest(o)
  }

  ghost predicate EngineInv(e: Engine) {
    Sound(e.book) && Uncrossed(e.book) && TimeOrdered(e.book) && Stamped(e.book, e.clock)
  }

  /** An amended order on its way back in. */
  function Requoted(o: Order, price: Price, qty: Qty): Order {
    o.(price := price, quantity := qty, remaining := qty, tif := Gtc)
  }

  predicate InPlace(o: Order, price: Price, qty: Qty) {
    price == o.price && qty <= o.remaining
  }

  /** All of one user's orders taken off the book. */
  function Cleared(b: Book, user: User): Book {
    WithoutUser(WithoutUser(b, Buy, user), Sell, user)
  }

  /** What the engine demands: a fresh id and room for what may rest. */
  ghost predicate Acceptable(b: Book, o: Order) {
    BudgetFits(o) && (MayRest(o) ==> !HasId(b, o.id) && RoomFor(b, o.(remaining := o.quantity)))
  }

  ghost predicate Enabled(e: Engine, ev: Event) {
    match ev
    case Entry(o) => e.clock < U64_MAX && Acceptable(e.book, o)
    case Amend(id, price, qty) =>
      forall o :: Rests(e.book, o) && o.id == id && !InPlace(o, price, qty) ==>
        e.clock < U64_MAX && RoomFor(Removed(e.book, o), Requoted(o, price, qty))
    case CancelOne(_) => true
    case CancelUser(_) => true
  }

  /** The resting order with a given id. */
  ghost function Find(b: Book, id: OrderId): (r: Option<Order>)
    ensures r.Some? ==> Rests(b, r.value) && r.value.id == id
    ensures r.None? ==> !HasId(b, id)
  {
    if o :| Rests(b, o) && o.id == id then Some(o) else None
  }

  ghost function Step(s: Setup, e: Engine, ev: Event): Engine
    requires Sound(e.book) && Lawful(s.strategy) && Enabled(e, ev)
  {
    hide Sound, Lawful, Submit, Reduced, Cleared, Rests, HasId, RoomFor, Find;
    match ev
    case Entry(o) =>
      Engine(Submit(RulesAt(s, e.clock + 1), e.book, o).0, e.clock + 1)
    case CancelOne(id) =>
      var found := Find(e.book, id);
      if found.Some? then e.(book := Removed(e.book, found.value)) else e
    case Amend(id, price, qty) =>
      var found := Find(e.book, id);
      if found.None? then e
      else if InPlace(found.value, price, qty) then e.(book := Reduced(e.book, found.value, qty))
      else
        LeavingKeeps(e, found.value);
        Engine(Submit(RulesAt(s, e.clock + 1), Removed(e.book, found.value), Requoted(found.value, price, qty)).0,
          e.clock + 1)
    case CancelUser(user) => e.(book := Cleared(e.book, user))
  }

  // --- what each kind of change keeps -----------------------------------------------------------------------

  lemma ReducingSound(b: Book, o: Order, qty: Qty)
    requires Sound(b) && Rests(b, o) && qty <= o.remaining
    ensures Sound(Reduced(b, o, qty))
    ensures Lowered(Queue(b, o.side, o.price), SetRemaining(Queue(b, o.side, o.price), o.id, qty), o.side, o.price)
  {
    hide WithQueue, SetRemaining, Lots, Lowered, IdsUnique, Fitting;
    var q := Queue(b, o.side, o.price);
    GoodAt(b, o.side, o.price);
    LotsOf(q, o);
    SetRemainingLowers(q, o.id, qty, o.side, o.price);
    Resound(b, o.side, o.price, SetRemaining(q, o.id, qty));
  }

  lemma LeavingKeeps(e: Engine, o: Order)
    requires Sound(e.book) && Rests(e.book, o)
    ensures Sound(Removed(e.book, o))
  {
    hide Sound;
    ReducingSound(e.book, o, 0);
  }

  /** Fewer levels, and only orders that came from before: the engine invariant is kept. */
  lemma ShrinkingKeeps(e: Engine, b': Book)
    requires EngineInv(e) && Sound(b') && TimeOrdered(b')
    requires forall side, p :: p in Levels(b', side) ==> p in Levels(e.book, side)
    requires forall m :: Rests(b', m) ==> exists m0 :: Rests(e.book, m0) && m0.(remaining := m.remaining) == m
    ensures EngineInv(e.(book := b'))
  {
    hide Sound, TimeOrdered, Rests;
  }

  lemma FewerLevels(b: Book, side: Side, p: Price, q: seq<Order>)
    requires Queue(b, side, p) != []
    ensures forall side', p' :: p' in Levels(WithQueue(b, side, p, q), side') ==> p' in Levels(b, side')
  {}

  lemma ReducingKeeps(e: Engine, o: Order, qty: Qty)
    requires EngineInv(e) && Rests(e.book, o) && qty <= o.remaining
    ensures EngineInv(e.(book := Reduced(e.book, o, qty)))
  {
    hide WithQueue, SetRemaining, Lowered, GoodBook, IdsUnique, Fitting, Uncrossed, Stamped, TimeOrdered;
    var q := Queue(e.book, o.side, o.price);
    var q' := SetRemaining(q, o.id, qty);
    var b' := Reduced(e.book, o, qty);
    ReducingSound(e.book, o, qty);
    LoweredInTime(e.book, o.side, o.price, q');
    FewerLevels(e.book, o.side, o.price, q');
    forall m | Rests(b', m) ensures exists m0 :: Rests(e.book, m0) && m0.(remaining := m.remaining) == m {
      ResoundIds(e.book, o.side, o.price, q', m);
    }
    ShrinkingKeeps(e, b');
  }

  lemma {:induction false} OthersInTime(q: seq<Order>, user: User)
    requires InTimeOrder(q)
    ensures InTimeOrder(Others(q, user))
  {
    if q != [] {
      assert forall i :: 0 <= i < |q| - 1 ==> q[1..][i] == q[i + 1];
      OthersInTime(q[1..], user);
      if q[0].user != user {
        var rest := Others(q[1..], user);
        forall j | 0 <= j < |rest| ensures q[0].timestamp < rest[j].timestamp {
          OthersCome(q[1..], user, rest[j]);
          var i :| 0 <= i < |q[1..]| && q[1..][i] == rest[j];
        }
        EarliestInFront(q[0], rest);
      }
    }
  }

  lemma EarliestInFront(o: Order, q: seq<Order>)
    requires InTimeOrder(q) && forall j :: 0 <= j < |q| ==> o.timestamp < q[j].timestamp
    ensures InTimeOrder([o] + q)
  {}

  lemma WithoutUserKeeps(e: Engine, side: Side, user: User)
    requires EngineInv(e)
    ensures EngineInv(e.(book := WithoutUser(e.book, side, user)))
  {
    hide WithoutUser, Others, Sound, Uncrossed, Stamped, InTimeOrder;
    var b' := WithoutUser(e.book, side, user);
    WithoutUserSound(e.book, side, user);
    forall side', p
      ensures InTimeOrder(Queue(b', side', p)) && (p in Levels(b', side') ==> p in Levels(e.book, side')) {
      WithoutUserQueue(e.book, side, user, side', p);
      OthersInTime(Queue(e.book, side, p), user);
      WithoutUserLevels(e.book, side, user);
      OtherLevels(e.book, side, user);
    }
    forall m | Rests(b', m) ensures exists m0 :: Rests(e.book, m0) && m0.(remaining := m.remaining) == m {
      WithoutUserQueue(e.book, side, user, m.side, m.price);
      OthersCome(Queue(e.book, side, m.price), user, m);
      assert Rests(e.book, m) && m.(remaining := m.remaining) == m;
    }
    ShrinkingKeeps(e, b');
  }

  lemma OtherLevels(b: Book, side: Side, user: User)
    ensures Levels(WithoutUser(b, side, user), side.Opposite()) == Levels(b, side.Opposite())
  {}

  /** Crossing shrinks the book on the side it hits. */
  lemma CrossingKeeps(r: Rules, e: Engine, o: Order, budget: nat)
    requires EngineInv(e) && Lawful(r.strategy)
    ensures EngineInv(e.(book := Cross(r, e.book, o, budget).book))
  {
    hide Sound, Lawful, Cross, Uncrossed, Stamped, TimeOrdered, Rests;
    var c := Cross(r, e.book, o, budget);
    CrossConserves(r, e.book, o, budget);
    CrossKeepsTime(r, e.book, o, budget);
    PricePriority(r, e.book, o, budget);
    forall side, p | p in Levels(c.book, side) ensures p in Levels(e.book, side) {
      assert side == o.side || side == o.side.Opposite();
    }
    forall m | Rests(c.book, m) ensures exists m0 :: Rests(e.book, m0) && m0.(remaining := m.remaining) == m {
      CrossLowers(r, e.book, o, budget, m);
    }
    ShrinkingKeeps(e, c.book);
  }

  // --- an order joins the book ------------------------------------------------------------------------------

  lemma JoiningGood(b: Book, o: Order)
    requires Sound(b) && !HasId(b, o.id) && o.remaining > 0
    ensures GoodBook(Joined(b, o))
  {
    hide WithQueue, IdsUnique, Fitting, HasId, GoodQueue;
    var q := Queue(b, o.side, o.price);
    var b' := Joined(b, o);
    GoodAt(b, o.side, o.price);
    NoSuchId(b, o.side, o.price, o.id);
    GoodBack(q, o);
    SoundNoEmpty(b);
    WithQueueNoEmpty(b, o.side, o.price, q + [o]);
    forall side, p | p in Levels(b', side) ensures Queue(b', side, p) != [] && GoodQueue(Queue(b', side, p), side, p) {
      QueueWithQueue(b, o.side, o.price, q + [o], side, p);
      GoodAt(b, side, p);
    }
  }

  lemma GoodBack(q: seq<Order>, o: Order)
    requires GoodQueue(q, o.side, o.price) && o.remaining > 0 && forall i :: 0 <= i < |q| ==> q[i].id != o.id
    ensures GoodQueue(q + [o], o.side, o.price)
  {}

  /** After a join, what rests is what rested before and the new order. */
  lemma JoinedRests(b: Book, o: Order, m: Order)
    ensures Rests(Joined(b, o), m) <==> Rests(b, m) || m == o
  {
    hide WithQueue;
    QueueWithQueue(b, o.side, o.price, Queue(b, o.side, o.price) + [o], m.side, m.price);
  }

  lemma JoiningSound(b: Book, o: Order)
    requires Sound(b) && !HasId(b, o.id) && o.remaining > 0
    requires Total(Queue(b, o.side, o.price)) + o.remaining <= U64_MAX
    ensures Sound(Joined(b, o))
  {
    hide WithQueue, GoodBook, Rests, Total, Queue, Joined;
    var b' := Joined(b, o);
    JoiningGood(b, o);
    forall side, p ensures Total(Queue(b', side, p)) <= U64_MAX {
      JoinedTotal(b, o, side, p);
    }
    forall m, m' | Rests(b', m) && Rests(b', m') && m.id == m'.id ensures m == m' {
      JoinedRests(b, o, m);
      JoinedRests(b, o, m');
    }
  }

  lemma JoinedTotal(b: Book, o: Order, side: Side, p: Price)
    ensures Total(Queue(Joined(b, o), side, p)) ==
              Total(Queue(b, side, p)) + if side == o.side && p == o.price then o.remaining else 0
  {
    hide WithQueue;
    var q := Queue(b, o.side, o.price);
    QueueWithQueue(b, o.side, o.price, q + [o], side, p);
    TotalConcat(q, [o]);
  }

  lemma JoiningInTime(b: Book, o: Order, clock: u64)
    requires TimeOrdered(b) && Stamped(b, clock) && GoodBook(b) && clock < o.timestamp
    ensures TimeOrdered(Joined(b, o))
  {
    hide WithQueue, Stamped, GoodBook, InTimeOrder;
    var q := Queue(b, o.side, o.price);
    assert InTimeOrder(q);
    LatestAtBack(b, q, o, clock);
    forall side, p ensures InTimeOrder(Queue(Joined(b, o), side, p)) {
      QueueWithQueue(b, o.side, o.price, q + [o], side, p);
    }
  }

  lemma LatestAtBack(b: Book, q: seq<Order>, o: Order, clock: u64)
    requires Stamped(b, clock) && GoodBook(b) && clock < o.timestamp && q == Queue(b, o.side, o.price) && InTimeOrder(q)
    ensures InTimeOrder(q + [o])
  {
    hide Rests, GoodBook;
    forall i | 0 <= i < |q| ensures q[i].timestamp < o.timestamp {
      RestsAt(b, o.side, o.price, q[i]);
    }
  }

  /** The side opposite to a joining order holds nothing it would cross. */
  ghost predicate ClearOf(b: Book, o: Order) {
    forall p :: p in Levels(b, o.side.Opposite()) ==> Better(o.side.Opposite(), o.price, p)
  }

  lemma JoiningUncrossed(b: Book, o: Order)
    requires Uncrossed(b) && ClearOf(b, o)
    ensures Uncrossed(Joined(b, o))
  {
    hide Queue;
    var b' := Joined(b, o);
    forall p, q | p in Levels(b', Buy) && q in Levels(b', Sell) ensures p < q {
      if o.side == Buy {
        assert q in Levels(b, Sell) && (p in Levels(b, Buy) || p == o.price);
        assert q in Levels(b, o.side.Opposite());
      } else {
        assert p in Levels(b, Buy) && (q in Levels(b, Sell) || q == o.price);
        assert p in Levels(b, o.side.Opposite());
      }
    }
  }

  lemma JoiningKeeps(e: Engine, o: Order)
    requires EngineInv(e) && e.clock < o.timestamp && MayRest(o) && !HasId(e.book, o.id) && o.remaining > 0
    requires Total(Queue(e.book, o.side, o.price)) + o.remaining <= U64_MAX && ClearOf(e.book, o)
    ensures EngineInv(Engine(Joined(e.book, o), o.timestamp))
  {
    hide Uncrossed, TimeOrdered, Joined, GoodBook, IdsUnique, Fitting, HasId, Rests, ClearOf, Total;
    JoiningSound(e.book, o);
    JoiningInTime(e.book, o, e.clock);
    JoiningUncrossed(e.book, o);
    forall m | Rests(Joined(e.book, o), m) ensures m.timestamp <= o.timestamp && MayRest(m) {
      JoinedRests(e.book, o, m);
    }
  }

  // --- submitting keeps the invariant -------------------------------------------------------------------------

  /** An ordinary order is left over only when nothing on the other side is within its limit. */
  lemma LeftOverIsClear(r: Rules, b: Book, o: Order)
    requires Sound(b) && Lawful(r.strategy) && o.orderType.Limit?
    ensures var c := Cross(r, b, o, U128_MAX); !c.stopped && c.remaining > 0 ==> ClearOf(c.book, o)
  {
    hide Sound, Lawful, Cross, Ample, Affordable, Best;
    var c, side := Cross(r, b, o, U128_MAX), o.side.Opposite();
    CrossEnds(r, b, o, U128_MAX);
    OrdinaryIsAmple(o.remaining);
    CrossKeepsAmple(r, b, o, U128_MAX);
    if !c.stopped && c.remaining > 0 && Best(c.book, side).Some? {
      BestIsBest(c.book, side);
      AmpleAffords(c.budget, Best(c.book, side).value, c.remaining);
    } else {
      NoBestNoLevels(c.book, side);
    }
  }

  lemma NoBestNoLevels(b: Book, side: Side)
    ensures Best(b, side).None? ==> forall p :: p !in Levels(b, side)
  {}

  lemma FreshAfterCross(r: Rules, b: Book, o: Order, budget: nat)
    requires Sound(b) && Lawful(r.strategy) && !HasId(b, o.id)
    ensures !HasId(Cross(r, b, o, budget).book, o.id)
  {
    hide Sound, Lawful, Cross, Rests;
    forall m | Rests(Cross(r, b, o, budget).book, m) ensures m.id != o.id {
      CrossLowers(r, b, o, budget, m);
    }
  }

  lemma LaterClock(e: Engine, clock: u64)
    requires EngineInv(e) && e.clock <= clock
    ensures EngineInv(e.(clock := clock))
  {
    hide Sound, Uncrossed, TimeOrdered;
  }

  lemma SubmittingKeeps(s: Setup, e: Engine, o: Order)
    requires EngineInv(e) && Lawful(s.strategy) && e.clock < U64_MAX && Acceptable(e.book, o)
    ensures EngineInv(Engine(Submit(RulesAt(s, e.clock + 1), e.book, o).0, e.clock + 1))
  {
    hide Sound, Lawful, Cross, EngineInv, Joined, HasId, IdsOfUser, ClearOf, Total;
    var r := RulesAt(s, e.clock + 1);
    var t := Ticketed(e.book, o, r.now);
    InvSound(e);
    if !t.admitted {
      LaterClock(e, e.clock + 1);
    } else {
      var c := Cross(r, e.book, t.order, t.budget);
      CrossConserves(r, e.book, t.order, t.budget);
      CrossingKeeps(r, e, t.order, t.budget);
      if !c.stopped && c.remaining > 0 && MayRest(t.order) {
        FreshAfterCross(r, e.book, t.order, t.budget);
        LeftOverIsClear(r, e.book, t.order);
        ClearOfRest(c.book, t.order, c.remaining);
        assert Queue(c.book, o.side, t.order.price) == Queue(e.book, o.side, o.price);
        JoiningKeeps(e.(book := c.book), t.order.(remaining := c.remaining));
      } else {
        LaterClock(e.(book := c.book), e.clock + 1);
      }
    }
  }

  lemma ClearOfRest(b: Book, o: Order, remaining: Qty)
    requires ClearOf(b, o)
    ensures ClearOf(b, o.(remaining := remaining))
  {}

  lemma InvSound(e: Engine)
    requires EngineInv(e)
    ensures Sound(e.book)
  {}

  lemma RemovedFresh(b: Book, o: Order)
    requires Sound(b) && Rests(b, o)
    ensures !HasId(Removed(b, o), o.id)
  {
    hide WithQueue, SetRemaining, GoodBook, Fitting, Lowered, Rests;
    var q := Queue(b, o.side, o.price);
    ReducingSound(b, o, 0);
    forall m | Rests(Removed(b, o), m) ensures m.id != o.id {
      ResoundIds(b, o.side, o.price, SetRemaining(q, o.id, 0), m);
      if m.id == o.id {
        GoneFrom(b, o, m);
      }
    }
  }

  lemma GoneFrom(b: Book, o: Order, m: Order)
    requires Sound(b) && Rests(b, o) && Sound(Removed(b, o)) && Rests(Removed(b, o), m) && m.side == o.side
             && m.price == o.price
    ensures m.id != o.id
  {
    hide WithQueue, SetRemaining, IdsUnique, Fitting, Lots;
    var q := Queue(b, o.side, o.price);
    GoodAt(b, o.side, o.price);
    QueueWithQueue(b, o.side, o.price, SetRemaining(q, o.id, 0), m.side, m.price);
    GoodIsDistinct(q, o.side, o.price);
    LotsOf(q, o);
    SetRemainingLots(q, o.id, 0, o.id);
    GoodAt(Removed(b, o), m.side, m.price);
    LotsOf(SetRemaining(q, o.id, 0), m);
  }

  /** Every step keeps the engine invariant. */
  lemma StepKeeps(s: Setup, e: Engine, ev: Event)
    requires EngineInv(e) && Lawful(s.strategy) && Enabled(e, ev)
    ensures Sound(e.book) && EngineInv(Step(s, e, ev))
  {
    hide EngineInv, Lawful, Sound, Submit, Reduced, Cleared, Rests, HasId, RoomFor, Find;
    InvSound(e);
    match ev
    case Entry(o) =>
      SubmittingKeeps(s, e, o);
    case CancelOne(id) =>
      if Find(e.book, id).Some? {
        ReducingKeeps(e, Find(e.book, id).value, 0);
      }
    case Amend(id, price, qty) =>
      var found := Find(e.book, id);
      if found.Some? {
        var o := found.value;
        LeavingKeeps(e, o);
        if InPlace(o, price, qty) {
          ReducingKeeps(e, o, qty);
        } else {
          ReducingKeeps(e, o, 0);
          RemovedFresh(e.book, o);
          SubmittingKeeps(s, e.(book := Removed(e.book, o)), Requoted(o, price, qty));
        }
      }
    case CancelUser(user) =>
      ClearingKeeps(e, user);
  }

  lemma ClearingKeeps(e: Engine, user: User)
    requires EngineInv(e)
    ensures EngineInv(e.(book := Cleared(e.book, user)))
  {
    hide EngineInv, WithoutUser;
    WithoutUserKeeps(e, Buy, user);
    WithoutUserKeeps(e.(book := WithoutUser(e.book, Buy, user)), Sell, user);
  }

  // --- whole runs -------------------------------------------------------------------------------------------------

  /** A run: every event is enabled in the state it meets. */
  ghost predicate Runs(s: Setup, e: Engine, evs: seq<Event>)
    requires EngineInv(e) && Lawful(s.strategy)
    decreases |evs|
  {
    evs != [] ==> Enabled(e, evs[0]) && (StepKeeps(s, e, evs[0]); Runs(s, Step(s, e, evs[0]), evs[1..]))
  }

  ghost function After(s: Setup, e: Engine, evs: seq<Event>): Engine
    requires EngineInv(e) && Lawful(s.strategy) && Runs(s, e, evs)
    decreases |evs|
  {
    if evs == [] then e
    else
      StepKeeps(s, e, evs[0]);
      After(s, Step(s, e, evs[0]), evs[1..])
  }

  /**
   In every state reachable from the empty engine the best bid is below the best ask, every
   queue is in strict time order, ids are unique, and only unfilled good-till-cancel limits rest.
   */
  lemma ReachableStates(s: Setup, evs: seq<Event>)
    requires Lawful(s.strategy)
    ensures EngineInv(Engine(Book(map[], map[]), 0))
    ensures Runs(s, Engine(Book(map[], map[]), 0), evs) ==>
      var e := After(s, Engine(Book(map[], map[]), 0), evs);
      && Sound(e.book) && TimeOrdered(e.book)
      && (Best(e.book, Buy).Some? && Best(e.book, Sell).Some? ==> Best(e.book, Buy).value < Best(e.book, Sell).value)
      && (forall o :: Rests(e.book, o) ==> o.remaining > 0 && MayRest(o) && o.timestamp <= e.clock)
  {
    hide Lawful, Best, Runs, After;
    var e0 := Engine(Book(map[], map[]), 0);
    assert EngineInv(e0);
    if Runs(s, e0, evs) {
      RunKeeps(s, e0, evs);
      var e := After(s, e0, evs);
      BestsApart(e.book);
      forall o | Rests(e.book, o) ensures o.remaining > 0 {
        GoodAt(e.book, o.side, o.price);
      }
    }
  }

  lemma BestsApart(b: Book)
    requires Uncrossed(b)
    ensures Best(b, Buy).Some? && Best(b, Sell).Some? ==> Best(b, Buy).value < Best(b, Sell).value
  {}

  lemma {:induction false} RunKeeps(s: Setup, e: Engine, evs: seq<Event>)
    requires EngineInv(e) && Lawful(s.strategy) && Runs(s, e, evs)
    ensures EngineInv(After(s, e, evs))
    decreases |evs|
  {
    hide EngineInv, Lawful, Step, Enabled;
    if evs != [] {
      StepKeeps(s, e, evs[0]);
      RunKeeps(s, Step(s, e, evs[0]), evs[1..]);
    }
  }
}
