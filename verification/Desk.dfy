/** What every run of the processor keeps. */
module Desks {
  import opened Types
  import opened Books
  import opened Queues
  import opened Strategies
  import opened Matching
  import opened Prechecks
  import opened SelfTrades
  import opened Priority
  import opened Submissions
  import opened Processing

  /** Every id resting on a book is a noted, nonzero command id. */
  ghost predicate IdsNoted(b: Book, seen: set<u64>) {
    forall o :: Rests(b, o) ==> o.id != 0 && o.id in seen
  }

  /** No user has more orders resting than the limit allows. */
  ghost predicate WithinCap(cfg: Config, b: Book) {
    cfg.limits.Some? && cfg.limits.value.maxUserOrders > 0 ==>
      forall user: User :: user != 0 ==> |IdsOfUser(b, user)| <= cfg.limits.value.maxUserOrders
  }

  ghost predicate EngineOk(cfg: Config, e: Engine, seen: set<u64>) {
    EngineInv(e) && IdsNoted(e.book, seen) && WithinCap(cfg, e.book)
  }

  ghost predicate DeskInv(cfg: Config, d: Desk) {
    forall i :: i in d.engines ==> EngineOk(cfg, d.engines[i], d.seen)
  }

  lemma OkSound(cfg: Config, d: Desk)
    requires DeskInv(cfg, d)
    ensures DeskSound(d)
  {
    hide Sound, Uncrossed, TimeOrdered, Stamped, IdsNoted, WithinCap;
  }

  lemma FreshOk(cfg: Config, d: Desk, i: u32)
    requires DeskInv(cfg, d)
    ensures EngineOk(cfg, EngineOf(d, i), d.seen)
  {
    hide Sound, Uncrossed, TimeOrdered, Stamped, IdsNoted, WithinCap;
    NothingRests();
    EmptyOk(cfg, d.seen);
  }

  lemma NothingRests()
    ensures forall o :: !Rests(FRESH.book, o)
  {}

  lemma EmptyOk(cfg: Config, seen: set<u64>)
    ensures EngineOk(cfg, FRESH, seen)
  {
    NothingRests();
    forall user: User ensures IdsOfUser(FRESH.book, user) == {} {
      assert Resting(FRESH.book) == {};
    }
  }

  lemma ReplacingKeeps(cfg: Config, d: Desk, i: u32, e: Engine)
    requires DeskInv(cfg, d) && EngineOk(cfg, e, d.seen)
    ensures DeskInv(cfg, d.(engines := d.engines[i := e]))
  {
    hide EngineOk;
  }

  lemma NotingKeeps(cfg: Config, d: Desk, cmd: Command)
    requires DeskInv(cfg, d)
    ensures var d' := Noted(cfg, d, cmd);
            DeskInv(cfg, d') && d.seen <= d'.seen && d'.engines == d.engines && (cmd.Id() != 0 ==> cmd.Id() in d'.seen)
  {
    hide EngineInv, WithinCap, Rests;
  }

  // --- open orders of a user ---------------------------------------------------------------------------

  /** Fewer resting orders mean fewer open orders, user by user. */
  lemma UsersShrink(b: Book, b': Book, user: User)
    requires Sound(b) && Sound(b')
    requires forall m :: Rests(b', m) ==> exists m0 :: Rests(b, m0) && m0.(remaining := m.remaining) == m
    ensures IdsOfUser(b', user) <= IdsOfUser(b, user)
  {
    hide GoodBook, IdsUnique, Fitting, Rests, Resting;
    forall id | id in IdsOfUser(b', user) ensures id in IdsOfUser(b, user) {
      var m :| m in Resting(b') && m.user == user && m.id == id;
      RestingAre(b', m);
      var m0 :| Rests(b, m0) && m0.(remaining := m.remaining) == m;
      RestingAre(b, m0);
      assert m0 in Resting(b) && m0.user == user && m0.id == id;
    }
  }

  /** The books before and after a change that only shrinks. */
  ghost predicate Shrunken(b: Book, b': Book) {
    && (forall m :: Rests(b', m) ==> exists m0 :: Rests(b, m0) && m0.(remaining := m.remaining) == m)
  }

  lemma ShrunkenOk(cfg: Config, e: Engine, seen: set<u64>, e': Engine)
    requires EngineOk(cfg, e, seen) && EngineInv(e') && Shrunken(e.book, e'.book)
    ensures EngineOk(cfg, e', seen)
  {
    hide Uncrossed, TimeOrdered, Stamped, GoodBook, IdsUnique, Fitting, Rests, IdsOfUser;
    forall user: User ensures |IdsOfUser(e'.book, user)| <= |IdsOfUser(e.book, user)| {
      UsersShrink(e.book, e'.book, user);
      CardinalityMono(IdsOfUser(e'.book, user), IdsOfUser(e.book, user));
    }
  }

  lemma ReducedShrinks(b: Book, o: Order, qty: Qty)
    requires Sound(b) && Rests(b, o) && qty <= o.remaining
    ensures Shrunken(b, Reduced(b, o, qty))
  {
    hide WithQueue, SetRemaining, Lowered, GoodBook, IdsUnique, Fitting, Rests, Queue;
    ReducingSound(b, o, qty);
    forall m | Rests(Reduced(b, o, qty), m) ensures exists m0 :: Rests(b, m0) && m0.(remaining := m.remaining) == m {
      ResoundIds(b, o.side, o.price, SetRemaining(Queue(b, o.side, o.price), o.id, qty), m);
    }
  }

  lemma RemovedIs(b: Book, o: Order)
    ensures Removed(b, o) == Reduced(b, o, 0)
  {}

  lemma ClearedShrinks(b: Book, user: User)
    ensures Shrunken(b, Cleared(b, user))
  {
    hide WithoutUser, Others;
    forall m | Rests(Cleared(b, user), m) ensures exists m0 :: Rests(b, m0) && m0.(remaining := m.remaining) == m {
      WithoutUserQueue(WithoutUser(b, Buy, user), Sell, user, m.side, m.price);
      WithoutUserQueue(b, Buy, user, m.side, m.price);
      OthersCome(Queue(WithoutUser(b, Buy, user), m.side, m.price), user, m);
      OthersCome(Queue(b, m.side, m.price), user, m);
      assert Rests(b, m) && m.(remaining := m.remaining) == m;
    }
  }

  // --- submitting -----------------------------------------------------------------------------------------

  /** What rests after a submission: orders from before, and possibly the order itself. */
  lemma SubmitRests(r: Rules, b: Book, o: Order, m: Order)
    requires Sound(b) && Lawful(r.strategy) && BudgetFits(o) && Rests(Submit(r, b, o).0, m)
    ensures (exists m0 :: Rests(b, m0) && m0.(remaining := m.remaining) == m)
            || (MayRest(m) && m.id == o.id && m.user == o.user && MayRest(o) && Submit(r, b, o).1.resting)
  {
    hide Sound, Lawful, Cross, Rests, Joined, BudgetCovers, CrossableLots, FloorPrice;
    var t := Ticketed(b, o, r.now);
    if !t.admitted {
      assert m.(remaining := m.remaining) == m;
    } else {
      var c := Cross(r, b, t.order, t.budget);
      JoinedRests(c.book, t.order.(remaining := c.remaining), m);
      if Rests(c.book, m) {
        CrossLowers(r, b, t.order, t.budget, m);
      }
    }
  }

  lemma SubmitUsers(r: Rules, b: Book, o: Order, user: User)
    requires Sound(b) && Lawful(r.strategy) && BudgetFits(o) && Sound(Submit(r, b, o).0)
    ensures IdsOfUser(Submit(r, b, o).0, user) <= IdsOfUser(b, user) + if user == o.user then {o.id} else {}
  {
    hide GoodBook, IdsUnique, Fitting, Lawful, Rests, Resting, Submit;
    var b' := Submit(r, b, o).0;
    forall id | id in IdsOfUser(b', user) ensures id in IdsOfUser(b, user) || (user == o.user && id == o.id) {
      var m :| m in Resting(b') && m.user == user && m.id == id;
      RestingAre(b', m);
      SubmitRests(r, b, o, m);
      if m0 :| Rests(b, m0) && m0.(remaining := m.remaining) == m {
        RestingAre(b, m0);
        assert m0 in Resting(b) && m0.user == user && m0.id == id;
      }
    }
  }

  lemma CountMore(before: set<OrderId>, after: set<OrderId>, id: OrderId, room: bool)
    requires after <= before + if room then {id} else {}
    ensures |after| <= |before| + if room then 1 else 0
  {
    CardinalityMono(after, before + if room then {id} else {});
  }

  /** A submission below the cap keeps the cap, and only the order's own id can be new. */
  lemma SubmittingOk(cfg: Config, e: Engine, seen: set<u64>, o: Order)
    requires EngineOk(cfg, e, seen) && Lawful(cfg.setup.strategy) && e.clock < U64_MAX && Acceptable(e.book, o)
    requires MayRest(o) ==> o.id != 0 && o.id in seen
    requires !CapReached(cfg, e.book, o)
    ensures EngineOk(cfg, Engine(Submit(RulesAt(cfg.setup, e.clock + 1), e.book, o).0, e.clock + 1), seen)
  {
    hide Lawful, Submit, GoodBook, IdsUnique, Fitting, Uncrossed, TimeOrdered, Stamped, Rests, IdsOfUser, RoomFor,
      HasId;
    var r := RulesAt(cfg.setup, e.clock + 1);
    SubmittingKeeps(cfg.setup, e, o);
    var b' := Submit(r, e.book, o).0;
    forall user: User ensures |IdsOfUser(b', user)| <= |IdsOfUser(e.book, user)| + if user == o.user then 1 else 0 {
      SubmitUsers(r, e.book, o, user);
      CountMore(IdsOfUser(e.book, user), IdsOfUser(b', user), o.id, user == o.user);
    }
    forall m | Rests(b', m) ensures m.id != 0 && m.id in seen {
      SubmitRests(r, e.book, o, m);
    }
  }

  /** A new order's id rests nowhere: the duplicate-insert panic cannot happen. */
  lemma NewIdIsFresh(cfg: Config, d: Desk, o: Order, i: u32)
    requires DeskInv(cfg, d) && o.id != 0 && !Repeated(cfg, d, New(o))
    ensures !HasId(EngineOf(d, i).book, o.id)
  {
    hide EngineInv, WithinCap, Rests;
    NothingRests();
    FreshOk(cfg, d, i);
  }

  /**
   The gate protects nonzero ids only: a new order with id 0 rests, and the same order passes the
   gate again while it rests.
   */
  lemma ZeroIdPassesGate(cfg: Config, reference: Price) returns (o: Order, d: Desk)
    requires Lawful(cfg.setup.strategy) && cfg.limits.None? && cfg.bandBps.None?
    ensures Fits(NEW_DESK, New(o)) && d == Process(cfg, NEW_DESK, Input(New(o), reference)).0
    ensures o.id == 0 && !Repeated(cfg, d, New(o)) && HasId(EngineOf(d, o.instrument).book, o.id)
  {
    hide Lawful;
    o := Order(0, 0, 0, Buy, Limit, Gtc, 5, 1, 1, 0);
    NothingRests();
    d := Process(cfg, NEW_DESK, Input(New(o), reference)).0;
    var r := RulesAt(cfg.setup, 1);
    var t := Ticketed(FRESH.book, o, 1);
    assert OneRound(r, FRESH.book, t.order, U128_MAX).Halt?;
    assert d.engines[0].book == Joined(FRESH.book, t.order);
    assert Queue(d.engines[0].book, Buy, 5) == [t.order];
  }

  lemma NewKeeps(cfg: Config, d: Desk, o: Order, reference: Price)
    requires DeskInv(cfg, d) && Lawful(cfg.setup.strategy) && BudgetFits(o) && EngineOf(d, o.instrument).clock < U64_MAX
    requires MayRest(o) ==> o.id != 0 && o.id in d.seen && Acceptable(EngineOf(d, o.instrument).book, o)
    ensures DeskSound(d) && DeskInv(cfg, ProcessNew(cfg, d, o, reference).0)
  {
    hide Lawful, Submit, EngineOk, HasId, RoomFor, CapReached, MayRest, BudgetFits, DeskSound, Gated, DeskInv, Told,
      Booked;
    OkSound(cfg, d);
    FreshOk(cfg, d, o.instrument);
    var g := Gated(cfg, d.halted, d.suspended, o, reference);
    if g.Open? {
      var e := EngineOf(d, o.instrument);
      OpenKeeps(cfg, d.halted, d.suspended, o, reference);
      if CapReached(cfg, e.book, g.order) {
        ReplacingKeeps(cfg, d, o.instrument, e);
      } else {
        FreshSound(d, o.instrument);
        SubmittingOk(cfg, e, d.seen, g.order);
        var (b', rep) := Submit(RulesAt(cfg.setup, e.clock + 1), e.book, g.order);
        ReplacingKeeps(cfg, d, o.instrument, Engine(b', e.clock + 1));
        PositionsDoNotMatter(cfg, d.(engines := d.engines[o.instrument := Engine(b', e.clock + 1)]),
          Booked(d.positions, o.instrument, rep.trades));
      }
    }
  }

  lemma PositionsDoNotMatter(cfg: Config, d: Desk, ps: map<(User, u32), int>)
    requires DeskInv(cfg, d)
    ensures DeskInv(cfg, d.(positions := ps))
  {
    hide EngineOk;
  }

  lemma OpenKeeps(cfg: Config, halted: set<u32>, suspended: set<User>, o: Order, reference: Price)
    ensures var g := Gated(cfg, halted, suspended, o, reference);
            g.Open? ==>
              && g.order.id == o.id && g.order.user == o.user && g.order.instrument == o.instrument
              && (MayRest(g.order) ==> g.order == o) && (BudgetFits(o) ==> BudgetFits(g.order))
              && g.order == Vetted(cfg, reference, o).value
  {
    hide Vetted, StaticCheck;
    VettedKeeps(cfg, reference, o);
  }

  // --- whole commands -----------------------------------------------------------------------------------------

  lemma StepOk(cfg: Config, e: Engine, seen: set<u64>, ev: Event)
    requires EngineOk(cfg, e, seen) && Lawful(cfg.setup.strategy) && Enabled(e, ev) && (ev.CancelOne? || ev.Amend?)
    ensures Sound(e.book) && EngineOk(cfg, Step(cfg.setup, e, ev), seen)
  {
    hide Lawful, Submit, EngineInv, WithinCap, IdsNoted, Rests, Reduced, Find, RoomFor, HasId, Cleared, Shrunken;
    InvSound(e);
    StepKeeps(cfg.setup, e, ev);
    var found := Find(e.book, ev.id);
    if found.None? {
    } else if ev.CancelOne? {
      ReducedShrinks(e.book, found.value, 0);
      ShrunkenOk(cfg, e, seen, Step(cfg.setup, e, ev));
    } else if InPlace(found.value, ev.price, ev.qty) {
      ReducedShrinks(e.book, found.value, ev.qty);
      ShrunkenOk(cfg, e, seen, Step(cfg.setup, e, ev));
    } else {
      RequoteOk(cfg, e, seen, found.value, ev.price, ev.qty);
    }
  }

  /** A requote gives up its place before it takes a new one, so the cap still holds. */
  lemma RequoteOk(cfg: Config, e: Engine, seen: set<u64>, o: Order, price: Price, qty: Qty)
    requires EngineOk(cfg, e, seen) && Lawful(cfg.setup.strategy) && e.clock < U64_MAX && Rests(e.book, o)
    requires RoomFor(Removed(e.book, o), Requoted(o, price, qty))
    ensures Sound(Removed(e.book, o))
    ensures EngineOk(cfg,
            Engine(Submit(RulesAt(cfg.setup, e.clock + 1), Removed(e.book, o), Requoted(o, price, qty)).0, e.clock + 1),
            seen)
  {
    hide Lawful, Submit, EngineInv, Rests, Reduced, RoomFor, HasId, IdsOfUser, Shrunken, IdsNoted, WithinCap;
    InvSound(e);
    assert o.id != 0 && o.id in seen by { NotedId(e.book, seen, o); }
    ReducedShrinks(e.book, o, 0);
    ReducingKeeps(e, o, 0);
    ShrunkenOk(cfg, e, seen, e.(book := Removed(e.book, o)));
    InvSound(e.(book := Removed(e.book, o)));
    RemovedFresh(e.book, o);
    OneLess(e.book, o);
    BelowCap(cfg, e.book, o, Requoted(o, price, qty));
    SubmittingOk(cfg, e.(book := Removed(e.book, o)), seen, Requoted(o, price, qty));
  }

  lemma NotedId(b: Book, seen: set<u64>, o: Order)
    requires IdsNoted(b, seen) && Rests(b, o)
    ensures o.id != 0 && o.id in seen
  {}

  lemma OneLess(b: Book, o: Order)
    requires Sound(b) && Rests(b, o) && Sound(Removed(b, o)) && !HasId(Removed(b, o), o.id)
             && Shrunken(b, Removed(b, o))
    ensures |IdsOfUser(Removed(b, o), o.user)| < |IdsOfUser(b, o.user)|
  {
    hide GoodBook, IdsUnique, Fitting, Rests, Resting, Reduced;
    var before, after := IdsOfUser(b, o.user), IdsOfUser(Removed(b, o), o.user);
    UsersShrink(b, Removed(b, o), o.user);
    RestingAre(b, o);
    assert o in Resting(b) && o.id in before;
    forall id | id in after ensures id != o.id {
      var m :| m in Resting(Removed(b, o)) && m.user == o.user && m.id == id;
      RestingAre(Removed(b, o), m);
    }
    CardinalityMono(after, before - {o.id});
  }

  lemma BelowCap(cfg: Config, b: Book, o: Order, o': Order)
    requires WithinCap(cfg, b) && o'.user == o.user && |IdsOfUser(Removed(b, o), o.user)| < |IdsOfUser(b, o.user)|
    ensures !CapReached(cfg, Removed(b, o), o')
  {
    hide IdsOfUser, Removed;
  }

  lemma ClearingOk(cfg: Config, e: Engine, seen: set<u64>, user: User)
    requires EngineOk(cfg, e, seen)
    ensures EngineOk(cfg, e.(book := Cleared(e.book, user)), seen)
  {
    hide EngineInv, Cleared, Shrunken, IdsNoted, WithinCap;
    ClearingKeeps(e, user);
    ClearedShrinks(e.book, user);
    ShrunkenOk(cfg, e, seen, e.(book := Cleared(e.book, user)));
  }

  lemma PerformKeeps(cfg: Config, d: Desk, input: Input)
    requires DeskInv(cfg, d) && Lawful(cfg.setup.strategy) && Fits(d, input.cmd)
    requires input.cmd.New? ==> input.cmd.order.id != 0 && input.cmd.order.id in d.seen
                                && !HasId(EngineOf(d, input.cmd.Target()).book, input.cmd.order.id)
    ensures DeskSound(d) && DeskInv(cfg, Perform(cfg, d, input).0)
  {
    hide Lawful, EngineOk, DeskInv, DeskSound, Sound, ProcessNew, ToldAmended, Step, Enabled, Find, RoomFor, HasId,
      Cleared, IdsOfUser;
    OkSound(cfg, d);
    var cmd := input.cmd;
    var i := cmd.Target();
    var e := EngineOf(d, i);
    FreshSound(d, i);
    FreshOk(cfg, d, i);
    match cmd
    case New(o) =>
      NewKeeps(cfg, d, o, input.reference);
    case Cancel(_, id, _) =>
      EnabledCancel(e, id);
      StepOk(cfg, e, d.seen, CancelOne(id));
      ReplacingKeeps(cfg, d, i, Step(cfg.setup, e, CancelOne(id)));
    case Modify(_, id, price, qty, _) =>
      StepOk(cfg, e, d.seen, Amend(id, price, qty));
      ReplacingKeeps(cfg, d, i, Step(cfg.setup, e, Amend(id, price, qty)));
    case ForceClose(_, user, _, _, qty) =>
      ClearingOk(cfg, e, d.seen, user);
      ClearingSound(d, i, user);
      var d1 := d.(engines := d.engines[i := e.(book := Cleared(e.book, user))]);
      ReplacingKeeps(cfg, d, i, e.(book := Cleared(e.book, user)));
      if qty > 0 {
        NewKeeps(cfg, d1, CloseOrder(cmd), input.reference);
      }
    case _ =>
      GatesDoNotMatter(cfg, d, Perform(cfg, d, input).0);
  }

  lemma GatesDoNotMatter(cfg: Config, d: Desk, d': Desk)
    requires DeskInv(cfg, d) && d'.engines == d.engines && d'.seen == d.seen
    ensures DeskInv(cfg, d')
  {
    hide EngineOk;
  }

  /**
   Every command on which the machine limits hold, new orders carrying nonzero ids, keeps the
   desk invariant: sound, uncrossed books in time order, all resting ids noted, and no user
   above the open-order cap.
   */
  lemma ProcessKeeps(cfg: Config, d: Desk, input: Input)
    requires DeskInv(cfg, d) && Lawful(cfg.setup.strategy) && Fits(d, input.cmd)
    requires input.cmd.New? ==> input.cmd.order.id != 0
    ensures DeskSound(d) && DeskInv(cfg, Process(cfg, d, input).0)
  {
    hide Lawful, EngineOk, DeskInv, DeskSound, Perform, Enabled, RoomFor, HasId;
    OkSound(cfg, d);
    NotingKeeps(cfg, d, input.cmd);
    if !Repeated(cfg, d, input.cmd) {
      var d' := Noted(cfg, d, input.cmd);
      if input.cmd.New? {
        NewIdIsFresh(cfg, d, input.cmd.order, input.cmd.Target());
      }
      PerformKeeps(cfg, d', input);
    }
  }

  // --- runs ------------------------------------------------------------------------------------------------------

  const NEW_DESK: Desk := Desk(map[], {}, 0, 0, {}, {}, map[])

  ghost predicate Handles(cfg: Config, d: Desk, inputs: seq<Input>)
    requires DeskInv(cfg, d) && Lawful(cfg.setup.strategy)
    decreases |inputs|
  {
    inputs != [] ==>
      && Fits(d, inputs[0].cmd) && (inputs[0].cmd.New? ==> inputs[0].cmd.order.id != 0)
      && (ProcessKeeps(cfg, d, inputs[0]); Handles(cfg, Process(cfg, d, inputs[0]).0, inputs[1..]))
  }

  ghost function DeskAfter(cfg: Config, d: Desk, inputs: seq<Input>): Desk
    requires DeskInv(cfg, d) && Lawful(cfg.setup.strategy) && Handles(cfg, d, inputs)
    decreases |inputs|
  {
    if inputs == [] then d
    else
      ProcessKeeps(cfg, d, inputs[0]);
      DeskAfter(cfg, Process(cfg, d, inputs[0]).0, inputs[1..])
  }

  lemma {:induction false} HandlingKeeps(cfg: Config, d: Desk, inputs: seq<Input>)
    requires DeskInv(cfg, d) && Lawful(cfg.setup.strategy) && Handles(cfg, d, inputs)
    ensures DeskInv(cfg, DeskAfter(cfg, d, inputs))
    decreases |inputs|
  {
    hide DeskInv, Lawful, Process, Fits;
    if inputs != [] {
      ProcessKeeps(cfg, d, inputs[0]);
      HandlingKeeps(cfg, Process(cfg, d, inputs[0]).0, inputs[1..]);
    }
  }

  /**
   From a new desk, in every reachable state: each resting id was noted, so a duplicate insert
   cannot happen; each user is within the open-order cap on each book; each book is uncrossed.
   */
  lemma ReachableDesks(cfg: Config, inputs: seq<Input>, i: u32, user: User)
    requires Lawful(cfg.setup.strategy)
    ensures DeskInv(cfg, NEW_DESK)
    ensures Handles(cfg, NEW_DESK, inputs) ==>
      var d := DeskAfter(cfg, NEW_DESK, inputs);
      var b := EngineOf(d, i).book;
      && (forall o :: Rests(b, o) ==> o.id in d.seen)
      && (cfg.limits.Some? && cfg.limits.value.maxUserOrders > 0 && user != 0 ==>
            |IdsOfUser(b, user)| <= cfg.limits.value.maxUserOrders)
      && Uncrossed(b) && TimeOrdered(b) && Sound(b)
  {
    hide Lawful, Handles, DeskAfter, Sound, Uncrossed, TimeOrdered, Stamped, Rests, IdsOfUser;
    assert DeskInv(cfg, NEW_DESK);
    if Handles(cfg, NEW_DESK, inputs) {
      HandlingKeeps(cfg, NEW_DESK, inputs);
      FreshOk(cfg, DeskAfter(cfg, NEW_DESK, inputs), i);
    }
  }
}
