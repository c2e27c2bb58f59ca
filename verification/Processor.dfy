/** The processor of one shard over real engines, proved against the desk function. */
module Processors {
  import opened Types
  import opened Books
  import opened Strategies
  import opened Matching
  import opened Submissions
  import opened Processing
  import opened Renderings
  import opened Desks
  import opened LevelIndexes
  import opened Stores
  import opened OrderBooks
  import opened MatchingEngines
  import opened Exports

  class Processor {
    const cfg: Config
    var engines: map<u32, MatchingEngine>
    var seen: set<u64>
    var maxNew: u64
    var maxAdmin: u64
    var halted: set<u32>
    var suspended: set<User>
    var positions: map<(User, u32), int>
    ghost var repr: set<object>

    /** Engines are separate objects, each owning its own book. */
    ghost predicate Owned()
      reads this`engines, this`repr
    {
      && this !in repr
      && (forall i :: i in engines ==> engines[i].Repr() <= repr)
      && (forall i, j :: i in engines && j in engines && i != j ==> engines[i].Repr() !! engines[j].Repr())
    }

    ghost predicate Valid()
      reads this`engines, this`repr, repr
    {
      && Owned() && Lawful(cfg.setup.strategy)
      && (forall i :: i in engines ==> engines[i].Valid() && engines[i].setup == cfg.setup)
    }

    ghost function Engines(): map<u32, Engine>
      requires Valid()
      reads this`engines, this`repr, repr
    {
      map i | i in engines :: engines[i].State()
    }

    /** The desk this processor stands for. */
    ghost function State(): Desk
      requires Valid()
      reads this, repr
    {
      Desk(Engines(), seen, maxNew, maxAdmin, halted, suspended, positions)
    }

    lemma EnginesAre(m: map<u32, Engine>)
      requires Valid() && m.Keys == engines.Keys && forall j :: j in engines ==> engines[j].State() == m[j]
      ensures Engines() == m
    {
      hide MatchingEngine.State, MatchingEngine.Valid, Lawful, MatchingEngine.Repr;
    }

    lemma EngineAt(i: u32)
      requires Valid() && i in engines
      ensures engines[i].Valid() && i in Engines() && Engines()[i] == engines[i].State()
              && Engines().Keys == engines.Keys
    {
      hide MatchingEngine.State, MatchingEngine.Valid, Lawful, MatchingEngine.Repr;
    }

    constructor (cfg: Config)
      requires Lawful(cfg.setup.strategy)
      ensures Valid() && State() == NEW_DESK && fresh(repr) && this.cfg == cfg
    {
      this.cfg := cfg;
      engines, seen, maxNew, maxAdmin := map[], {}, 0, 0;
      halted, suspended, positions := {}, {}, map[];
      repr := {};
    }

    /** An engine for an instrument that has none yet. */
    method AddEngine(i: u32)
      requires Valid() && i !in engines
      modifies this`engines, this`repr
      ensures Valid() && fresh(repr - old(repr))
      ensures Engines() == old(Engines())[i := FRESH] && i in engines
    {
      hide Lawful, MatchingEngine.Valid, MatchingEngine.Repr, MatchingEngine.State, Engines;
      ghost var before := Engines();
      forall j | j in engines ensures before.Keys == engines.Keys && before[j] == engines[j].State() {
        EngineAt(j);
      }
      EnginesKeys();
      var e := new MatchingEngine(cfg.setup);
      engines := engines[i := e];
      repr := repr + e.Repr();
      EnginesAre(before[i := FRESH]);
    }

    lemma EnginesKeys()
      requires Valid()
      ensures Engines().Keys == engines.Keys
    {
      hide MatchingEngine.State, MatchingEngine.Valid, Lawful, MatchingEngine.Repr;
    }

    /** The engine of an instrument, created on first use. */
    method EngineFor(i: u32) returns (e: MatchingEngine)
      requires Valid()
      modifies this`engines, this`repr
      ensures Valid() && i in engines && e == engines[i] && fresh(repr - old(repr))
      ensures Engines() == old(Engines())[i := EngineOf(old(State()), i)]
    {
      hide Lawful, MatchingEngine.Valid, MatchingEngine.Repr, MatchingEngine.State, Engines;
      EnginesKeys();
      ghost var before := Engines();
      if i !in engines {
        AddEngine(i);
      } else {
        assert before == before[i := before[i]];
      }
      e := engines[i];
    }

    /** Submit an order to the engine of one instrument. */
    method SubmitOn(i: u32, o: Order) returns (rep: Report)
      requires Valid() && CanSubmit(EngineOf(State(), i), o)
      modifies this`engines, this`repr, repr
      ensures Valid() && fresh(repr - old(repr))
      ensures (Engines(), rep) == SubmittedOn(cfg, old(State()), i, o)
    {
      hide Lawful, MatchingEngine.Valid, MatchingEngine.Repr, MatchingEngine.State, Engines, CanSubmit, SubmittedOn,
        EngineOf;
      ghost var d := State();
      var e := EngineFor(i);
      ghost var before := Engines();
      forall j | j in engines ensures j in before && before[j] == engines[j].State() {
        EngineAt(j);
      }
      EnginesKeys();
      rep := Submitted(e, cfg, o);
      EnginesAre(before[i := e.State()]);
      SubmittedOnIs(cfg, d, i, o, e.State(), rep);
    }

    /** Cancel one order on the engine of one instrument. */
    method CancelOn(i: u32, id: OrderId) returns (removed: bool)
      requires Valid()
      modifies this`engines, this`repr, repr
      ensures Valid() && fresh(repr - old(repr))
      ensures Engines() == SteppedOn(cfg, old(State()), i, CancelOne(id))
      ensures removed <==> HasId(EngineOf(old(State()), i).book, id)
    {
      hide Lawful, MatchingEngine.Valid, MatchingEngine.Repr, MatchingEngine.State, Engines, SteppedOn, Stepped,
        EngineOf, HasId;
      ghost var d := State();
      var e := EngineFor(i);
      ghost var before := Engines();
      forall j | j in engines ensures j in before && before[j] == engines[j].State() {
        EngineAt(j);
      }
      EnginesKeys();
      removed := CancelledOn(e, cfg, id);
      EnginesAre(before[i := e.State()]);
      SteppedOnIs(cfg, d, i, CancelOne(id), e.State());
    }

    /** Amend one order on the engine of one instrument. */
    method AmendOn(i: u32, id: OrderId, price: Price, qty: Qty) returns (outcome: AmendOutcome)
      requires Valid() && Enabled(EngineOf(State(), i), Amend(id, price, qty))
      modifies this`engines, this`repr, repr
      ensures Valid() && fresh(repr - old(repr))
      ensures Engines() == SteppedOn(cfg, old(State()), i, Amend(id, price, qty))
      ensures outcome == AmendedTo(cfg, EngineOf(old(State()), i), id, price, qty)
    {
      hide Lawful, MatchingEngine.Valid, MatchingEngine.Repr, MatchingEngine.State, Engines, SteppedOn, Stepped,
        EngineOf, Enabled, AmendedTo;
      ghost var d := State();
      var e := EngineFor(i);
      ghost var before := Engines();
      forall j | j in engines ensures j in before && before[j] == engines[j].State() {
        EngineAt(j);
      }
      EnginesKeys();
      outcome := AmendedOn(e, cfg, id, price, qty);
      EnginesAre(before[i := e.State()]);
      SteppedOnIs(cfg, d, i, Amend(id, price, qty), e.State());
    }

    /** Cancel a user's orders on the engine of one instrument. */
    method ClearOn(i: u32, user: User) returns (ids: seq<OrderId>)
      requires Valid()
      modifies this`engines, this`repr, repr
      ensures Valid() && fresh(repr - old(repr))
      ensures Engines() == SteppedOn(cfg, old(State()), i, CancelUser(user))
      ensures Lists(ids, IdsOfUser(EngineOf(old(State()), i).book, user))
    {
      hide Lawful, MatchingEngine.Valid, MatchingEngine.Repr, MatchingEngine.State, Engines, SteppedOn, Stepped,
        EngineOf, IdsOfUser, Lists;
      ghost var d := State();
      var e := EngineFor(i);
      ghost var before := Engines();
      forall j | j in engines ensures j in before && before[j] == engines[j].State() {
        EngineAt(j);
      }
      EnginesKeys();
      ids := ClearedOn(e, cfg, user);
      EnginesAre(before[i := e.State()]);
      SteppedOnIs(cfg, d, i, CancelUser(user), e.State());
    }

    /** How many orders a user has open on one instrument. */
    method OpenOrders(i: u32, user: User) returns (n: nat)
      requires Valid() && user != 0
      modifies this`engines, this`repr
      ensures Valid() && fresh(repr - old(repr))
      ensures Engines() == old(Engines())[i := EngineOf(old(State()), i)]
      ensures n == |IdsOfUser(EngineOf(old(State()), i).book, user)|
    {
      hide Lawful, MatchingEngine.Valid, MatchingEngine.Repr, MatchingEngine.State, Engines, EngineOf, IdsOfUser;
      var e := EngineFor(i);
      EngineAt(i);
      n := OpenOn(e, user);
    }

    /** Re-insert exported orders into the engine of an instrument that has none yet. */
    method RestoreOn(i: u32, clock: u64, orders: seq<Order>)
      requires Valid() && EngineOf(State(), i) == FRESH && Restorable(orders)
      modifies this`engines, this`repr, repr
      ensures Valid() && fresh(repr - old(repr))
      ensures Engines() == old(Engines())[i := Engine(Rebuilt(orders), clock)]
    {
      hide Lawful, MatchingEngine.Valid, MatchingEngine.Repr, MatchingEngine.State, Engines, Restorable, Rebuilt,
        EngineOf;
      ghost var all := Engines();
      var e := EngineFor(i);
      ghost var before := Engines();
      forall j | j in engines ensures j in before && before[j] == engines[j].State() {
        EngineAt(j);
      }
      EnginesKeys();
      RestoredOn(e, clock, orders);
      EnginesAre(before[i := e.State()]);
      ReplacedTwice(all, i, FRESH, e.State());
    }

    /** Run a new order through the gates and into its book. */
    method ProcessNew(o: Order, reference: Price) returns (out: seq<ExecReport>)
      requires Valid() && CanProcess(cfg, State(), o, reference)
      modifies this`engines, this`repr, this`positions, repr
      ensures Valid() && fresh(repr - old(repr))
      ensures (State(), Ones(out)) == NewProcessed(cfg, old(State()), o, reference)
    {
      hide Lawful, MatchingEngine.Valid, MatchingEngine.Repr, MatchingEngine.State, Engines, EngineOf, IdsOfUser, Gated,
        CanSubmit, SubmittedOn, Booked, Told, Ones;
      ghost var d := State();
      var g := Gated(cfg, halted, suspended, o, reference);
      if g.Shut? {
        NewShut(cfg, d, o, reference);
        return [RejectedReport(o.instrument, o.id, g.reason)];
      }
      if Capping(cfg, g.order) {
        var open := OpenOrders(o.instrument, g.order.user);
        if open >= cfg.limits.value.maxUserOrders {
          NewCapped(cfg, d, o, reference);
          return [RejectedReport(o.instrument, o.id, MaxUserOrders)];
        }
      }
      ghost var d1 := State();
      NewOpen(cfg, d, d1.engines, o, reference);
      var rep := SubmitOn(o.instrument, g.order);
      positions := Booked(positions, o.instrument, rep.trades);
      out := Emitted(cfg, o.instrument, o.id, rep);
    }

    /** Amend an order and report what became of it. */
    method ProcessModify(cmd: Command) returns (out: seq<ExecReport>)
      requires Valid() && cmd.Modify?
               && Enabled(EngineOf(State(), cmd.instrument), Amend(cmd.orderId, cmd.price, cmd.qty))
      modifies this`engines, this`repr, repr
      ensures Valid() && fresh(repr - old(repr))
      ensures Engines() == SteppedOn(cfg, old(State()), cmd.instrument, Amend(cmd.orderId, cmd.price, cmd.qty))
      ensures Ones(out) == ToldAmendedTo(cfg, EngineOf(old(State()), cmd.instrument), cmd)
    {
      hide Lawful, MatchingEngine.Valid, MatchingEngine.Repr, MatchingEngine.State, Engines, EngineOf, Enabled,
        SteppedOn, AmendedTo, ToldAmendedTo, Ones, TradeReports;
      ghost var e := EngineOf(State(), cmd.instrument);
      EngineOfSound(cmd.instrument);
      ToldByOutcome(cfg, e, cmd);
      var i, id := cmd.instrument, cmd.orderId;
      var outcome := AmendOn(i, id, cmd.price, cmd.qty);
      match outcome
      case NotFound =>
        OnesOne(NotFoundReport(i, id));
        out := [NotFoundReport(i, id)];
      case ReducedTo(remaining) =>
        OnesOne(ModifiedReport(i, id, remaining));
        out := [ModifiedReport(i, id, remaining)];
      case AmendCancelled =>
        OnesOne(CancelledReport(i, id));
        out := [CancelledReport(i, id)];
      case Requote(rep) =>
        var trades := EmittedTrades(cfg, i, rep.trades);
        var last := RequoteReport(i, id, cmd.qty, rep);
        OnesConcat(trades, [last]);
        OnesOne(last);
        out := trades + [last];
    }

    /** Carry out a command that passed the duplicate gates. */
    method Perform(input: Input) returns (out: seq<ExecReport>)
      requires Valid() && CanPerform(cfg, State(), input)
      modifies this`engines, this`repr, this`positions, this`halted, this`suspended, repr
      ensures Valid() && fresh(repr - old(repr))
      ensures State() == Performed(cfg, old(State()), input).0
      ensures Renders(Performed(cfg, old(State()), input).1, out)
    {
      hide Lawful, MatchingEngine.Valid, MatchingEngine.Repr, MatchingEngine.State, Engines, EngineOf, Enabled,
        SteppedOn, ToldAmendedTo, Ones, Renders, CanProcess, NewProcessed, Performed, Processing.Fits, Lists, IdsOfUser,
        HasId;
      ghost var d := State();
      PerformedIs(cfg, d, input);
      var cmd := input.cmd;
      var i := cmd.Target();
      match cmd
      case New(o) =>
        out := ProcessNew(o, input.reference);
        RendersOnes(out);
      case Cancel(_, id, _) =>
        var removed := CancelOn(i, id);
        out := [if removed then CancelledReport(i, id) else NotFoundReport(i, id)];
        RendersOnes(out);
      case Modify(_, _, _, _, _) =>
        out := ProcessModify(cmd);
        RendersOnes(out);
      case ForceClose(_, user, _, _, qty) =>
        var ids := ClearOn(i, user);
        out := [];
        if qty > 0 {
          out := ProcessNew(CloseOrder(cmd), input.reference);
        }
        RendersOnes(out);
        RendersBlock(i, ids, IdsOfUser(EngineOf(d, i).book, user), Ones(out), out);
        NoneAfter([CancelBlock(i, IdsOfUser(EngineOf(d, i).book, user))]);
        out := Cancels(i, ids) + out;
      case _ =>
        out := SwitchGate(cmd);
        RendersOnes(out);
    }

    /** Halt or resume an instrument, suspend or readmit a user. */
    method SwitchGate(cmd: Command) returns (out: seq<ExecReport>)
      requires cmd.Halt? || cmd.Resume? || cmd.HaltUser? || cmd.ResumeUser?
      modifies this`halted, this`suspended
      ensures halted == Switched(old(halted), cmd.instrument, cmd.Halt?, cmd.Resume?)
      ensures suspended ==
              (if cmd.HaltUser? || cmd.ResumeUser? then
                 Switched(old(suspended), cmd.user, cmd.HaltUser?, cmd.ResumeUser?)
               else old(suspended))
      ensures out == [SwitchReport(cmd)]
    {
      var i := cmd.instrument;
      match cmd
      case Halt(_, _) =>
        halted := halted + {i};
        out := [HaltedReport(i)];
      case Resume(_, _) =>
        halted := halted - {i};
        out := [ResumedReport(i)];
      case HaltUser(_, user, _) =>
        suspended := suspended + {user};
        out := [UserHaltedReport(i, user)];
      case ResumeUser(_, user, _) =>
        suspended := suspended - {user};
        out := [UserResumedReport(i, user)];
    }

    /** Apply one command. */
    method Process(input: Input) returns (out: seq<ExecReport>)
      requires Valid() && CanHandle(cfg, State(), input)
      modifies this, repr
      ensures Valid() && fresh(repr - old(repr))
      ensures State() == Handled(cfg, old(State()), input).0
      ensures Renders(Handled(cfg, old(State()), input).1, out)
    {
      hide Lawful, MatchingEngine.Valid, MatchingEngine.Repr, MatchingEngine.State, Engines, Ones, Renders, Performed,
        Processing.Fits, CanPerform, Handled;
      ghost var d := State();
      HandledIs(cfg, d, input);
      var cmd := input.cmd;
      var id := cmd.Id();
      var refusal := [RejectedReport(cmd.Target(), id, Duplicate)];
      RendersOnes(refusal);
      if id != 0 {
        if id in seen {
          return refusal;
        }
        seen := seen + {id};
        if cfg.dedup {
          if id <= (if Admin(cmd) then maxAdmin else maxNew) {
            return refusal;
          }
          if Admin(cmd) {
            maxAdmin := id;
          } else {
            maxNew := id;
          }
        }
      }
      out := Perform(input);
    }

    lemma EngineOfSound(i: u32)
      requires Valid()
      ensures Sound(EngineOf(State(), i).book) && Lawful(cfg.setup.strategy)
    {
      hide Lawful, MatchingEngine.Repr, Sound, OrderBook.Valid, OrderBook.Shows;
      NewSound();
    }
  }

  lemma NewSound()
    ensures Sound(FRESH.book)
  {}

  /** What an amendment emits, from what the engine answers. */
  ghost function ToldAmendedTo(cfg: Config, e: Engine, cmd: Command): seq<Emission>
    requires cmd.Modify?
  {
    if Sound(e.book) && Lawful(cfg.setup.strategy) && Enabled(e, Amend(cmd.orderId, cmd.price, cmd.qty))
    then ToldAmended(cfg, e, cmd) else []
  }

  function ToldOutcome(cfg: Config, i: u32, id: OrderId, qty: Qty, outcome: AmendOutcome): seq<Emission> {
    match outcome
    case NotFound => [One(NotFoundReport(i, id))]
    case ReducedTo(remaining) => [One(ModifiedReport(i, id, remaining))]
    case AmendCancelled => [One(CancelledReport(i, id))]
    case Requote(rep) => TradeReports(cfg, i, rep.trades) + [One(RequoteReport(i, id, qty, rep))]
  }

  lemma ToldByOutcome(cfg: Config, e: Engine, cmd: Command)
    requires cmd.Modify? && Sound(e.book) && Lawful(cfg.setup.strategy)
             && Enabled(e, Amend(cmd.orderId, cmd.price, cmd.qty))
    ensures ToldAmendedTo(cfg, e, cmd) ==
              ToldOutcome(cfg, cmd.instrument, cmd.orderId, cmd.qty, AmendedTo(cfg, e, cmd.orderId, cmd.price, cmd.qty))
  {
    hide Lawful, Sound, Enabled, Submit, TradeReports, RequoteReport, Submissions.Find, Reduced;
  }

  // --- emitting reports ------------------------------------------------------------------------------------

  /** The reports of a submission, in the order they are emitted. */
  method Emitted(cfg: Config, i: u32, id: OrderId, rep: Report) returns (out: seq<ExecReport>)
    ensures Ones(out) == Told(cfg, i, id, rep)
  {
    out := [Accepted(i, id)];
    if !cfg.setup.policy.Allow? {
      var cancels := EmittedPulled(i, rep.pulled);
      OnesConcat(out, cancels);
      out := out + cancels;
    }
    var trades := EmittedTrades(cfg, i, rep.trades);
    OnesConcat(out, trades);
    OnesConcat(out + trades, [StatusReport(i, id, rep)]);
    out := out + trades + [StatusReport(i, id, rep)];
  }

  method EmittedPulled(i: u32, ids: seq<OrderId>) returns (out: seq<ExecReport>)
    ensures Ones(out) == PulledReports(i, ids)
  {
    out := [];
    for k := 0 to |ids|
      invariant Ones(out) + PulledReports(i, ids[k..]) == PulledReports(i, ids)
    {
      OnesConcat(out, [CancelledReport(i, ids[k])]);
      out := out + [CancelledReport(i, ids[k])];
    }
  }

  method EmittedTrades(cfg: Config, i: u32, ts: seq<Trade>) returns (out: seq<ExecReport>)
    ensures Ones(out) == TradeReports(cfg, i, ts)
  {
    hide Ones, TradeReports;
    out := [];
    TradeReportsEnd(cfg, i, ts);
    for k := 0 to |ts|
      invariant Ones(out) + TradeReports(cfg, i, ts[k..]) == TradeReports(cfg, i, ts)
    {
      var t := ts[k];
      var r := TradeReport(i, t.taker, t.maker, t.aggressor, t.price, t.quantity, cfg.fees(t.price, t.quantity));
      TradeReportsNext(cfg, i, ts, k, out, r);
      out := out + [r];
    }
  }

  lemma TradeReportsEnd(cfg: Config, i: u32, ts: seq<Trade>)
    ensures TradeReports(cfg, i, ts[|ts|..]) == [] && Ones([]) == [] && ts[0..] == ts
  {}

  lemma TradeReportsNext(cfg: Config, i: u32, ts: seq<Trade>, k: nat, out: seq<ExecReport>, r: ExecReport)
    requires k < |ts|
    requires r == TradeReport(i, ts[k].taker, ts[k].maker, ts[k].aggressor, ts[k].price, ts[k].quantity,
                              cfg.fees(ts[k].price, ts[k].quantity))
    ensures Ones(out) + TradeReports(cfg, i, ts[k..]) == Ones(out + [r]) + TradeReports(cfg, i, ts[k + 1..])
  {
    hide Ones;
    OnesConcat(out, [r]);
    OnesOne(r);
    assert ts[k..][0] == ts[k] && ts[k..][1..] == ts[k + 1..];
  }

  // --- new orders on values ------------------------------------------------------------------------------------

  ghost function NewProcessed(cfg: Config, d: Desk, o: Order, reference: Price): (Desk, seq<Emission>) {
    if DeskSound(d) && Lawful(cfg.setup.strategy) && BudgetFits(o) && EngineOf(d, o.instrument).clock < U64_MAX
    then Processing.ProcessNew(cfg, d, o, reference)
    else (d, [])
  }

  /** The machine limits a new order needs, once it is past the gates. */
  ghost predicate CanProcess(cfg: Config, d: Desk, o: Order, reference: Price) {
    && DeskSound(d) && Lawful(cfg.setup.strategy) && BudgetFits(o) && EngineOf(d, o.instrument).clock < U64_MAX
    && var g := Gated(cfg, d.halted, d.suspended, o, reference);
       g.Open? && !CapReached(cfg, EngineOf(d, o.instrument).book, g.order) ==>
         CanSubmit(EngineOf(d, o.instrument), g.order)
  }

  lemma NewShut(cfg: Config, d: Desk, o: Order, reference: Price)
    requires CanProcess(cfg, d, o, reference) && Gated(cfg, d.halted, d.suspended, o, reference).Shut?
    ensures NewProcessed(cfg, d, o, reference) ==
              (d, Ones([RejectedReport(o.instrument, o.id, Gated(cfg, d.halted, d.suspended, o, reference).reason)]))
  {
    hide Lawful, Sound, Gated, CapReached, CanSubmit, BudgetFits, Ones;
    OnesOne(RejectedReport(o.instrument, o.id, Gated(cfg, d.halted, d.suspended, o, reference).reason));
  }

  lemma NewCapped(cfg: Config, d: Desk, o: Order, reference: Price)
    requires CanProcess(cfg, d, o, reference)
    requires var g := Gated(cfg, d.halted, d.suspended, o, reference);
             g.Open? && CapReached(cfg, EngineOf(d, o.instrument).book, g.order)
    ensures NewProcessed(cfg, d, o, reference) ==
              (d.(engines := d.engines[o.instrument := EngineOf(d, o.instrument)]),
                Ones([RejectedReport(o.instrument, o.id, MaxUserOrders)]))
  {
    hide Lawful, Sound, Gated, CapReached, CanSubmit, BudgetFits, EngineOf, Submit, Ones;
    OpenKeeps(cfg, d.halted, d.suspended, o, reference);
    OnesOne(RejectedReport(o.instrument, o.id, MaxUserOrders));
  }

  /** An order past the gates: submitting it, booking its trades and telling the outcome is all there is. */
  lemma NewOpen(cfg: Config, d: Desk, engines: map<u32, Engine>, o: Order, reference: Price)
    requires CanProcess(cfg, d, o, reference)
    requires engines == d.engines || engines == d.engines[o.instrument := EngineOf(d, o.instrument)]
    requires var g := Gated(cfg, d.halted, d.suspended, o, reference);
             g.Open? && !CapReached(cfg, EngineOf(d, o.instrument).book, g.order)
    ensures var v, d1 := Gated(cfg, d.halted, d.suspended, o, reference).order, d.(engines := engines);
            var (m, rep) := SubmittedOn(cfg, d1, o.instrument, v);
            && CanSubmit(EngineOf(d1, o.instrument), v)
            && NewProcessed(cfg, d, o, reference) ==
                 (d.(engines := m, positions := Booked(d.positions, o.instrument, rep.trades)),
                   Told(cfg, o.instrument, o.id, rep))
  {
    hide Lawful, Sound, Gated, CapReached, CanSubmit, BudgetFits, Submit, Booked, Told;
    OpenKeeps(cfg, d.halted, d.suspended, o, reference);
    FreshSound(d, o.instrument);
    var i, v := o.instrument, Gated(cfg, d.halted, d.suspended, o, reference).order;
    var e := EngineOf(d, i);
    assert EngineOf(d.(engines := engines), i) == e;
    var (e', rep) := SubmittedTo(cfg, e, v);
    assert engines[i := e'] == d.engines[i := e'];
  }

  /** A step of one engine of the desk. */
  ghost function SteppedOn(cfg: Config, d: Desk, i: u32, ev: Event): map<u32, Engine> {
    d.engines[i := Stepped(cfg, EngineOf(d, i), ev)]
  }

  ghost function Stepped(cfg: Config, e: Engine, ev: Event): Engine {
    if Sound(e.book) && Lawful(cfg.setup.strategy) && Enabled(e, ev) then Step(cfg.setup, e, ev) else e
  }

  lemma SteppedOnIs(cfg: Config, d: Desk, i: u32, ev: Event, e: Engine)
    requires e == Stepped(cfg, EngineOf(d, i), ev)
    ensures d.engines[i := EngineOf(d, i)][i := e] == SteppedOn(cfg, d, i, ev)
  {
    hide Stepped, EngineOf;
  }

  ghost function AmendedTo(cfg: Config, e: Engine, id: OrderId, price: Price, qty: Qty): AmendOutcome {
    if Sound(e.book) && Lawful(cfg.setup.strategy) && Enabled(e, Amend(id, price, qty)) then
      Amended(cfg.setup, e, id, price, qty)
    else NotFound
  }

  method CancelledOn(e: MatchingEngine, cfg: Config, id: OrderId) returns (removed: bool)
    requires e.Valid() && e.setup == cfg.setup
    modifies e.Repr()
    ensures e.Valid() && e.State() == Stepped(cfg, old(e.State()), CancelOne(id))
    ensures removed <==> HasId(old(e.State()).book, id)
  {
    hide Lawful, MatchingEngine.Repr, Step, HasId, Sound, OrderBook.Valid, OrderBook.Shows;
    removed := e.CancelOrder(id);
  }

  method AmendedOn(e: MatchingEngine, cfg: Config, id: OrderId, price: Price, qty: Qty) returns (outcome: AmendOutcome)
    requires e.Valid() && e.setup == cfg.setup && Enabled(e.State(), Amend(id, price, qty))
    modifies e.Repr()
    ensures e.Valid() && e.State() == Stepped(cfg, old(e.State()), Amend(id, price, qty))
    ensures outcome == AmendedTo(cfg, old(e.State()), id, price, qty)
  {
    hide Lawful, MatchingEngine.Repr, Step, Enabled, Sound, Amended, OrderBook.Valid, OrderBook.Shows;
    outcome := e.Modify(id, price, qty);
  }

  method ClearedOn(e: MatchingEngine, cfg: Config, user: User) returns (ids: seq<OrderId>)
    requires e.Valid() && e.setup == cfg.setup
    modifies e.Repr()
    ensures e.Valid() && e.State() == Stepped(cfg, old(e.State()), CancelUser(user))
    ensures Lists(ids, IdsOfUser(old(e.State()).book, user))
  {
    hide Lawful, MatchingEngine.Repr, Step, Sound, IdsOfUser, OrderBook.Valid, OrderBook.Shows;
    ids := e.CancelAllForUser(user);
  }

  lemma ReplacedTwice(m: map<u32, Engine>, i: u32, a: Engine, b: Engine)
    ensures m[i := a][i := b] == m[i := b]
  {}

  method RestoredOn(e: MatchingEngine, clock: u64, orders: seq<Order>)
    requires e.Valid() && e.State() == FRESH && Restorable(orders)
    modifies e.Repr()
    ensures e.Valid() && e.State() == Engine(Rebuilt(orders), clock)
  {
    hide Lawful, MatchingEngine.Repr, Sound, Restorable, Rebuilt, OrderBook.Valid, OrderBook.Shows;
    e.Restore(clock, orders);
  }

  method OpenOn(e: MatchingEngine, user: User) returns (n: nat)
    requires e.Valid() && user != 0
    ensures n == |IdsOfUser(e.State().book, user)|
  {
    hide Lawful, MatchingEngine.Repr, Sound, IdsOfUser, OrderBook.Shows, Core, Tidy, LevelIndex.Valid;
    n := e.book.UserOpenOrders(user);
  }

  /** What the engine demands of an order, on values. */
  ghost predicate CanSubmit(e: Engine, o: Order) {
    e.clock < U64_MAX && Acceptable(e.book, o) && SumsFit(e.book, o, e.clock + 1)
  }

  /** A submission to one engine of the desk. */
  ghost function SubmittedOn(cfg: Config, d: Desk, i: u32, o: Order): (map<u32, Engine>, Report) {
    var (e, rep) := SubmittedTo(cfg, EngineOf(d, i), o);
    (d.engines[i := e], rep)
  }

  ghost function SubmittedTo(cfg: Config, e: Engine, o: Order): (Engine, Report) {
    if Sound(e.book) && Lawful(cfg.setup.strategy) && BudgetFits(o) && e.clock < U64_MAX then
      var (b', rep) := Submit(RulesAt(cfg.setup, e.clock + 1), e.book, o);
      (Engine(b', e.clock + 1), rep)
    else (e, Report(Rejected, 0, [], [], false))
  }

  method Submitted(e: MatchingEngine, cfg: Config, o: Order) returns (rep: Report)
    requires e.Valid() && e.setup == cfg.setup && CanSubmit(e.State(), o)
    modifies e.Repr()
    ensures e.Valid() && (e.State(), rep) == SubmittedTo(cfg, old(e.State()), o)
  {
    hide Lawful, MatchingEngine.Repr, Submit, RoomFor, HasId, SumsFit, Sound, OrderBook.Valid, OrderBook.Shows;
    rep := e.SubmitInto(o);
  }

  lemma SubmittedOnIs(cfg: Config, d: Desk, i: u32, o: Order, e: Engine, rep: Report)
    requires (e, rep) == SubmittedTo(cfg, EngineOf(d, i), o)
    ensures (d.engines[i := e], rep) == SubmittedOn(cfg, d, i, o)
    ensures d.engines[i := EngineOf(d, i)][i := e] == d.engines[i := e]
  {
    hide SubmittedTo, EngineOf;
  }

  // --- commands on values -----------------------------------------------------------------------------------------

  /** Machine limits for a command past the duplicate gates. */
  ghost predicate CanPerform(cfg: Config, d: Desk, input: Input) {
    var cmd := input.cmd;
    && DeskSound(d) && Lawful(cfg.setup.strategy) && Processing.Fits(d, cmd)
    && (cmd.New? ==> CanProcess(cfg, d, cmd.order, input.reference))
    && (cmd.ForceClose? && cmd.closeQty > 0 ==>
          CanProcess(cfg, d.(engines := SteppedOn(cfg, d, cmd.instrument, CancelUser(cmd.user))), CloseOrder(cmd),
            input.reference))
  }

  ghost function Performed(cfg: Config, d: Desk, input: Input): (Desk, seq<Emission>) {
    if DeskSound(d) && Lawful(cfg.setup.strategy) && Processing.Fits(d, input.cmd) then
      Processing.Perform(cfg, d, input)
    else (d, [])
  }

  /** The cases of a command, in terms of the pieces the methods compute. */
  lemma PerformedIs(cfg: Config, d: Desk, input: Input)
    requires CanPerform(cfg, d, input)
    ensures var cmd, i := input.cmd, input.cmd.Target();
            var e := EngineOf(d, i);
            && (cmd.New? ==> Performed(cfg, d, input) == NewProcessed(cfg, d, cmd.order, input.reference)
                             && CanProcess(cfg, d, cmd.order, input.reference))
            && (cmd.Cancel? ==>
                  Performed(cfg, d, input) == (d.(engines := SteppedOn(cfg, d, i, CancelOne(cmd.orderId))),
                   Ones([if HasId(e.book, cmd.orderId) then CancelledReport(i, cmd.orderId)
                         else NotFoundReport(i, cmd.orderId)])))
            && (cmd.Modify? ==>
                  && Enabled(e, Amend(cmd.orderId, cmd.price, cmd.qty))
                  && Performed(cfg, d, input) ==
                    (d.(engines := SteppedOn(cfg, d, i, Amend(cmd.orderId, cmd.price, cmd.qty))),
                    ToldAmendedTo(cfg, e, cmd)))
            && (cmd.ForceClose? ==>
                  var d1 := d.(engines := SteppedOn(cfg, d, i, CancelUser(cmd.user)));
                  var block := [CancelBlock(i, IdsOfUser(e.book, cmd.user))];
                  && (cmd.closeQty == 0 ==> Performed(cfg, d, input) == (d1, block))
                  && (cmd.closeQty > 0 ==>
                        var (d2, told) := NewProcessed(cfg, d1, CloseOrder(cmd), input.reference);
                        Performed(cfg, d, input) == (d2, block + told)
                          && CanProcess(cfg, d1, CloseOrder(cmd), input.reference)))
            && (cmd.Halt? || cmd.Resume? || cmd.HaltUser? || cmd.ResumeUser? ==>
              Performed(cfg, d, input) == Gates(d, cmd))
  {
    hide Lawful, Sound, Processing.ProcessNew, ToldAmended, Step, RoomFor, IdsOfUser, Cleared, Ones, CanProcess,
      BudgetFits;
    var cmd, i := input.cmd, input.cmd.Target();
    var e := EngineOf(d, i);
    FreshSound(d, i);
    match cmd
    case New(o) =>
    case Cancel(_, id, _) =>
      EnabledCancel(e, id);
      FindIs(e.book, id);
      OnesOne(if HasId(e.book, id) then CancelledReport(i, id) else NotFoundReport(i, id));
    case Modify(_, _, _, _, _) =>
    case ForceClose(_, user, _, _, qty) =>
      StepClears(cfg, e, user);
      ClearingSound(d, i, user);
      CloseIsPlain(cmd);
    case _ =>
      OnesOne(SwitchReport(cmd));
  }

  function Switched<T>(s: set<T>, x: T, on: bool, off: bool): set<T> {
    if on then s + {x} else if off then s - {x} else s
  }

  function SwitchReport(cmd: Command): ExecReport
    requires cmd.Halt? || cmd.Resume? || cmd.HaltUser? || cmd.ResumeUser?
  {
    match cmd
    case Halt(i, _) => HaltedReport(i)
    case Resume(i, _) => ResumedReport(i)
    case HaltUser(i, user, _) => UserHaltedReport(i, user)
    case ResumeUser(i, user, _) => UserResumedReport(i, user)
  }

  function Gates(d: Desk, cmd: Command): (Desk, seq<Emission>)
    requires cmd.Halt? || cmd.Resume? || cmd.HaltUser? || cmd.ResumeUser?
  {
    (d.(halted := Switched(d.halted, cmd.instrument, cmd.Halt?, cmd.Resume?),
        suspended := if cmd.HaltUser? || cmd.ResumeUser? then
                       Switched(d.suspended, cmd.user, cmd.HaltUser?, cmd.ResumeUser?)
                     else d.suspended),
     Ones([SwitchReport(cmd)]))
  }

  /** Machine limits for any command. */
  ghost predicate CanHandle(cfg: Config, d: Desk, input: Input) {
    && DeskSound(d) && Lawful(cfg.setup.strategy) && Processing.Fits(d, input.cmd)
    && (!Repeated(cfg, d, input.cmd) ==> CanPerform(cfg, Noted(cfg, d, input.cmd), input))
  }

  ghost function Handled(cfg: Config, d: Desk, input: Input): (Desk, seq<Emission>) {
    if DeskSound(d) && Lawful(cfg.setup.strategy) && Processing.Fits(d, input.cmd) then
      Processing.Process(cfg, d, input)
    else (d, [])
  }

  lemma HandledIs(cfg: Config, d: Desk, input: Input)
    requires CanHandle(cfg, d, input)
    ensures var d' := Noted(cfg, d, input.cmd);
            Handled(cfg, d, input) ==
              if Repeated(cfg, d, input.cmd) then
                (d', Ones([RejectedReport(input.cmd.Target(), input.cmd.Id(), Duplicate)]))
              else Performed(cfg, d', input)
  {
    hide Lawful, Sound, Processing.Perform, RoomFor, Enabled, Ones;
    OnesOne(RejectedReport(input.cmd.Target(), input.cmd.Id(), Duplicate));
  }

  lemma FindIs(b: Book, id: OrderId)
    ensures Submissions.Find(b, id).Some? <==> HasId(b, id)
  {}

  lemma StepClears(cfg: Config, e: Engine, user: User)
    requires Sound(e.book) && Lawful(cfg.setup.strategy)
    ensures Stepped(cfg, e, CancelUser(user)) == e.(book := Cleared(e.book, user))
  {
    hide Sound, Lawful, Cleared;
  }

  lemma CloseIsPlain(cmd: Command)
    requires cmd.ForceClose?
    ensures BudgetFits(CloseOrder(cmd))
  {}

  lemma NoneAfter(told: seq<Emission>)
    ensures Ones([]) == [] && told + [] == told
  {}

  // --- the desk invariant is all a command needs -------------------------------------------------

  /** Lots on one book add up within the machine word. */
  ghost predicate SumsSmall(b: Book) {
    forall side: Side, limit: Price :: CrossableLots(b, side, limit) <= U64_MAX
  }

  /**
   On a desk in the invariant, a command that meets the machine limits can be handled: in
   particular no insert ever meets an id that already rests.
   */
  lemma InvariantAdmits(cfg: Config, d: Desk, input: Input)
    requires DeskInv(cfg, d) && Lawful(cfg.setup.strategy) && Processing.Fits(d, input.cmd)
    requires input.cmd.New? ==> input.cmd.order.id != 0
    requires SumsSmall(EngineOf(d, input.cmd.Target()).book)
    ensures CanHandle(cfg, d, input)
  {
    hide DeskInv, Lawful, DeskSound, Enabled, RoomFor, HasId, SumsSmall, Step, CanProcess;
    OkSound(cfg, d);
    NotingKeeps(cfg, d, input.cmd);
    var d', cmd := Noted(cfg, d, input.cmd), input.cmd;
    OkSound(cfg, d');
    if !Repeated(cfg, d, cmd) {
      match cmd
      case New(o) =>
        NewIdIsFresh(cfg, d, o, o.instrument);
        NewCan(cfg, d', o, input.reference);
      case ForceClose(_, user, _, _, qty) =>
        FreshSound(d', cmd.instrument);
        StepClears(cfg, EngineOf(d', cmd.instrument), user);
        ClearingSound(d', cmd.instrument, user);
        if qty > 0 {
          CloseCan(cfg, d'.(engines := SteppedOn(cfg, d', cmd.instrument, CancelUser(user))), cmd, input.reference);
        }
      case _ =>
    }
  }

  lemma NewCan(cfg: Config, d: Desk, o: Order, reference: Price)
    requires DeskSound(d) && Lawful(cfg.setup.strategy) && Processing.Fits(d, New(o))
    requires !HasId(EngineOf(d, o.instrument).book, o.id) && SumsSmall(EngineOf(d, o.instrument).book)
    ensures CanProcess(cfg, d, o, reference)
  {
    hide Lawful, Sound, RoomFor, HasId, CapReached, Gated, CrossableLots, Ticketed, BudgetFits, MayRest;
    OpenKeeps(cfg, d.halted, d.suspended, o, reference);
  }

  lemma CloseCan(cfg: Config, d: Desk, cmd: Command, reference: Price)
    requires cmd.ForceClose? && DeskSound(d) && Lawful(cfg.setup.strategy)
             && EngineOf(d, cmd.instrument).clock < U64_MAX
    ensures CanProcess(cfg, d, CloseOrder(cmd), reference)
  {
    hide Lawful, Sound, RoomFor, HasId, CapReached, CrossableLots, Ticketed, Band;
  }
}
