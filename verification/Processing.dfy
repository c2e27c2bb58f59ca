/** The processor of one shard as a function: risk gates, duplicate suppression and the engines behind them. */
module Processing {
  import opened Types
  import opened Books
  import opened Strategies
  import opened Matching
  import opened SelfTrades
  import opened Submissions

  datatype Command =
    | New(order: Order)
    | Cancel(instrument: u32, orderId: OrderId, cmdId: u64)
    | Modify(instrument: u32, orderId: OrderId, price: Price, qty: Qty, cmdId: u64)
    | ForceClose(instrument: u32, user: User, closeId: OrderId, closeSide: Side, closeQty: Qty)
    | Halt(instrument: u32, cmdId: u64)
    | Resume(instrument: u32, cmdId: u64)
    | HaltUser(instrument: u32, user: User, cmdId: u64)
    | ResumeUser(instrument: u32, user: User, cmdId: u64)
  {
    /** The id by which a repeated command is recognised. */
    function Id(): u64 {
      match this
      case New(o) => o.id
      case ForceClose(_, _, id, _, _) => id
      case _ => cmdId
    }

    function Target(): u32 {
      match this
      case New(o) => o.instrument
      case _ => instrument
    }
  }

  datatype Reason = Duplicate | OnHalt | UserSuspended | MaxQty | MaxNotional | PriceBand | MaxUserOrders | Unfillable

  datatype ExecReport =
    | Accepted(instrument: u32, orderId: OrderId)
    | TradeReport(instrument: u32, taker: OrderId, maker: OrderId, aggressor: Side, price: Price, qty: Qty,
      fees: (u64, u64))
    | FilledReport(instrument: u32, orderId: OrderId)
    | PartialReport(instrument: u32, orderId: OrderId, filled: Qty)
    | RestingReport(instrument: u32, orderId: OrderId)
    | CancelledReport(instrument: u32, orderId: OrderId)
    | RejectedReport(instrument: u32, orderId: OrderId, reason: Reason)
    | ModifiedReport(instrument: u32, orderId: OrderId, remaining: Qty)
    | NotFoundReport(instrument: u32, orderId: OrderId)
    | HaltedReport(instrument: u32)
    | ResumedReport(instrument: u32)
    | UserHaltedReport(instrument: u32, user: User)
    | UserResumedReport(instrument: u32, user: User)

  /** What a command emits: single reports, and blocks of cancels whose order is unspecified. */
  datatype Emission = One(report: ExecReport) | CancelBlock(instrument: u32, ids: set<OrderId>)

  datatype Limits = Limits(maxOrderQty: Qty, maxNotional: nat, maxUserOrders: u32)

  datatype Config = Config(
    setup: Setup, limits: Option<Limits>, bandBps: Option<u64>, dedup: bool, fees: (Price, Qty) -> (u64, u64))

  /** A command together with the reference price in force when it is processed. */
  datatype Input = Input(cmd: Command, reference: Price)

  datatype Desk = Desk(
    engines: map<u32, Engine>, seen: set<u64>, maxNew: u64, maxAdmin: u64,
    halted: set<u32>, suspended: set<User>, positions: map<(User, u32), int>)

  const FRESH: Engine := Engine(Book(map[], map[]), 0)

  function EngineOf(d: Desk, i: u32): Engine {
    if i in d.engines then d.engines[i] else FRESH
  }

  // --- risk gates --------------------------------------------------------------------------------------

  function StaticCheck(l: Limits, o: Order): Option<Reason> {
    if l.maxOrderQty > 0 && o.quantity > l.maxOrderQty then Some(MaxQty)
    else if l.maxNotional > 0 && o.orderType.Limit? && o.price * o.quantity > l.maxNotional then Some(MaxNotional)
    else None
  }

  function Band(bps: u64, reference: Price): (Price, Price) {
    var delta: Price := (if reference * bps <= U64_MAX then reference * bps else U64_MAX) / 10_000;
    (if delta <= reference then reference - delta else 0,
     if reference + delta <= U64_MAX then reference + delta else U64_MAX)
  }

  /** Price banding; a market order becomes a protected limit that never rests. */
  function Vet(bps: u64, reference: Price, o: Order): Option<Order> {
    if Budgeted(o.tif) || reference == 0 then Some(o)
    else
      var (lo, hi) := Band(bps, reference);
      match o.orderType
      case Limit => if (o.side.Buy? && o.price > hi) || (o.side.Sell? && o.price < lo) then None else Some(o)
      case Market =>
        Some(o.(orderType := Limit, price := if o.side.Buy? then hi else lo, tif := if o.tif.Gtc? then Ioc else o.tif))
  }

  function Vetted(cfg: Config, reference: Price, o: Order): Option<Order> {
    if cfg.bandBps.Some? then Vet(cfg.bandBps.value, reference, o) else Some(o)
  }

  lemma VettedKeeps(cfg: Config, reference: Price, o: Order)
    ensures var v := Vetted(cfg, reference, o);
            v.Some? ==>
              && v.value.id == o.id && v.value.user == o.user && v.value.side == o.side
              && v.value.quantity == o.quantity && v.value.instrument == o.instrument
              && (MayRest(v.value) ==> v.value == o)
              && (BudgetFits(o) ==> BudgetFits(v.value))
  {}

  ghost predicate CapReached(cfg: Config, b: Book, o: Order) {
    cfg.limits.Some? && cfg.limits.value.maxUserOrders > 0 && o.user != 0
    && |IdsOfUser(b, o.user)| >= cfg.limits.value.maxUserOrders
  }

  /** Does the user-order cap make the processor look at the book? */
  predicate Capping(cfg: Config, o: Order) {
    cfg.limits.Some? && cfg.limits.value.maxUserOrders > 0 && o.user != 0
  }

  // --- positions ------------------------------------------------------------------------------------------

  /** Two's-complement 64-bit value of an integer. */
  function AsI64(x: int): int {
    var m := x % TWO64;
    if m < TWO64 / 2 then m else m - TWO64
  }

  function Position(ps: map<(User, u32), int>, user: User, i: u32): int {
    if (user, i) in ps then ps[(user, i)] else 0
  }

  function Moved(ps: map<(User, u32), int>, user: User, i: u32, lots: int): map<(User, u32), int> {
    if user == 0 then ps else ps[(user, i) := AsI64(Position(ps, user, i) + lots)]
  }

  function Booked(ps: map<(User, u32), int>, i: u32, ts: seq<Trade>): map<(User, u32), int>
    decreases |ts|
  {
    if ts == [] then ps
    else
      var t := ts[0];
      var (buyer, seller) := if t.aggressor.Buy? then (t.takerUser, t.makerUser) else (t.makerUser, t.takerUser);
      Booked(Moved(Moved(ps, buyer, i, AsI64(t.quantity)), seller, i, -AsI64(t.quantity)), i, ts[1..])
  }

  // --- new orders ---------------------------------------------------------------------------------------------

  function TradeReports(cfg: Config, i: u32, ts: seq<Trade>): seq<Emission> {
    if ts == [] then []
    else [One(TradeReport(i, ts[0].taker, ts[0].maker, ts[0].aggressor, ts[0].price, ts[0].quantity,
                          cfg.fees(ts[0].price, ts[0].quantity)))] + TradeReports(cfg, i, ts[1..])
  }

  function PulledReports(i: u32, ids: seq<OrderId>): seq<Emission> {
    if ids == [] then [] else [One(CancelledReport(i, ids[0]))] + PulledReports(i, ids[1..])
  }

  function StatusReport(i: u32, id: OrderId, rep: Report): ExecReport {
    match rep.status
    case WhollyFilled => FilledReport(i, id)
    case PartiallyFilled => PartialReport(i, id, rep.filled)
    case NowResting => RestingReport(i, id)
    case Cancelled => CancelledReport(i, id)
    case Rejected => RejectedReport(i, id, Unfillable)
  }

  /** What is emitted for an order that passed the gates. */
  function Told(cfg: Config, i: u32, id: OrderId, rep: Report): seq<Emission> {
    [One(Accepted(i, id))]
    + (if cfg.setup.policy.Allow? then [] else PulledReports(i, rep.pulled))
    + TradeReports(cfg, i, rep.trades)
    + [One(StatusReport(i, id, rep))]
  }

  function Refused(i: u32, id: OrderId, reason: Reason): seq<Emission> {
    [One(RejectedReport(i, id, reason))]
  }

  /** The gates a new order passes before it reaches its book: the vetted order, or why it is refused. */
  datatype Gate = Open(order: Order) | Shut(reason: Reason)

  function Gated(cfg: Config, halted: set<u32>, suspended: set<User>, o: Order, reference: Price): Gate {
    if o.instrument in halted then Shut(OnHalt)
    else if o.user != 0 && o.user in suspended then Shut(UserSuspended)
    else if cfg.limits.Some? && StaticCheck(cfg.limits.value, o).Some? then Shut(StaticCheck(cfg.limits.value, o).value)
    else if Vetted(cfg, reference, o).None? then Shut(PriceBand)
    else Open(Vetted(cfg, reference, o).value)
  }

  ghost predicate DeskSound(d: Desk) {
    forall i :: i in d.engines ==> Sound(d.engines[i].book)
  }

  ghost function ProcessNew(cfg: Config, d: Desk, o: Order, reference: Price): (Desk, seq<Emission>)
    requires DeskSound(d) && Lawful(cfg.setup.strategy) && BudgetFits(o) && EngineOf(d, o.instrument).clock < U64_MAX
  {
    var i := o.instrument;
    match Gated(cfg, d.halted, d.suspended, o, reference)
    case Shut(reason) => (d, Refused(i, o.id, reason))
    case Open(v) =>
      VettedKeeps(cfg, reference, o);
      var e := EngineOf(d, i);
      if CapReached(cfg, e.book, v) then (d.(engines := d.engines[i := e]), Refused(i, o.id, MaxUserOrders))
      else
        var (b', rep) := Submit(RulesAt(cfg.setup, e.clock + 1), e.book, v);
        (d.(engines := d.engines[i := Engine(b', e.clock + 1)], positions := Booked(d.positions, i, rep.trades)),
         Told(cfg, i, o.id, rep))
  }

  // --- one command ----------------------------------------------------------------------------------------------

  function CloseOrder(cmd: Command): Order
    requires cmd.ForceClose?
  {
    Order(cmd.closeId, cmd.instrument, cmd.user, cmd.closeSide, Market, Ioc,
          if cmd.closeSide.Buy? then U64_MAX else 0, cmd.closeQty, cmd.closeQty, 0)
  }

  /** Machine limits hold for this input: the sequence counter, the budget division, room for what may rest. */
  ghost predicate Fits(d: Desk, cmd: Command) {
    var e := EngineOf(d, cmd.Target());
    match cmd
    case New(o) => e.clock < U64_MAX && BudgetFits(o) && (MayRest(o) ==> RoomFor(e.book, o.(remaining := o.quantity)))
    case Modify(_, id, price, qty, _) => Enabled(e, Amend(id, price, qty))
    case ForceClose(_, _, _, _, qty) => qty > 0 ==> e.clock < U64_MAX
    case _ => true
  }

  /** What an amendment emits. */
  ghost function ToldAmended(cfg: Config, e: Engine, cmd: Command): seq<Emission>
    requires cmd.Modify? && Sound(e.book) && Lawful(cfg.setup.strategy)
             && Enabled(e, Amend(cmd.orderId, cmd.price, cmd.qty))
  {
    var i, id := cmd.instrument, cmd.orderId;
    match Find(e.book, id)
    case None => [One(NotFoundReport(i, id))]
    case Some(o) =>
      if InPlace(o, cmd.price, cmd.qty) then
        if cmd.qty == 0 then [One(CancelledReport(i, id))] else [One(ModifiedReport(i, id, cmd.qty))]
      else
        LeavingKeeps(e, o);
        var rep := Submit(RulesAt(cfg.setup, e.clock + 1), Removed(e.book, o), Requoted(o, cmd.price, cmd.qty)).1;
        TradeReports(cfg, i, rep.trades) + [One(RequoteReport(i, id, cmd.qty, rep))]
  }

  function RequoteReport(i: u32, id: OrderId, qty: Qty, rep: Report): ExecReport {
    match rep.status
    case WhollyFilled => FilledReport(i, id)
    case NowResting => ModifiedReport(i, id, if rep.filled <= qty then qty - rep.filled else 0)
    case PartiallyFilled => ModifiedReport(i, id, if rep.filled <= qty then qty - rep.filled else 0)
    case _ => CancelledReport(i, id)
  }

  predicate Admin(cmd: Command) {
    !cmd.New?
  }

  function Cursor(d: Desk, cmd: Command): u64 {
    if Admin(cmd) then d.maxAdmin else d.maxNew
  }

  function Advanced(d: Desk, cmd: Command): Desk {
    if Admin(cmd) then d.(maxAdmin := cmd.Id()) else d.(maxNew := cmd.Id())
  }

  /** The command's effect once it passed the duplicate gates. */
  ghost function Perform(cfg: Config, d: Desk, input: Input): (Desk, seq<Emission>)
    requires DeskSound(d) && Lawful(cfg.setup.strategy) && Fits(d, input.cmd)
  {
    hide Lawful, Sound, Submit, Step, ProcessNew, ToldAmended, RoomFor, Enabled;
    var cmd := input.cmd;
    var i, e := cmd.Target(), EngineOf(d, cmd.Target());
    FreshSound(d, i);
    match cmd
    case New(o) => ProcessNew(cfg, d, o, input.reference)
    case Cancel(_, id, _) =>
      EnabledCancel(e, id);
      (d.(engines := d.engines[i := Step(cfg.setup, e, CancelOne(id))]),
       [One(if Find(e.book, id).Some? then CancelledReport(i, id) else NotFoundReport(i, id))])
    case Modify(_, id, price, qty, _) =>
      (d.(engines := d.engines[i := Step(cfg.setup, e, Amend(id, price, qty))]), ToldAmended(cfg, e, cmd))
    case ForceClose(_, user, _, _, qty) =>
      var d1 := d.(engines := d.engines[i := e.(book := Cleared(e.book, user))]);
      var block := [CancelBlock(i, IdsOfUser(e.book, user))];
      ClearingSound(d, i, user);
      if qty == 0 then (d1, block)
      else
        var (d2, told) := ProcessNew(cfg, d1, CloseOrder(cmd), input.reference);
        (d2, block + told)
    case Halt(_, _) => (d.(halted := d.halted + {i}), [One(HaltedReport(i))])
    case Resume(_, _) => (d.(halted := d.halted - {i}), [One(ResumedReport(i))])
    case HaltUser(_, user, _) => (d.(suspended := d.suspended + {user}), [One(UserHaltedReport(i, user))])
    case ResumeUser(_, user, _) => (d.(suspended := d.suspended - {user}), [One(UserResumedReport(i, user))])
  }

  lemma FreshSound(d: Desk, i: u32)
    requires DeskSound(d)
    ensures Sound(EngineOf(d, i).book)
  {}

  lemma EnabledCancel(e: Engine, id: OrderId)
    ensures Enabled(e, CancelOne(id))
  {}

  lemma ClearingSound(d: Desk, i: u32, user: User)
    requires DeskSound(d)
    ensures DeskSound(d.(engines := d.engines[i := EngineOf(d, i).(book := Cleared(EngineOf(d, i).book, user))]))
  {
    hide Sound, WithoutUser;
    FreshSound(d, i);
    var b := EngineOf(d, i).book;
    WithoutUserSound(b, Buy, user);
    WithoutUserSound(WithoutUser(b, Buy, user), Sell, user);
  }

  /** Duplicate gates: the exact id, then (when enabled) the high-water mark of the command's stream. */
  predicate Repeated(cfg: Config, d: Desk, cmd: Command) {
    cmd.Id() != 0 && (cmd.Id() in d.seen || (cfg.dedup && cmd.Id() <= Cursor(d, cmd)))
  }

  /** The desk with the command's id taken note of. */
  function Noted(cfg: Config, d: Desk, cmd: Command): Desk {
    if cmd.Id() == 0 then d
    else if cfg.dedup && cmd.Id() !in d.seen && cmd.Id() > Cursor(d, cmd) then
      Advanced(d.(seen := d.seen + {cmd.Id()}), cmd)
    else d.(seen := d.seen + {cmd.Id()})
  }

  ghost function Process(cfg: Config, d: Desk, input: Input): (Desk, seq<Emission>)
    requires DeskSound(d) && Lawful(cfg.setup.strategy) && Fits(d, input.cmd)
  {
    hide Lawful, Sound, Perform, RoomFor, Enabled;
    var d' := Noted(cfg, d, input.cmd);
    if Repeated(cfg, d, input.cmd) then (d', Refused(input.cmd.Target(), input.cmd.Id(), Duplicate))
    else Perform(cfg, d', input)
  }
}
