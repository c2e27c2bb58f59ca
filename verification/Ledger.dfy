/** The position ledger: what each user bought less what they sold, over every run. */
module Ledgers {
  import opened Types
  import opened Arithmetic
  import opened Books
  import opened Strategies
  import opened Matching
  import opened Crossings
  import opened Submissions
  import opened Processing
  import opened Desks
  import opened Narrations
  import opened SnapshotFiles
  import opened SavedDesks

  /** Lots a user bought: as the taker of a buy, or as the maker a sell hit. */
  function BoughtBy(ts: seq<Trade>, user: User): nat {
    if ts == [] then 0
    else
      (match ts[0].aggressor
       case Buy => if ts[0].takerUser == user then ts[0].quantity else 0
       case Sell => if ts[0].makerUser == user then ts[0].quantity else 0) + BoughtBy(ts[1..], user)
  }

  /** Lots a user sold: as the taker of a sell, or as the maker a buy hit. */
  function SoldBy(ts: seq<Trade>, user: User): nat {
    if ts == [] then 0
    else
      (match ts[0].aggressor
       case Buy => if ts[0].makerUser == user then ts[0].quantity else 0
       case Sell => if ts[0].takerUser == user then ts[0].quantity else 0) + SoldBy(ts[1..], user)
  }

  // --- the wrapped sum ----------------------------------------------------------------------------------

  /** Wrapping takes off a multiple of the word. */
  lemma WrapsBy(x: int) returns (k: int)
    ensures AsI64(x) == x + TWO64 * k
  {
    Euclid(x, TWO64);
    k := if x % TWO64 < TWO64 / 2 then -(x / TWO64) else -(x / TWO64) - 1;
  }

  lemma WrapsAlike(x: int, k: int)
    ensures AsI64(x + TWO64 * k) == AsI64(x)
  {
    Euclid(x, TWO64);
    DivisionUnique(x + TWO64 * k, TWO64, x / TWO64 + k, x % TWO64);
  }

  lemma WrapsAdd(a: int, b: int)
    ensures AsI64(AsI64(a) + AsI64(b)) == AsI64(a + b) && AsI64(AsI64(a) - AsI64(b)) == AsI64(a - b)
    ensures AsI64(AsI64(a) + b) == AsI64(a + b)
  {
    hide AsI64;
    var j := WrapsBy(a);
    var k := WrapsBy(b);
    WrapsAlike(a + b, j + k);
    WrapsAlike(a - b, j - k);
    WrapsAlike(a + b, j);
  }

  lemma MovedPosition(ps: map<(User, u32), int>, mover: User, i: u32, lots: int, user: User, j: u32)
    requires IsI64(Position(ps, user, j))
    ensures Position(Moved(ps, mover, i, lots), user, j) ==
              if user != 0 && user == mover && j == i then
                AsI64(Position(ps, user, j) + lots) else Position(ps, user, j)
    ensures IsI64(Position(Moved(ps, mover, i, lots), user, j))
  {
    AsI64Fits(Position(ps, user, j) + lots);
  }

  lemma OneTrade(p: int, q: nat, buys: bool, sells: bool, bought: nat, sold: nat)
    requires IsI64(p)
    ensures var p1 := if buys then AsI64(p + AsI64(q)) else p;
            var p2 := if sells then AsI64(p1 - AsI64(q)) else p1;
            AsI64(p2 + bought - sold) == AsI64(p + (if buys then q else 0) + bought - (if sells then q else 0) - sold)
  {
    hide AsI64;
    InRange(p);
    WrapsAdd(p, q);
    var p1 := if buys then AsI64(p + AsI64(q)) else p;
    var s1 := if buys then p + q else p;
    assert p1 == AsI64(s1);
    WrapsAdd(s1, q);
    var p2 := if sells then AsI64(p1 - AsI64(q)) else p1;
    var s2 := if sells then s1 - q else s1;
    assert p2 == AsI64(s2);
    WrapsAdd(s2, bought - sold);
  }

  lemma InRange(p: int)
    requires IsI64(p)
    ensures AsI64(p) == p
  {}

  /** Booking trades moves each user, on this instrument only, by what they bought less what they sold. */
  lemma {:induction false} BookedExactly(ps: map<(User, u32), int>, i: u32, ts: seq<Trade>, user: User, j: u32)
    requires IsI64(Position(ps, user, j))
    ensures Position(Booked(ps, i, ts), user, j) ==
              if user == 0 || j != i then Position(ps, user, j)
              else AsI64(Position(ps, user, j) + BoughtBy(ts, user) - SoldBy(ts, user))
    decreases |ts|
  {
    hide AsI64, Moved, Position, IsI64;
    if ts == [] {
      InRange(Position(ps, user, j));
    } else {
      var t := ts[0];
      var (buyer, seller) := if t.aggressor.Buy? then (t.takerUser, t.makerUser) else (t.makerUser, t.takerUser);
      var ps1 := Moved(ps, buyer, i, AsI64(t.quantity));
      var ps2 := Moved(ps1, seller, i, -AsI64(t.quantity));
      MovedPosition(ps, buyer, i, AsI64(t.quantity), user, j);
      MovedPosition(ps1, seller, i, -AsI64(t.quantity), user, j);
      BookedExactly(ps2, i, ts[1..], user, j);
      OneTrade(Position(ps, user, j), t.quantity, user == buyer, user == seller, BoughtBy(ts[1..], user),
        SoldBy(ts[1..], user));
    }
  }

  /** The taker's side of its trades is its own; the other side is its makers'. */
  lemma {:induction false} TakersSide(ts: seq<Trade>, side: Side, taker: User, user: User)
    requires forall k :: 0 <= k < |ts| ==> ts[k].aggressor == side && ts[k].takerUser == taker
    ensures var taken := if user == taker then Traded(ts) else 0;
            if side.Buy? then BoughtBy(ts, user) == taken else SoldBy(ts, user) == taken
    ensures (forall k :: 0 <= k < |ts| ==> ts[k].makerUser != user) ==>
              if side.Buy? then SoldBy(ts, user) == 0 else BoughtBy(ts, user) == 0
  {
    if ts != [] {
      TakersSide(ts[1..], side, taker, user);
      assert forall k :: 0 <= k < |ts[1..]| ==> ts[1..][k] == ts[k + 1];
    }
  }

  // --- one order ----------------------------------------------------------------------------------------

  /** The trades of an order on its way in: those of its submission, once it is past the gates and the cap. */
  ghost function EntryTrades(cfg: Config, d: Desk, o: Order, reference: Price): seq<Trade>
    requires DeskSound(d) && Lawful(cfg.setup.strategy) && BudgetFits(o) && EngineOf(d, o.instrument).clock < U64_MAX
  {
    var g, e := Gated(cfg, d.halted, d.suspended, o, reference), EngineOf(d, o.instrument);
    OpenKeeps(cfg, d.halted, d.suspended, o, reference);
    FreshSound(d, o.instrument);
    if g.Shut? || CapReached(cfg, e.book, g.order) then []
    else Submit(RulesAt(cfg.setup, e.clock + 1), e.book, g.order).1.trades
  }

  /** A new order moves every user by what its trades bought and sold, and tells exactly those lots. */
  lemma NewOrderMoves(cfg: Config, d: Desk, o: Order, reference: Price, user: User, j: u32)
    requires DeskSound(d) && Lawful(cfg.setup.strategy) && BudgetFits(o) && EngineOf(d, o.instrument).clock < U64_MAX
    requires PositionsFit(d)
    ensures var (d', told) := ProcessNew(cfg, d, o, reference);
            var ts := EntryTrades(cfg, d, o, reference);
            && ToldLots(told) == Traded(ts)
            && Position(d'.positions, user, j) ==
                 if user == 0 || j != o.instrument then Position(d.positions, user, j)
                 else AsI64(Position(d.positions, user, j) + BoughtBy(ts, user) - SoldBy(ts, user))
  {
    hide Lawful, Sound, Submit, Gated, CapReached, IsI64, Booked, Position, BoughtBy, SoldBy, AsI64, ToldLots, Traded,
      Told, BudgetFits, ToldWith, TradedWith;
    OpenKeeps(cfg, d.halted, d.suspended, o, reference);
    FreshSound(d, o.instrument);
    assert IsI64(Position(d.positions, user, j));
    var ts := EntryTrades(cfg, d, o, reference);
    BookedExactly(d.positions, o.instrument, ts, user, j);
    var g, e := Gated(cfg, d.halted, d.suspended, o, reference), EngineOf(d, o.instrument);
    if g.Shut? || CapReached(cfg, e.book, g.order) {
      ToldRefused(o.instrument, o.id, if g.Shut? then g.reason else MaxUserOrders);
      NothingMoves(d.positions, o.instrument, user, j);
    } else {
      SubmissionTold(cfg, o.instrument, o.id, Submit(RulesAt(cfg.setup, e.clock + 1), e.book, g.order).1, 0, 0);
    }
  }

  lemma NothingMoves(ps: map<(User, u32), int>, i: u32, user: User, j: u32)
    requires IsI64(Position(ps, user, j))
    ensures Traded([]) == 0
            && AsI64(Position(ps, user, j) + BoughtBy([], user) - SoldBy([], user)) == Position(ps, user, j)
  {}

  lemma ToldRefused(i: u32, id: OrderId, reason: Reason)
    ensures ToldLots(Refused(i, id, reason)) == 0
  {
    ToldNothing(Refused(i, id, reason), 0, 0);
  }

  // --- runs ---------------------------------------------------------------------------------------------

  /** The trades of the order a command enters: its own for a new order, the close-out for a force-close. */
  ghost function CommandTrades(cfg: Config, d: Desk, input: Input): seq<Trade>
    requires DeskSound(d) && Lawful(cfg.setup.strategy) && Fits(d, input.cmd)
  {
    hide Lawful, Sound, EntryTrades, RoomFor, Enabled;
    var cmd, d' := input.cmd, Noted(cfg, d, input.cmd);
    if Repeated(cfg, d, cmd) then []
    else
      match cmd
      case New(o) => EntryTrades(cfg, d', o, input.reference)
      case ForceClose(i, user, _, _, qty) =>
        ClearingSound(d', i, user);
        var e := EngineOf(d', i);
        if qty == 0 then []
        else EntryTrades(cfg, d'.(engines := d'.engines[i := e.(book := Cleared(e.book, user))]), CloseOrder(cmd),
                         input.reference)
      case _ => []
  }

  lemma CommandMoves(cfg: Config, d: Desk, input: Input, user: User, j: u32)
    requires DeskSound(d) && Lawful(cfg.setup.strategy) && Fits(d, input.cmd) && PositionsFit(d)
    ensures var d', ts := Process(cfg, d, input).0, CommandTrades(cfg, d, input);
            Position(d'.positions, user, j) ==
              if user == 0 || j != input.cmd.Target() then Position(d.positions, user, j)
              else AsI64(Position(d.positions, user, j) + BoughtBy(ts, user) - SoldBy(ts, user))
  {
    hide Lawful, Sound, ProcessNew, EntryTrades, ToldAmended, Step, Enabled, RoomFor, Find, IdsOfUser, Cleared, IsI64,
      BoughtBy, SoldBy, AsI64, Position, ToldLots, Traded;
    var cmd, d' := input.cmd, Noted(cfg, d, input.cmd);
    var i := cmd.Target();
    assert IsI64(Position(d.positions, user, j));
    NothingMoves(d.positions, i, user, j);
    if !Repeated(cfg, d, cmd) {
      FreshSound(d', i);
      match cmd
      case New(o) =>
        NewOrderMoves(cfg, d', o, input.reference, user, j);
      case ForceClose(_, closed, _, _, qty) =>
        ClearingSound(d', i, closed);
        if qty > 0 {
          var e := EngineOf(d', i);
          NewOrderMoves(cfg, d'.(engines := d'.engines[i := e.(book := Cleared(e.book, closed))]), CloseOrder(cmd),
            input.reference, user, j);
        }
      case _ =>
    }
  }

  /** The trades a run makes on one instrument with the orders it enters, in their order. */
  ghost function RunTrades(cfg: Config, d: Desk, inputs: seq<Input>, i: u32): seq<Trade>
    requires DeskInv(cfg, d) && Lawful(cfg.setup.strategy) && Handles(cfg, d, inputs)
    decreases |inputs|
  {
    if inputs == [] then []
    else
      ProcessKeeps(cfg, d, inputs[0]);
      (if inputs[0].cmd.Target() == i then CommandTrades(cfg, d, inputs[0]) else [])
      + RunTrades(cfg, Process(cfg, d, inputs[0]).0, inputs[1..], i)
  }

  lemma {:induction false} NetConcat(a: seq<Trade>, b: seq<Trade>, user: User)
    ensures BoughtBy(a + b, user) == BoughtBy(a, user) + BoughtBy(b, user)
    ensures SoldBy(a + b, user) == SoldBy(a, user) + SoldBy(b, user)
    decreases |a|
  {
    if a == [] {
      assert a + b == b;
    } else {
      assert (a + b)[1..] == a[1..] + b;
      NetConcat(a[1..], b, user);
    }
  }

  /**
   Over every run, a user's position on an instrument is where it started, plus all the lots they
   bought, less all they sold, in the trades of the orders entered there, as a wrapped 64-bit number.
   */
  lemma {:induction false} LedgerIsNet(cfg: Config, d: Desk, inputs: seq<Input>, user: User, i: u32)
    requires DeskInv(cfg, d) && Lawful(cfg.setup.strategy) && Handles(cfg, d, inputs) && PositionsFit(d) && user != 0
    ensures var ts := RunTrades(cfg, d, inputs, i);
            Position(DeskAfter(cfg, d, inputs).positions, user, i) ==
              AsI64(Position(d.positions, user, i) + BoughtBy(ts, user) - SoldBy(ts, user))
    decreases |inputs|
  {
    hide DeskInv, Lawful, Process, Fits, PositionsFit, CommandTrades, Position, AsI64, IsI64, BoughtBy, SoldBy;
    FitsHere(d, user, i);
    NothingMoves(d.positions, i, user, i);
    if inputs != [] {
      ProcessKeeps(cfg, d, inputs[0]);
      var d' := Process(cfg, d, inputs[0]).0;
      ProcessFits(cfg, d, inputs[0]);
      CommandMoves(cfg, d, inputs[0], user, i);
      LedgerIsNet(cfg, d', inputs[1..], user, i);
      var here := if inputs[0].cmd.Target() == i then CommandTrades(cfg, d, inputs[0]) else [];
      var rest := RunTrades(cfg, d', inputs[1..], i);
      NetConcat(here, rest, user);
      WrapsAdd(Position(d.positions, user, i) + BoughtBy(here, user) - SoldBy(here, user),
        BoughtBy(rest, user) - SoldBy(rest, user));
    }
  }

  lemma FitsHere(d: Desk, user: User, i: u32)
    requires PositionsFit(d)
    ensures IsI64(Position(d.positions, user, i))
  {}
}
