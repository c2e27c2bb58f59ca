/** Snapshots of a desk: capturing, restoring, and why the restored desk behaves the same. */
module Restores {
  import opened Types
  import opened Books
  import opened Strategies
  import opened Matching
  import opened Priority
  import opened Submissions
  import opened Exports
  import opened Processing
  import opened Desks

  datatype EngineState = EngineState(instrument: u32, clock: u64, orders: seq<Order>)

  datatype Snapshot = Snapshot(
    journalSeq: u64, raftIndex: u64, maxNew: u64, maxAdmin: u64,
    halted: seq<u32>, suspended: seq<User>, positions: seq<(User, u32, int)>, engines: seq<EngineState>)

  // --- capturing ---------------------------------------------------------------------------------------

  /** One entry per engine, carrying its counter and its orders sorted by stamp. */
  ghost predicate EnginesCaptured(engines: map<u32, Engine>, es: seq<EngineState>) {
    && (forall j, k :: 0 <= j < k < |es| ==> es[j].instrument != es[k].instrument)
    && (forall k :: 0 <= k < |es| ==>
          && es[k].instrument in engines
          && es[k].clock == engines[es[k].instrument].clock
          && Exported(engines[es[k].instrument].book, es[k].orders))
    && (forall i :: i in engines ==> exists k :: 0 <= k < |es| && es[k].instrument == i)
  }

  /** One entry per nonzero position. */
  ghost predicate PositionsCaptured(positions: map<(User, u32), int>, ps: seq<(User, u32, int)>) {
    && (forall j, k :: 0 <= j < k < |ps| ==> (ps[j].0, ps[j].1) != (ps[k].0, ps[k].1))
    && (forall k :: 0 <= k < |ps| ==> Position(positions, ps[k].0, ps[k].1) == ps[k].2)
    && (forall u: User, i: u32 ::
      Position(positions, u, i) != 0 ==> exists k :: 0 <= k < |ps| && (ps[k].0, ps[k].1) == (u, i))
  }

  ghost predicate Captures(d: Desk, s: Snapshot) {
    && s.maxNew == d.maxNew && s.maxAdmin == d.maxAdmin
    && (forall i :: i in s.halted <==> i in d.halted)
    && (forall u :: u in s.suspended <==> u in d.suspended)
    && PositionsCaptured(d.positions, s.positions)
    && EnginesCaptured(d.engines, s.engines)
  }

  // --- restoring into a new desk ----------------------------------------------------------------------------

  function RestoredEngines(es: seq<EngineState>): map<u32, Engine> {
    if es == [] then map[]
    else
      var e := es[|es| - 1];
      RestoredEngines(es[..|es| - 1])[e.instrument := Engine(Rebuilt(e.orders), e.clock)]
  }

  function RestoredIds(es: seq<EngineState>): set<u64> {
    if es == [] then {}
    else RestoredIds(es[..|es| - 1]) + (set o | o in es[|es| - 1].orders :: o.id)
  }

  function RestoredPositions(ps: seq<(User, u32, int)>): map<(User, u32), int> {
    if ps == [] then map[]
    else
      var rest, (u, i, q) := RestoredPositions(ps[..|ps| - 1]), ps[|ps| - 1];
      rest[(u, i) := Position(rest, u, i) + q]
  }

  function Restored(s: Snapshot): Desk {
    Desk(RestoredEngines(s.engines), RestoredIds(s.engines), s.maxNew, s.maxAdmin,
         (set i | i in s.halted), (set u | u in s.suspended), RestoredPositions(s.positions))
  }

  // --- the restored desk is alike -------------------------------------------------------------------------------

  /** Equal in everything that decides how a fresh command is handled. */
  ghost predicate Alike(d: Desk, d': Desk) {
    && d.engines == d'.engines && d.maxNew == d'.maxNew && d.maxAdmin == d'.maxAdmin
    && d.halted == d'.halted && d.suspended == d'.suspended
    && (forall u: User, i: u32 :: Position(d.positions, u, i) == Position(d'.positions, u, i))
  }

  lemma {:induction false} RestoredEngineAt(es: seq<EngineState>, k: nat)
    requires k < |es| && forall j, k :: 0 <= j < k < |es| ==> es[j].instrument != es[k].instrument
    ensures es[k].instrument in RestoredEngines(es)
    ensures RestoredEngines(es)[es[k].instrument] == Engine(Rebuilt(es[k].orders), es[k].clock)
  {
    hide Rebuilt;
    if k < |es| - 1 {
      RestoredEngineAt(es[..|es| - 1], k);
    }
  }

  lemma {:induction false} RestoredFrom(es: seq<EngineState>, i: u32)
    requires i in RestoredEngines(es)
    ensures exists k :: 0 <= k < |es| && es[k].instrument == i
  {
    hide Rebuilt;
    if es[|es| - 1].instrument != i {
      RestoredFrom(es[..|es| - 1], i);
      var k :| 0 <= k < |es| - 1 && es[..|es| - 1][k].instrument == i;
      assert es[k].instrument == i;
    }
  }

  lemma EnginesComeBack(engines: map<u32, Engine>, es: seq<EngineState>)
    requires EnginesCaptured(engines, es)
    requires forall i :: i in engines ==> Sound(engines[i].book) && TimeOrdered(engines[i].book)
    ensures RestoredEngines(es) == engines
  {
    hide Sound, TimeOrdered, Exported, Rebuilt;
    forall i ensures i in RestoredEngines(es) <==> i in engines {
      if i in RestoredEngines(es) {
        RestoredFrom(es, i);
      }
      if i in engines {
        var k :| 0 <= k < |es| && es[k].instrument == i;
        RestoredEngineAt(es, k);
      }
    }
    forall i | i in engines ensures i in RestoredEngines(es) && RestoredEngines(es)[i] == engines[i] {
      var k :| 0 <= k < |es| && es[k].instrument == i;
      RestoredEngineAt(es, k);
      RestoreExported(engines[i].book, es[k].orders);
    }
  }

  lemma {:induction false} RestoredPosition(ps: seq<(User, u32, int)>, u: User, i: u32)
    requires forall j, k :: 0 <= j < k < |ps| ==> (ps[j].0, ps[j].1) != (ps[k].0, ps[k].1)
    ensures forall k ::
              0 <= k < |ps| && (ps[k].0, ps[k].1) == (u, i) ==> Position(RestoredPositions(ps), u, i) == ps[k].2
    ensures (forall k :: 0 <= k < |ps| ==> (ps[k].0, ps[k].1) != (u, i)) ==> Position(RestoredPositions(ps), u, i) == 0
  {
    if ps != [] {
      var rest, last := ps[..|ps| - 1], ps[|ps| - 1];
      assert forall k :: 0 <= k < |rest| ==> rest[k] == ps[k];
      RestoredPosition(rest, u, i);
      RestoredPosition(rest, last.0, last.1);
      forall k | 0 <= k < |ps| && (ps[k].0, ps[k].1) == (u, i)
        ensures Position(RestoredPositions(ps), u, i) == ps[k].2 {
        if k < |ps| - 1 {
          assert rest[k] == ps[k];
        }
      }
    }
  }

  lemma PositionsComeBack(positions: map<(User, u32), int>, ps: seq<(User, u32, int)>, u: User, i: u32)
    requires PositionsCaptured(positions, ps)
    ensures Position(RestoredPositions(ps), u, i) == Position(positions, u, i)
  {
    hide Position, RestoredPositions;
    RestoredPosition(ps, u, i);
    if k :| 0 <= k < |ps| && (ps[k].0, ps[k].1) == (u, i) {
      assert Position(positions, ps[k].0, ps[k].1) == ps[k].2;
    }
  }

  lemma {:induction false} RestoredIdsAre(es: seq<EngineState>, id: u64)
    ensures id in RestoredIds(es) <==> exists k, o :: 0 <= k < |es| && o in es[k].orders && o.id == id
  {
    if es != [] {
      var rest := es[..|es| - 1];
      assert forall k :: 0 <= k < |rest| ==> rest[k] == es[k];
      RestoredIdsAre(rest, id);
      if id in RestoredIds(rest) {
        var k, o :| 0 <= k < |rest| && o in rest[k].orders && o.id == id;
        assert o in es[k].orders;
      }
      if id in (set o | o in es[|es| - 1].orders :: o.id) {
        var o :| o in es[|es| - 1].orders && o.id == id;
        assert o in es[|es| - 1].orders;
      }
      if k, o :| 0 <= k < |es| && o in es[k].orders && o.id == id {
        if k < |es| - 1 {
          assert o in rest[k].orders;
        }
      }
    }
  }

  /** Some book of the desk has an order with this id resting. */
  ghost predicate RestsOn(d: Desk, id: u64) {
    exists i :: i in d.engines && HasId(d.engines[i].book, id)
  }

  lemma RestoredSeen(d: Desk, es: seq<EngineState>, id: u64)
    requires EnginesCaptured(d.engines, es)
    ensures id in RestoredIds(es) <==> RestsOn(d, id)
  {
    hide RestoredIds, Rests;
    RestoredIdsAre(es, id);
    if k, o :| 0 <= k < |es| && o in es[k].orders && o.id == id {
      var i := es[k].instrument;
      assert Rests(d.engines[i].book, o);
      assert HasId(d.engines[i].book, id);
    }
    if i :| i in d.engines && HasId(d.engines[i].book, id) {
      var k :| 0 <= k < |es| && es[k].instrument == i;
      var o :| Rests(d.engines[i].book, o) && o.id == id;
      assert o in es[k].orders;
    }
  }

  /** Restoring a captured desk gives the same engines, gates and positions; it remembers the resting ids. */
  lemma RestoredIsAlike(cfg: Config, d: Desk, s: Snapshot)
    requires DeskInv(cfg, d) && Captures(d, s)
    ensures Alike(d, Restored(s)) && DeskInv(cfg, Restored(s))
    ensures forall id :: id in Restored(s).seen <==> RestsOn(d, id)
    ensures Restored(s).seen <= d.seen
  {
    hide EnginesCaptured, PositionsCaptured, EngineOk, RestoredEngines, RestoredIds, RestoredPositions, RestsOn,
      Position;
    forall i | i in d.engines ensures Sound(d.engines[i].book) && TimeOrdered(d.engines[i].book) {
      OkParts(cfg, d.engines[i], d.seen);
    }
    EnginesComeBack(d.engines, s.engines);
    forall u: User, i: u32 ensures Position(d.positions, u, i) == Position(Restored(s).positions, u, i) {
      PositionsComeBack(d.positions, s.positions, u, i);
    }
    forall id ensures id in Restored(s).seen <==> RestsOn(d, id) {
      RestoredSeen(d, s.engines, id);
    }
    RestoredInv(cfg, d, Restored(s));
  }

  lemma OkParts(cfg: Config, e: Engine, seen: set<u64>)
    requires EngineOk(cfg, e, seen)
    ensures Sound(e.book) && TimeOrdered(e.book)
  {}

  lemma RestoredInv(cfg: Config, d: Desk, d': Desk)
    requires DeskInv(cfg, d) && d'.engines == d.engines && forall id :: id in d'.seen <==> RestsOn(d, id)
    ensures DeskInv(cfg, d') && d'.seen <= d.seen
  {
    hide EngineInv, WithinCap, Rests;
    forall id | id in d'.seen ensures id in d.seen {
      var i :| i in d.engines && HasId(d.engines[i].book, id);
      var o :| Rests(d.engines[i].book, o) && o.id == id;
      assert EngineOk(cfg, d.engines[i], d.seen);
    }
    forall i | i in d'.engines ensures EngineOk(cfg, d'.engines[i], d'.seen) {
      assert EngineOk(cfg, d.engines[i], d.seen);
      forall o | Rests(d.engines[i].book, o) ensures o.id != 0 && o.id in d'.seen {
        assert HasId(d.engines[i].book, o.id);
        assert RestsOn(d, o.id);
      }
    }
  }

  // --- alike desks stay alike ------------------------------------------------------------------------------------

  lemma MovedAlike(ps: map<(User, u32), int>, ps': map<(User, u32), int>, user: User, i: u32, lots: int)
    requires forall u: User, j: u32 :: Position(ps, u, j) == Position(ps', u, j)
    ensures forall u: User, j: u32 ::
              Position(Moved(ps, user, i, lots), u, j) == Position(Moved(ps', user, i, lots), u, j)
  {
    hide AsI64;
    assert Position(ps, user, i) == Position(ps', user, i);
    forall u: User, j: u32
      ensures Position(Moved(ps, user, i, lots), u, j) == Position(Moved(ps', user, i, lots), u, j) {
      assert Position(ps, u, j) == Position(ps', u, j);
    }
  }

  lemma {:induction false} BookedAlike(ps: map<(User, u32), int>, ps': map<(User, u32), int>, i: u32, ts: seq<Trade>)
    requires forall u: User, j: u32 :: Position(ps, u, j) == Position(ps', u, j)
    ensures forall u: User, j: u32 :: Position(Booked(ps, i, ts), u, j) == Position(Booked(ps', i, ts), u, j)
    decreases |ts|
  {
    hide Position, Moved, AsI64;
    if ts != [] {
      var t := ts[0];
      var (buyer, seller) := if t.aggressor.Buy? then (t.takerUser, t.makerUser) else (t.makerUser, t.takerUser);
      var q := AsI64(t.quantity);
      MovedAlike(ps, ps', buyer, i, q);
      MovedAlike(Moved(ps, buyer, i, q), Moved(ps', buyer, i, q), seller, i, -q);
      BookedAlike(Moved(Moved(ps, buyer, i, q), seller, i, -q), Moved(Moved(ps', buyer, i, q), seller, i, -q), i,
        ts[1..]);
    }
  }

  lemma NewAlike(cfg: Config, d: Desk, d': Desk, o: Order, reference: Price)
    requires DeskSound(d) && Lawful(cfg.setup.strategy) && BudgetFits(o) && EngineOf(d, o.instrument).clock < U64_MAX
    requires Alike(d, d')
    ensures DeskSound(d')
    ensures var (n, told) := ProcessNew(cfg, d, o, reference);
            var (n', told') := ProcessNew(cfg, d', o, reference);
            told == told' && Alike(n, n') && n.seen == d.seen && n'.seen == d'.seen
            && n.maxNew == d.maxNew && n.maxAdmin == d.maxAdmin
  {
    hide Lawful, Sound, Submit, Gated, CapReached, Position, Booked, Told, BudgetFits;
    var g := Gated(cfg, d.halted, d.suspended, o, reference);
    if g.Open? {
      OpenKeeps(cfg, d.halted, d.suspended, o, reference);
      var e := EngineOf(d, o.instrument);
      FreshSound(d, o.instrument);
      if !CapReached(cfg, e.book, g.order) {
        var (b', rep) := Submit(RulesAt(cfg.setup, e.clock + 1), e.book, g.order);
        BookedAlike(d.positions, d'.positions, o.instrument, rep.trades);
      }
    }
  }

  lemma PerformAlike(cfg: Config, d: Desk, d': Desk, input: Input)
    requires DeskSound(d) && Lawful(cfg.setup.strategy) && Fits(d, input.cmd) && Alike(d, d')
    ensures DeskSound(d') && Fits(d', input.cmd)
    ensures var (n, told) := Perform(cfg, d, input);
            var (n', told') := Perform(cfg, d', input);
            told == told' && Alike(n, n') && n.seen == d.seen && n'.seen == d'.seen
            && n.maxNew == d.maxNew && n.maxAdmin == d.maxAdmin
  {
    hide Lawful, Sound, ProcessNew, ToldAmended, Step, Enabled, RoomFor, Position, Find, IdsOfUser, Cleared, BudgetFits;
    var cmd := input.cmd;
    match cmd
    case New(o) =>
      NewAlike(cfg, d, d', o, input.reference);
    case ForceClose(_, user, _, _, qty) =>
      var i := cmd.instrument;
      var e := EngineOf(d, i);
      FreshSound(d, i);
      ClearingSound(d, i, user);
      ClearingSound(d', i, user);
      var d1 := d.(engines := d.engines[i := e.(book := Cleared(e.book, user))]);
      var d1' := d'.(engines := d'.engines[i := e.(book := Cleared(e.book, user))]);
      assert Alike(d1, d1');
      assert BudgetFits(CloseOrder(cmd)) by { CloseFits(cmd); }
      if qty > 0 {
        NewAlike(cfg, d1, d1', CloseOrder(cmd), input.reference);
      }
    case _ =>
      FreshSound(d, cmd.Target());
  }

  lemma CloseFits(cmd: Command)
    requires cmd.ForceClose?
    ensures BudgetFits(CloseOrder(cmd))
  {}

  /** The duplicate gates treat the command alike on both desks: its id is known to both or neither, or too low. */
  predicate SameGate(cfg: Config, d: Desk, d': Desk, cmd: Command) {
    cmd.Id() == 0 || (cmd.Id() in d.seen <==> cmd.Id() in d'.seen) || (cfg.dedup && cmd.Id() <= Cursor(d, cmd))
  }

  lemma NotedAlike(cfg: Config, d: Desk, d': Desk, cmd: Command)
    requires Alike(d, d') && SameGate(cfg, d, d', cmd)
    ensures Alike(Noted(cfg, d, cmd), Noted(cfg, d', cmd)) && (Repeated(cfg, d, cmd) <==> Repeated(cfg, d', cmd))
    ensures forall c :: SameGate(cfg, d, d', c) ==> SameGate(cfg, Noted(cfg, d, cmd), Noted(cfg, d', cmd), c)
  {
    hide Position;
  }

  lemma GateStays(cfg: Config, d: Desk, d': Desk, n: Desk, n': Desk)
    requires n.seen == d.seen && n'.seen == d'.seen && n.maxNew == d.maxNew && n.maxAdmin == d.maxAdmin
    ensures forall c :: SameGate(cfg, d, d', c) ==> SameGate(cfg, n, n', c)
  {}

  /** A command the duplicate gates treat alike gets the same reports, keeps desks alike and the gates too. */
  lemma ProcessAlike(cfg: Config, d: Desk, d': Desk, input: Input)
    requires DeskSound(d) && Lawful(cfg.setup.strategy) && Fits(d, input.cmd) && Alike(d, d')
    requires SameGate(cfg, d, d', input.cmd)
    ensures DeskSound(d') && Fits(d', input.cmd)
    ensures var (n, told) := Process(cfg, d, input);
            var (n', told') := Process(cfg, d', input);
            told == told' && Alike(n, n') && forall c :: SameGate(cfg, d, d', c) ==> SameGate(cfg, n, n', c)
  {
    hide Lawful, Sound, Perform, Enabled, RoomFor, Alike, SameGate;
    NotedAlike(cfg, d, d', input.cmd);
    AlikeEngines(d, d');
    if !Repeated(cfg, d, input.cmd) {
      var e, e' := Noted(cfg, d, input.cmd), Noted(cfg, d', input.cmd);
      PerformAlike(cfg, e, e', input);
      GateStays(cfg, e, e', Perform(cfg, e, input).0, Perform(cfg, e', input).0);
    }
  }

  lemma AlikeEngines(d: Desk, d': Desk)
    requires Alike(d, d')
    ensures d.engines == d'.engines
  {}

  // --- runs after a restore ------------------------------------------------------------------------------------------

  ghost function Reports(cfg: Config, d: Desk, inputs: seq<Input>): seq<seq<Emission>>
    requires DeskInv(cfg, d) && Lawful(cfg.setup.strategy) && Handles(cfg, d, inputs)
    decreases |inputs|
  {
    if inputs == [] then []
    else
      ProcessKeeps(cfg, d, inputs[0]);
      var (d', told) := Process(cfg, d, inputs[0]);
      [told] + Reports(cfg, d', inputs[1..])
  }

  /** The duplicate gates treat every command of the run alike. */
  ghost predicate SameGates(cfg: Config, d: Desk, d': Desk, inputs: seq<Input>) {
    forall k :: 0 <= k < |inputs| ==> SameGate(cfg, d, d', inputs[k].cmd)
  }

  lemma {:induction false} RunAlike(cfg: Config, d: Desk, d': Desk, inputs: seq<Input>)
    requires DeskInv(cfg, d) && DeskInv(cfg, d') && Lawful(cfg.setup.strategy) && Handles(cfg, d, inputs)
    requires Alike(d, d') && SameGates(cfg, d, d', inputs)
    ensures Handles(cfg, d', inputs) && Reports(cfg, d, inputs) == Reports(cfg, d', inputs)
    ensures var n, n' := DeskAfter(cfg, d, inputs), DeskAfter(cfg, d', inputs);
            Alike(n, n') && forall c :: SameGate(cfg, d, d', c) ==> SameGate(cfg, n, n', c)
    decreases |inputs|
  {
    hide DeskInv, Lawful, Process, Fits, Alike, DeskSound, SameGate;
    if inputs != [] {
      ProcessKeeps(cfg, d, inputs[0]);
      ProcessAlike(cfg, d, d', inputs[0]);
      ProcessKeeps(cfg, d', inputs[0]);
      var n, n' := Process(cfg, d, inputs[0]).0, Process(cfg, d', inputs[0]).0;
      forall k | 0 <= k < |inputs[1..]| ensures SameGate(cfg, n, n', inputs[1..][k].cmd) {
        assert inputs[1..][k] == inputs[k + 1];
      }
      RunAlike(cfg, n, n', inputs[1..]);
    }
  }

  /**
   A desk restored from a snapshot of this one treats the command as this one does: its id is new,
   or its order rests, or the monotonic gate of its stream catches it.
   */
  ghost predicate Recalled(cfg: Config, d: Desk, cmd: Command) {
    || cmd.Id() == 0 || cmd.Id() !in d.seen || RestsOn(d, cmd.Id())
    || (cfg.dedup && cmd.Id() <= Cursor(d, cmd))
  }

  lemma CapturesAlike(d: Desk, d': Desk, snapshot: Snapshot)
    requires Captures(d, snapshot) && Alike(d', d)
    ensures Captures(d', snapshot)
  {
    hide Position, EnginesCaptured;
  }

  /** A command is recalled exactly when the duplicate gates of both desks treat it alike. */
  lemma RecalledExact(cfg: Config, d: Desk, s: Snapshot, cmd: Command)
    requires DeskInv(cfg, d) && Captures(d, s)
    ensures Recalled(cfg, d, cmd) <==> SameGate(cfg, d, Restored(s), cmd)
  {
    hide DeskInv, Captures, Restored, RestsOn, Alike;
    RestoredIsAlike(cfg, d, s);
  }

  /**
   Capture, restore, and run commands whose ids are new, or rest, or are caught by a monotonic gate:
   the restored desk reports the same and ends alike.
   */
  lemma RestoreIsBisimilar(cfg: Config, d: Desk, s: Snapshot, inputs: seq<Input>)
    requires DeskInv(cfg, d) && Captures(d, s) && Lawful(cfg.setup.strategy) && Handles(cfg, d, inputs)
    requires forall k :: 0 <= k < |inputs| ==> Recalled(cfg, d, inputs[k].cmd)
    ensures DeskInv(cfg, Restored(s)) && Handles(cfg, Restored(s), inputs)
    ensures Reports(cfg, d, inputs) == Reports(cfg, Restored(s), inputs)
    ensures Alike(DeskAfter(cfg, d, inputs), DeskAfter(cfg, Restored(s), inputs))
  {
    hide DeskInv, Lawful, Captures, Restored, Alike, Handles, Reports, DeskAfter, RestsOn, SameGate, Recalled;
    RestoredIsAlike(cfg, d, s);
    forall k | 0 <= k < |inputs| ensures SameGate(cfg, d, Restored(s), inputs[k].cmd) {
      RecalledExact(cfg, d, s, inputs[k].cmd);
    }
    RunAlike(cfg, d, Restored(s), inputs);
  }

  // --- retries across a snapshot -----------------------------------------------------------------

  lemma NotDuplicate(cfg: Config, d: Desk, input: Input)
    requires DeskSound(d) && Lawful(cfg.setup.strategy) && Fits(d, input.cmd)
    ensures Perform(cfg, d, input).1 != Refused(input.cmd.Target(), input.cmd.Id(), Duplicate)
  {
    hide Lawful, Sound, ProcessNew, ToldAmended, Step, Enabled, RoomFor, Find, IdsOfUser, Cleared;
    var cmd := input.cmd;
    FreshSound(d, cmd.Target());
    match cmd
    case New(o) =>
      NewNotDuplicate(cfg, d, o, input.reference);
    case Modify(_, _, _, _, _) =>
      AmendNotDuplicate(cfg, EngineOf(d, cmd.instrument), cmd);
    case ForceClose(_, user, _, _, qty) =>
      ClearingSound(d, cmd.instrument, user);
      assert Perform(cfg, d, input).1[0].CancelBlock?;
    case _ =>
  }

  lemma NewNotDuplicate(cfg: Config, d: Desk, o: Order, reference: Price)
    requires DeskSound(d) && Lawful(cfg.setup.strategy) && BudgetFits(o) && EngineOf(d, o.instrument).clock < U64_MAX
    ensures ProcessNew(cfg, d, o, reference).1 != Refused(o.instrument, o.id, Duplicate)
  {
    hide Lawful, Sound, Submit, CapReached, Booked, TradeReports, PulledReports, BudgetFits, Vetted;
    var i := o.instrument;
    var g := Gated(cfg, d.halted, d.suspended, o, reference);
    assert [One(RejectedReport(i, o.id, Duplicate))][0] == One(RejectedReport(i, o.id, Duplicate));
    if g.Open? {
      OpenKeeps(cfg, d.halted, d.suspended, o, reference);
      FreshSound(d, i);
      var e := EngineOf(d, i);
      if !CapReached(cfg, e.book, g.order) {
        var rep := Submit(RulesAt(cfg.setup, e.clock + 1), e.book, g.order).1;
        assert Told(cfg, i, o.id, rep)[0] == One(Accepted(i, o.id));
      } else {
        assert Refused(i, o.id, MaxUserOrders)[0] == One(RejectedReport(i, o.id, MaxUserOrders));
      }
    } else {
      assert Refused(i, o.id, g.reason)[0] == One(RejectedReport(i, o.id, g.reason));
    }
  }

  lemma AmendNotDuplicate(cfg: Config, e: Engine, cmd: Command)
    requires cmd.Modify? && Sound(e.book) && Lawful(cfg.setup.strategy)
             && Enabled(e, Amend(cmd.orderId, cmd.price, cmd.qty))
    ensures ToldAmended(cfg, e, cmd) != Refused(cmd.instrument, cmd.cmdId, Duplicate)
  {
    hide Lawful, Sound, Submit, TradeReports, Find, Enabled, Reduced;
    var told := ToldAmended(cfg, e, cmd);
    var last := told[|told| - 1];
    assert last.One? && !last.report.RejectedReport?;
    assert Refused(cmd.instrument, cmd.cmdId, Duplicate)[0].report.RejectedReport?;
  }

  /**
   A retry of a command the original desk would refuse as a duplicate is refused by the restored
   desk too exactly when its order still rests, or the monotonic gate of its stream catches it.
   */
  lemma RetryAfterRestore(cfg: Config, d: Desk, s: Snapshot, input: Input)
    requires DeskInv(cfg, d) && Captures(d, s) && Lawful(cfg.setup.strategy) && Fits(d, input.cmd)
    requires Repeated(cfg, d, input.cmd)
    ensures DeskSound(d) && DeskSound(Restored(s)) && Fits(Restored(s), input.cmd)
    ensures Process(cfg, Restored(s), input).1 == Process(cfg, d, input).1 <==>
              RestsOn(d, input.cmd.Id()) || (cfg.dedup && input.cmd.Id() <= Cursor(d, input.cmd))
  {
    hide DeskInv, Lawful, Captures, Restored, Perform, RestsOn, Sound, Enabled, RoomFor;
    RestoredIsAlike(cfg, d, s);
    OkSound(cfg, d);
    OkSound(cfg, Restored(s));
    if !Repeated(cfg, Restored(s), input.cmd) {
      NotDuplicate(cfg, Noted(cfg, Restored(s), input.cmd), input);
    }
  }

  /** An immediate-or-cancel order on an empty book trades nothing and leaves the book empty. */
  lemma NothingToHit(cfg: Config, o: Order)
    requires Lawful(cfg.setup.strategy) && o.tif.Ioc? && BudgetFits(o) && Sound(FRESH.book)
    ensures var (b, rep) := Submit(RulesAt(cfg.setup, 1), FRESH.book, o); b == FRESH.book && rep.trades == []
  {
    hide Lawful, Sound;
    var t := Ticketed(FRESH.book, o, 1);
    assert OneRound(RulesAt(cfg.setup, 1), FRESH.book, t.order, t.budget).Halt?;
  }

  /** A desk on which one such order was processed. */
  lemma AfterNothing(cfg: Config, o: Order)
    requires Lawful(cfg.setup.strategy) && cfg.limits.None? && cfg.bandBps.None? && !cfg.dedup
    requires o.tif.Ioc? && o.id != 0 && o.user == 0
    ensures DeskSound(NEW_DESK) && Fits(NEW_DESK, New(o))
    ensures Process(cfg, NEW_DESK, Input(New(o), 0)).0 ==
              NEW_DESK.(engines := map[o.instrument := Engine(Book(map[], map[]), 1)], seen := {o.id})
  {
    hide Lawful, Submit, Told;
    NothingRests();
    NothingToHit(cfg, o);
    assert {} + {o.id} == {o.id};
  }

  /**
   Without fresh ids a restored desk can act on a retry: an order that was processed and does not
   rest is refused when it comes again, but not after a snapshot was taken and restored.
   */
  lemma RetryIsAccepted(cfg: Config) returns (d: Desk, s: Snapshot, input: Input)
    requires Lawful(cfg.setup.strategy) && cfg.limits.None? && cfg.bandBps.None? && !cfg.dedup
    ensures DeskSound(NEW_DESK) && Fits(NEW_DESK, input.cmd) && d == Process(cfg, NEW_DESK, input).0
    ensures DeskInv(cfg, d) && Captures(d, s) && Fits(d, input.cmd) && input.cmd.New? && input.cmd.Id() in d.seen
    ensures DeskSound(d) && DeskSound(Restored(s)) && Fits(Restored(s), input.cmd)
    ensures Process(cfg, Restored(s), input).1 != Process(cfg, d, input).1
  {
    hide Lawful, Process;
    var o := Order(7, 0, 0, Buy, Limit, Ioc, 5, 1, 1, 0);
    input := Input(New(o), 0);
    AfterNothing(cfg, o);
    ProcessKeeps(cfg, NEW_DESK, input);
    d := Process(cfg, NEW_DESK, input).0;
    s := Snapshot(0, 0, 0, 0, [], [], [], [EngineState(0, 1, [])]);
    NothingRests();
    assert s.engines[0].instrument == 0;
    assert !RestsOn(d, 7);
    RetryAfterRestore(cfg, d, s, input);
  }
}
