/** From a desk to a snapshot file and back. */
module SavedDesks {
  import opened Types
  import opened Books
  import opened Strategies
  import opened Matching
  import opened Submissions
  import opened Processing
  import opened Renderings
  import opened Desks
  import opened Restores
  import opened SnapshotFiles

  /** Every position is a signed 64-bit number. */
  ghost predicate PositionsFit(d: Desk) {
    forall u: User, i: u32 :: IsI64(Position(d.positions, u, i))
  }

  lemma {:induction false} BookedFits(ps: map<(User, u32), int>, i: u32, ts: seq<Trade>)
    requires forall u: User, j: u32 :: IsI64(Position(ps, u, j))
    ensures forall u: User, j: u32 :: IsI64(Position(Booked(ps, i, ts), u, j))
    decreases |ts|
  {
    if ts != [] {
      var t := ts[0];
      var (buyer, seller) := if t.aggressor.Buy? then (t.takerUser, t.makerUser) else (t.makerUser, t.takerUser);
      MovedFits(ps, buyer, i, AsI64(t.quantity));
      var ps1 := Moved(ps, buyer, i, AsI64(t.quantity));
      MovedFits(ps1, seller, i, -AsI64(t.quantity));
      BookedFits(Moved(ps1, seller, i, -AsI64(t.quantity)), i, ts[1..]);
    }
  }

  lemma MovedFits(ps: map<(User, u32), int>, user: User, i: u32, lots: int)
    requires forall u: User, j: u32 :: IsI64(Position(ps, u, j))
    ensures forall u: User, j: u32 :: IsI64(Position(Moved(ps, user, i, lots), u, j))
  {
    hide AsI64, IsI64;
    forall u: User, j: u32 ensures IsI64(Position(Moved(ps, user, i, lots), u, j)) {
      AsI64Fits(Position(ps, user, i) + lots);
      assert IsI64(Position(ps, u, j));
    }
  }

  lemma AsI64Fits(x: int)
    ensures IsI64(AsI64(x))
  {}

  lemma NewFits(cfg: Config, d: Desk, o: Order, reference: Price)
    requires DeskSound(d) && Lawful(cfg.setup.strategy) && BudgetFits(o) && EngineOf(d, o.instrument).clock < U64_MAX
    requires PositionsFit(d)
    ensures PositionsFit(ProcessNew(cfg, d, o, reference).0)
  {
    hide Lawful, Submit, Gated, CapReached, Told, IsI64, Booked, Vetted;
    var g := Gated(cfg, d.halted, d.suspended, o, reference);
    if g.Open? {
      VettedKeeps(cfg, reference, o);
      OpenIsVetted(cfg, d.halted, d.suspended, o, reference);
      var e := EngineOf(d, o.instrument);
      FreshSound(d, o.instrument);
      BookedFits(d.positions, o.instrument, Submit(RulesAt(cfg.setup, e.clock + 1), e.book, g.order).1.trades);
    }
  }

  lemma ProcessFits(cfg: Config, d: Desk, input: Input)
    requires DeskSound(d) && Lawful(cfg.setup.strategy) && Fits(d, input.cmd) && PositionsFit(d)
    ensures PositionsFit(Process(cfg, d, input).0)
  {
    hide Lawful, Sound, ProcessNew, ToldAmended, Step, Enabled, RoomFor, Find, IdsOfUser, Cleared, IsI64;
    var cmd, d' := input.cmd, Noted(cfg, d, input.cmd);
    if !Repeated(cfg, d, cmd) {
      FreshSound(d', cmd.Target());
      match cmd
      case New(o) =>
        NewFits(cfg, d', o, input.reference);
      case ForceClose(i, user, _, _, qty) =>
        ClearingSound(d', i, user);
        if qty > 0 {
          var e := EngineOf(d', i);
          NewFits(cfg, d'.(engines := d'.engines[i := e.(book := Cleared(e.book, user))]), CloseOrder(cmd),
            input.reference);
        }
      case _ =>
    }
  }

  lemma {:induction false} ReachedFits(cfg: Config, d: Desk, inputs: seq<Input>)
    requires DeskInv(cfg, d) && Lawful(cfg.setup.strategy) && Handles(cfg, d, inputs) && PositionsFit(d)
    ensures PositionsFit(DeskAfter(cfg, d, inputs)) && DeskInv(cfg, DeskAfter(cfg, d, inputs))
    decreases |inputs|
  {
    hide DeskInv, Lawful, Process, Fits, PositionsFit;
    if inputs != [] {
      ProcessKeeps(cfg, d, inputs[0]);
      ProcessFits(cfg, d, inputs[0]);
      ReachedFits(cfg, Process(cfg, d, inputs[0]).0, inputs[1..]);
    }
  }

  /** The lists of a snapshot are within their counts. */
  ghost predicate CountsFit(s: Snapshot) {
    && |s.halted| <= 0xFFFF_FFFF && |s.suspended| <= 0xFFFF_FFFF
    && |s.positions| <= 0xFFFF_FFFF && |s.engines| <= 0xFFFF_FFFF
    && (forall k :: 0 <= k < |s.engines| ==> |s.engines[k].orders| <= U64_MAX)
  }

  /**
   From any reachable desk: what is captured can be written, loads back, and restores to a desk that
   reports the same on every further run whose ids are new or recalled, and ends alike.
   */
  lemma SavedAndRestored(cfg: Config, before: seq<Input>, s: Snapshot, after: seq<Input>)
    requires Lawful(cfg.setup.strategy) && DeskInv(cfg, NEW_DESK) && Handles(cfg, NEW_DESK, before)
    requires DeskInv(cfg, DeskAfter(cfg, NEW_DESK, before)) && Captures(DeskAfter(cfg, NEW_DESK, before), s)
             && CountsFit(s)
    requires Handles(cfg, DeskAfter(cfg, NEW_DESK, before), after)
    requires forall k :: 0 <= k < |after| ==> Recalled(cfg, DeskAfter(cfg, NEW_DESK, before), after[k].cmd)
    ensures Writable(s) && Load(FileBytes(s)).Some?
    ensures var d, d' := DeskAfter(cfg, NEW_DESK, before), Restored(Load(FileBytes(s)).value);
            && DeskInv(cfg, d') && Handles(cfg, d', after) && Reports(cfg, d', after) == Reports(cfg, d, after)
            && Alike(DeskAfter(cfg, d, after), DeskAfter(cfg, d', after))
  {
    hide DeskInv, Lawful, Handles, DeskAfter, Reports, Alike, Restored, Load, FileBytes, Position, EnginesCaptured,
      IsI64;
    var d := DeskAfter(cfg, NEW_DESK, before);
    NewDeskFits();
    ReachedFits(cfg, NEW_DESK, before);
    forall k | 0 <= k < |s.positions| ensures IsI64(s.positions[k].2) {
      assert IsI64(Position(d.positions, s.positions[k].0, s.positions[k].1));
    }
    SnapshotRoundTrip(s);
    RestoreIsBisimilar(cfg, d, s, after);
  }

  lemma NewDeskFits()
    ensures PositionsFit(NEW_DESK)
  {}
}
