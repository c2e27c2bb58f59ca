/** Runs of the outbox after which the shard does not come back, or comes back with less. */
module OutboxFailures {
  import opened Types
  import opened Strategies
  import opened Bytes
  import opened Checksums
  import opened Processing
  import opened Desks
  import opened Restores
  import opened Histories
  import opened Renderings
  import opened ReportFrames
  import opened Proofs
  import opened Outboxes
  import opened Batches
  import opened OutboxRuns
  import opened OutboxRestarts
  import opened Samples

  // --- building a run ----------------------------------------------------------------------------------

  /** The shard after its first start. */
  const STARTED_OUTBOX: Outbox := NEW_OUTBOX.(synced := HEADER, phase := Idle)

  lemma FirstStart(cfg: Config, group: u32, log: seq<Batch>) returns (acts: seq<Act>, states: seq<Outbox>)
    requires Replayable(cfg) && Ordered(log)
    ensures GoodRun(cfg, group, log, acts, states) && Clean(acts, states) && states[|acts|] == STARTED_OUTBOX
  {
    hide Replayable, Ordered;
    acts, states := [Start], [NEW_OUTBOX, STARTED_OUTBOX];
    assert Watermark([]) == None;
    assert Next(cfg, group, log, NEW_OUTBOX, Start, STARTED_OUTBOX);
  }

  /** A batch applied and synced. */
  ghost function SyncedState(cfg: Config, group: u32, log: seq<Batch>, x: Outbox, out: seq<ExecReport>): Outbox
    requires Handled(cfg, log, x, out)
  {
    x.(synced := x.synced + BatchBytes(group, Entry(log[x.at].index, out), 0), phase := Synced(out),
       desk := After(cfg, x.desk, log[x.at].commands))
  }

  lemma UpToSync(cfg: Config, group: u32, log: seq<Batch>, acts: seq<Act>, states: seq<Outbox>, out: seq<ExecReport>)
      returns (acts': seq<Act>, states': seq<Outbox>)
    requires GoodRun(cfg, group, log, acts, states)
    requires var x := states[|acts|]; Handled(cfg, log, x, out) && x.at == |x.done|
    ensures GoodRun(cfg, group, log, acts', states') && (Clean(acts, states) ==> Clean(acts', states'))
    ensures states'[|acts'|] == SyncedState(cfg, group, log, states[|acts|], out)
  {
    hide GoodRun, Clean, Misread, Handled, BatchBytes, After, Takes, Ordered, Files, DesksOk, Lawful, Proven;
    RunIsFine(cfg, group, log, acts, states);
    var x := states[|acts|];
    HandledIs(cfg, log, x, out);
    IdleIs(group, log, x);
    NextProven(log, x);
    var bytes := BatchBytes(group, Entry(log[x.at].index, out), 0);
    var y := x.(unsynced := bytes, phase := Written(out), desk := After(cfg, x.desk, log[x.at].commands));
    RunMore(cfg, group, log, acts, states, Apply(out), y);
    acts', states' := acts + [Apply(out)], states + [y];
    var z := SyncedState(cfg, group, log, x, out);
    assert z == y.(synced := y.synced + y.unsynced, unsynced := [], phase := Synced(y.phase.out));
    RunMore(cfg, group, log, acts', states', Sync, z);
    acts', states' := acts' + [Sync], states' + [z];
  }

  /** A batch applied, synced and marked. */
  ghost function MarkedState(cfg: Config, group: u32, log: seq<Batch>, x: Outbox, out: seq<ExecReport>): Outbox
    requires Handled(cfg, log, x, out) && !x.proofs.TornHeader?
  {
    var e := Entry(log[x.at].index, out);
    var p := ProofOf(e.index, out);
    SyncedState(cfg, group, log, x, out).(
      proofs := Marked(x.proofs, p, |MarkBytes(x.proofs, p)|), done := x.done + [e], at := x.at + 1, phase := Proved)
  }

  /** The proof file ends in a whole proof, if there is one. */
  predicate Uncut(p: ProofFile) {
    p.NoFile? || (p.Proofs? && p.stray == [])
  }

  lemma MarkedUncut(p: ProofFile, proof: Proof)
    requires Uncut(p)
    ensures Marked(p, proof, |MarkBytes(p, proof)|) == Proofs((if p.NoFile? then [] else p.whole) + [proof], [])
  {
    hide ProofBytes;
  }

  lemma MarkMore(cfg: Config, group: u32, log: seq<Batch>, acts: seq<Act>, states: seq<Outbox>, out: seq<ExecReport>)
      returns (acts': seq<Act>, states': seq<Outbox>)
    requires GoodRun(cfg, group, log, acts, states)
    requires var x := states[|acts|]; Handled(cfg, log, x, out) && x.at == |x.done| && Uncut(x.proofs)
    ensures GoodRun(cfg, group, log, acts', states') && (Clean(acts, states) ==> Clean(acts', states'))
    ensures states'[|acts'|] == MarkedState(cfg, group, log, states[|acts|], out)
    ensures Uncut(states'[|acts'|].proofs)
  {
    hide GoodRun, Clean, Handled, BatchBytes, After, Takes, Marked, MarkBytes, ProofOf, Intact;
    RunLength(cfg, group, log, acts, states);
    var x := states[|acts|];
    HandledIs(cfg, log, x, out);
    acts', states' := UpToSync(cfg, group, log, acts, states, out);
    RunLength(cfg, group, log, acts', states');
    var y, z := states'[|acts'|], MarkedState(cfg, group, log, x, out);
    MarkedUncut(x.proofs, ProofOf(log[x.at].index, out));
    assert Next(cfg, group, log, y, Mark, z);
    RunMore(cfg, group, log, acts', states', Mark, z);
    acts', states' := acts' + [Mark], states' + [z];
    RunLength(cfg, group, log, acts', states');
  }

  /** One more batch, and no rotation. */
  lemma BatchMore(cfg: Config, group: u32, log: seq<Batch>, acts: seq<Act>, states: seq<Outbox>, out: seq<ExecReport>)
      returns (acts': seq<Act>, states': seq<Outbox>)
    requires GoodRun(cfg, group, log, acts, states)
    requires var x := states[|acts|]; Handled(cfg, log, x, out) && x.at == |x.done| && Uncut(x.proofs)
    ensures GoodRun(cfg, group, log, acts', states') && (Clean(acts, states) ==> Clean(acts', states'))
    ensures states'[|acts'|] == MarkedState(cfg, group, log, states[|acts|], out).(phase := Idle)
    ensures Uncut(states'[|acts'|].proofs)
  {
    hide GoodRun, Clean, Handled, MarkedState, Intact;
    RunLength(cfg, group, log, acts, states);
    acts', states' := MarkMore(cfg, group, log, acts, states, out);
    RunLength(cfg, group, log, acts', states');
    var z := states'[|acts'|].(phase := Idle);
    MarkedIsProved(cfg, group, log, states[|acts|], out);
    RunMore(cfg, group, log, acts', states', Stay, z);
    acts', states' := acts' + [Stay], states' + [z];
    RunLength(cfg, group, log, acts', states');
  }

  lemma MarkedIsProved(cfg: Config, group: u32, log: seq<Batch>, x: Outbox, out: seq<ExecReport>)
    requires Handled(cfg, log, x, out) && !x.proofs.TornHeader?
    ensures MarkedState(cfg, group, log, x, out).phase.Proved?
  {
    hide Handled, After, Marked, MarkBytes, BatchBytes;
  }

  // --- a torn header -------------------------------------------------------------------------------------

  /** The shard is down, and whatever it replays it stays down. */
  ghost predicate StaysDown(cfg: Config, log: seq<Batch>, x: Outbox) {
    && x.phase.Closed? && (x.proofs.TornHeader? ==> x.proofs.bytes < |PROOF_HEADER|)
    && forall replays :: Replays(cfg, log, x, replays) ==> !ComesBack(cfg, log, x, replays)
  }

  lemma OneBatchLog(index: u64, cmds: seq<Command>)
    requires index > 0 && cmds != []
    ensures Ordered([Batch(index, cmds)])
  {}

  /** A crash three bytes into the header of the segment behind the first batch: no restart ever succeeds. */
  lemma TornRotation(cfg: Config, group: u32) returns (log: seq<Batch>, acts: seq<Act>, states: seq<Outbox>)
    requires Replayable(cfg) && !cfg.dedup
    ensures log == [Batch(1, [Halt(0, 5)])]
    ensures GoodRun(cfg, group, log, acts, states) && StaysDown(cfg, log, states[|acts|])
  {
    hide GoodRun, Clean, Handled, MarkedState, Misread, Takes, Tell, After, Ordered, Files, DesksOk, Replayed, Started,
      Lawful, DeskInv, LogBytes;
    log := [Batch(1, [Halt(0, 5)])];
    OneBatchLog(1, [Halt(0, 5)]);
    acts, states := FirstStart(cfg, group, log);
    var out := [HaltedReport(0)];
    NewDeskOk(cfg);
    HaltHandled(cfg, log, STARTED_OUTBOX, 5);
    acts, states := MarkMore(cfg, group, log, acts, states, out);
    RunIsFine(cfg, group, log, acts, states);
    MarkedIsProved(cfg, group, log, STARTED_OUTBOX, out);
    var x := states[|acts|];
    var down := x.(segments := x.segments + [x.synced], synced := HEADER[..3], sealed := |x.done|, phase := Closed);
    assert Next(cfg, group, log, x, CrashInRotation(3), down);
    RunMore(cfg, group, log, acts, states, CrashInRotation(3), down);
    acts, states := acts + [CrashInRotation(3)], states + [down];
    RunIsFine(cfg, group, log, acts, states);
    FilesBound(group, log, down);
    Starts(group, log, down);
    forall replays ensures !ComesBack(cfg, log, down, replays) {
      StaysClosed(cfg, log, down, replays);
    }
  }

  lemma HaltHandled(cfg: Config, log: seq<Batch>, x: Outbox, id: u64)
    requires Lawful(cfg.setup.strategy) && !cfg.dedup && x.phase.Idle? && x.at < |log| && DeskInv(cfg, x.desk)
    requires id != 0 && id !in x.desk.seen && log[x.at].commands == [Halt(0, id)]
    ensures Handled(cfg, log, x, [HaltedReport(0)])
  {
    hide Lawful, DeskInv, Takes, Tell;
    SwitchTells(cfg, x.desk, Halt(0, id));
    RendersOne(HaltedReport(0));
  }

  lemma RendersOne(r: ExecReport)
    ensures Renders([One(r)], [r])
  {
    RendersOnes([r]);
    OnesOne(r);
  }

  // --- a cut proof -----------------------------------------------------------------------------------------

  /** The proof file after a mark that was cut behind its index, and the same mark whole behind it. */
  function CutFile(): ProofFile {
    Proofs([], ProofBytes(ProofOf(1, []))[..8])
  }

  function SpoiltFile(more: seq<byte>): ProofFile {
    Proofs([], ProofBytes(ProofOf(1, []))[..8] + ProofBytes(ProofOf(1, [])) + more)
  }

  lemma SpoiltIsSpoilt(more: seq<byte>)
    ensures !Readable(SpoiltFile(more)) && !Misread(SpoiltFile(more))
  {
    hide Intact, ProofBytes;
    CutProofIsBroken();
    var p := ProofBytes(ProofOf(1, []));
    assert (p[..8] + p + more)[..PROOF_LEN] == (p[..8] + p)[..PROOF_LEN];
  }

  /** Nobody to close out, then a halt. */
  function CutLog(): seq<Batch> {
    [Batch(1, [Close(9, 5)]), Batch(2, [Halt(0, 6)])]
  }

  lemma CutLogOrdered()
    ensures Ordered(CutLog())
  {}

  /** The first batch has no reports. */
  lemma CloseHandled(cfg: Config, x: Outbox)
    requires Lawful(cfg.setup.strategy) && !cfg.dedup && x.phase.Idle? && x.at == 0 && x.desk == NEW_DESK
    ensures DeskInv(cfg, NEW_DESK) && Takes(cfg, NEW_DESK, [Close(9, 5)]) && Handled(cfg, CutLog(), x, [])
    ensures DeskInv(cfg, After(cfg, NEW_DESK, [Close(9, 5)])) && After(cfg, NEW_DESK, [Close(9, 5)]).seen == {5}
  {
    hide Lawful, DeskInv, Takes, Tell, After;
    NewDeskOk(cfg);
    CloseTells(cfg, NEW_DESK, 9, 5);
    NobodyRests(9);
    AfterKeeps(cfg, NEW_DESK, [Close(9, 5)]);
    RendersEmptyBlock();
    assert {} + {5} == {5};
  }

  lemma RendersEmptyBlock()
    ensures Renders([CancelBlock(0, {})], [])
  {
    var none: seq<OrderId> := [];
    assert Lists(none, {}) && Cancels(0, none) == [] && [CancelBlock(0, {})][1..] == [];
    RendersBlock(0, none, {}, [], []);
    assert [CancelBlock(0, {})] + [] == [CancelBlock(0, {})] && Cancels(0, none) + [] == [];
  }

  /** A mark cut behind its index, after which the shard comes back and goes on. */
  lemma CutMark(cfg: Config, group: u32) returns (acts: seq<Act>, states: seq<Outbox>)
    requires Replayable(cfg) && !cfg.dedup
    ensures GoodRun(cfg, group, CutLog(), acts, states)
    ensures states[|acts|] == STARTED_OUTBOX.(proofs := CutFile())
  {
    hide GoodRun, Clean, Handled, Misread, Takes, Tell, Ordered, Files, DesksOk, Started, Lawful, DeskInv, After,
      ProofBytes, CutLog;
    CutLogOrdered();
    acts, states := FirstStart(cfg, group, CutLog());
    CloseHandled(cfg, STARTED_OUTBOX);
    acts, states := UpToSync(cfg, group, CutLog(), acts, states, []);
    RunLength(cfg, group, CutLog(), acts, states);
    FirstOfLog();
    var synced := states[|acts|];
    EmptyBatch(group, 1);
    assert HEADER + [] == HEADER;
    var cut := synced.(proofs := CutFile(), phase := Closed);
    ShortIsFine(CutFile().stray);
    assert Next(cfg, group, CutLog(), synced, CrashInMark(16), cut);
    RunMore(cfg, group, CutLog(), acts, states, CrashInMark(16), cut);
    acts, states := acts + [CrashInMark(16)], states + [cut];
    RunIsFine(cfg, group, CutLog(), acts, states);
    Starts(group, CutLog(), cut);
    NothingKept(group);
    var again := STARTED_OUTBOX.(proofs := CutFile());
    assert Next(cfg, group, CutLog(), cut, Start, again);
    RunMore(cfg, group, CutLog(), acts, states, Start, again);
    acts, states := acts + [Start], states + [again];
    RunLength(cfg, group, CutLog(), acts, states);
  }

  lemma FirstOfLog()
    ensures |CutLog()| == 2 && CutLog()[0] == Batch(1, [Close(9, 5)]) && CutLog()[1] == Batch(2, [Halt(0, 6)])
  {}

  lemma EmptyBatch(group: u32, index: u64)
    ensures BatchBytes(group, Entry(index, []), 0) == []
  {}

  lemma NothingKept(group: u32)
    ensures HEADER + LogBytes(group, [][0..]) == HEADER && ProofsOf([]) == []
  {}

  lemma ShortIsFine(stray: seq<byte>)
    requires |stray| < PROOF_LEN
    ensures !Misread(Proofs([], stray)) && Readable(Proofs([], stray))
  {}

  /** The shard goes on behind the cut proof and marks the first batch. */
  ghost function FirstMarked(cfg: Config): Outbox
    requires Takes(cfg, NEW_DESK, [Close(9, 5)])
  {
    STARTED_OUTBOX.(proofs := SpoiltFile([]), done := [Entry(1, [])], at := 1,
                    desk := After(cfg, NEW_DESK, [Close(9, 5)]))
  }

  lemma FirstBehind(cfg: Config, group: u32) returns (acts: seq<Act>, states: seq<Outbox>)
    requires Replayable(cfg) && !cfg.dedup
    ensures Takes(cfg, NEW_DESK, [Close(9, 5)])
    ensures GoodRun(cfg, group, CutLog(), acts, states) && states[|acts|] == FirstMarked(cfg)
  {
    hide GoodRun, Clean, Handled, Misread, Takes, Tell, Ordered, Files, DesksOk, Started, Lawful, DeskInv, After,
      ProofBytes, CutLog, ProofOf;
    acts, states := CutMark(cfg, group);
    RunLength(cfg, group, CutLog(), acts, states);
    CloseHandled(cfg, states[|acts|]);
    acts, states := UpToSync(cfg, group, CutLog(), acts, states, []);
    RunLength(cfg, group, CutLog(), acts, states);
    FirstOfLog();
    EmptyBatch(group, 1);
    assert HEADER + [] == HEADER;
    var x, y := states[|acts|], FirstMarked(cfg).(phase := Proved);
    MarkBehind([], ProofOf(1, []));
    SpoiltIsSpoilt([]);
    assert [] + [Entry(1, [])] == [Entry(1, [])];
    assert Next(cfg, group, CutLog(), x, Mark, y);
    RunMore(cfg, group, CutLog(), acts, states, Mark, y);
    acts, states := acts + [Mark], states + [y];
    RunMore(cfg, group, CutLog(), acts, states, Stay, FirstMarked(cfg));
    acts, states := acts + [Stay], states + [FirstMarked(cfg)];
    RunLength(cfg, group, CutLog(), acts, states);
  }

  /** A mark behind a cut one. */
  lemma MarkBehind(more: seq<byte>, p: Proof)
    ensures Marked(CutFile(), ProofOf(1, []), |MarkBytes(CutFile(), ProofOf(1, []))|) == SpoiltFile([])
    ensures Marked(SpoiltFile(more), p, |MarkBytes(SpoiltFile(more), p)|) == SpoiltFile(more + ProofBytes(p))
  {
    hide ProofBytes, ProofOf;
    var p0, p1 := ProofBytes(ProofOf(1, [])), ProofBytes(p);
    assert p0[..PROOF_LEN] == p0 && p0[..8] + p0 == p0[..8] + p0 + [];
    assert p1[..PROOF_LEN] == p1 && p0[..8] + p0 + more + p1 == p0[..8] + p0 + (more + p1);
  }

  const SECOND: Entry := Entry(2, [HaltedReport(0)])

  /** Both batches marked, and a crash. */
  ghost function SpoiltDown(cfg: Config, group: u32): Outbox
    requires Takes(cfg, NEW_DESK, [Close(9, 5)]) && Takes(cfg, After(cfg, NEW_DESK, [Close(9, 5)]), [Halt(0, 6)])
  {
    FirstMarked(cfg).(
      synced := HEADER + BatchBytes(group, SECOND, 0), proofs := SpoiltFile(ProofBytes(ProofOf(2, SECOND.out))),
      done := [Entry(1, []), SECOND], at := 2, desk := After(cfg, After(cfg, NEW_DESK, [Close(9, 5)]), [Halt(0, 6)]),
      phase := Closed)
  }

  lemma SecondBehind(cfg: Config, group: u32) returns (acts: seq<Act>, states: seq<Outbox>)
    requires Replayable(cfg) && !cfg.dedup
    ensures Takes(cfg, NEW_DESK, [Close(9, 5)]) && Takes(cfg, After(cfg, NEW_DESK, [Close(9, 5)]), [Halt(0, 6)])
    ensures GoodRun(cfg, group, CutLog(), acts, states) && states[|acts|] == SpoiltDown(cfg, group)
  {
    hide GoodRun, Clean, Handled, Misread, Takes, Tell, Ordered, Files, DesksOk, Started, Lawful, DeskInv, After,
      ProofBytes, CutLog, ProofOf, BatchBytes, SpoiltFile;
    acts, states := FirstBehind(cfg, group);
    RunLength(cfg, group, CutLog(), acts, states);
    FirstOfLog();
    CloseHandled(cfg, STARTED_OUTBOX);
    var x := states[|acts|];
    HaltHandled(cfg, CutLog(), x, 6);
    HandledIs(cfg, CutLog(), x, SECOND.out);
    acts, states := UpToSync(cfg, group, CutLog(), acts, states, SECOND.out);
    RunLength(cfg, group, CutLog(), acts, states);
    var y, down := states[|acts|], SpoiltDown(cfg, group);
    var p := ProofBytes(ProofOf(2, SECOND.out));
    MarkBehind([], ProofOf(2, SECOND.out));
    SpoiltIsSpoilt(p);
    SpoiltIsFile(p);
    SpoiltIsFile([]);
    assert [] + p == p && [Entry(1, [])] + [SECOND] == down.done;
    assert Next(cfg, group, CutLog(), y, Mark, down.(phase := Proved));
    RunMore(cfg, group, CutLog(), acts, states, Mark, down.(phase := Proved));
    acts, states := acts + [Mark], states + [down.(phase := Proved)];
    assert down.synced + down.unsynced[..0] == down.synced;
    assert Next(cfg, group, CutLog(), down.(phase := Proved), Crash(0), down);
    RunMore(cfg, group, CutLog(), acts, states, Crash(0), down);
    acts, states := acts + [Crash(0)], states + [down];
    RunLength(cfg, group, CutLog(), acts, states);
  }

  lemma SpoiltIsFile(more: seq<byte>)
    ensures SpoiltFile(more).Proofs?
  {}

  /**
   A proof cut by a crash and the proofs written behind it: the next restart cannot read the proofs,
   trims the newest segment to nothing, and the report of a marked batch is gone.
   */
  lemma CutProofDrops(cfg: Config, group: u32) returns (log: seq<Batch>, acts: seq<Act>, states: seq<Outbox>)
    requires Replayable(cfg) && !cfg.dedup
    ensures log == [Batch(1, [Close(9, 5)]), Batch(2, [Halt(0, 6)])]
    ensures GoodRun(cfg, group, log, acts, states)
    ensures var x := states[|acts|];
            && x.phase.Closed? && x.dropped && |x.done| == 2
            && Contents(x) == [] && |LogBytes(group, x.done)| == RECORD_LEN
  {
    hide GoodRun, Clean, Handled, Misread, Takes, Tell, Ordered, Files, DesksOk, Started, Lawful, DeskInv, After,
      ProofBytes, ProofOf, BatchBytes, SpoiltFile, LogBytes, Contents, Readable, Covered, Basis;
    acts, states := SecondBehind(cfg, group);
    log := CutLog();
    RunIsFine(cfg, group, log, acts, states);
    var down := states[|acts|];
    SpoiltIsSpoilt(ProofBytes(ProofOf(2, SECOND.out)));
    SpoiltIsFile(ProofBytes(ProofOf(2, SECOND.out)));
    Starts(group, log, down);
    var gone := down.(synced := HEADER, dropped := true);
    assert Next(cfg, group, log, down, Start, gone);
    RunMore(cfg, group, log, acts, states, Start, gone);
    acts, states := acts + [Start], states + [gone];
    RunIsFine(cfg, group, log, acts, states);
    DroppedContents(group, log, gone);
    TwoBatches(group);
  }

  lemma TwoBatches(group: u32)
    ensures LogBytes(group, [Entry(1, []), SECOND][..0]) == []
    ensures |LogBytes(group, [Entry(1, []), SECOND])| == RECORD_LEN
  {
    hide RecordBytes, FrameOf;
    var es := [Entry(1, []), SECOND];
    assert es[..1] == [es[0]] && es[..1][..0] == [];
    assert BatchBytes(group, es[0], 0) == [];
    assert BatchBytes(group, es[1], 1) == [];
  }

  // --- a replay that tells something else --------------------------------------------------------------------

  /** A crash between two batches. */
  lemma CrashMore(cfg: Config, group: u32, log: seq<Batch>, acts: seq<Act>, states: seq<Outbox>)
      returns (acts': seq<Act>, states': seq<Outbox>)
    requires GoodRun(cfg, group, log, acts, states) && states[|acts|].phase.Idle?
    ensures GoodRun(cfg, group, log, acts', states') && (Clean(acts, states) ==> Clean(acts', states'))
    ensures states'[|acts'|] == states[|acts|].(phase := Closed)
  {
    hide GoodRun, Clean, Misread, Ordered, Files, DesksOk, Lawful;
    RunIsFine(cfg, group, log, acts, states);
    var x := states[|acts|];
    IdleIs(group, log, x);
    var down := x.(phase := Closed);
    assert x.synced + x.unsynced[..0] == x.synced;
    assert Next(cfg, group, log, x, Crash(0), down);
    RunMore(cfg, group, log, acts, states, Crash(0), down);
    acts', states' := acts + [Crash(0)], states + [down];
  }

  /** Two orders of user 9 come to rest, then user 9 is closed out. */
  function CloseLog(): seq<Batch> {
    [Batch(1, [New(Buying(1)), New(Buying(2))]), Batch(2, [Close(9, 3)])]
  }

  lemma CloseLogIs()
    ensures Ordered(CloseLog()) && |CloseLog()| == 2
    ensures CloseLog()[0] == Batch(1, [New(Buying(1)), New(Buying(2))]) && CloseLog()[1] == Batch(2, [Close(9, 3)])
  {}

  /** One replay: it passes exactly when it passes the proof of the batch. */
  lemma CheckedIs(cfg: Config, log: seq<Batch>, x: Outbox, out: seq<ExecReport>)
    requires Handled(cfg, log, x, out) && x.at < |x.done| && x.known == ProofsOf(x.done)
    requires Ordered(log) && Numbered(log, x.done)
    ensures x.at < |log| && Takes(cfg, x.desk, log[x.at].commands)
    ensures Checked(cfg, log, x, out) ==
              if Passes(ProofOf(x.done[x.at].index, x.done[x.at].out), out) then Onward(cfg, log, x)
              else x.(phase := Closed)
  {
    hide Handled, Takes, Tell, After, Passes, ProofOf, ProofsOf, Proven, Ordered, Numbered;
    HandledIs(cfg, log, x, out);
    ProvenIs(log, x.done, x.at);
  }

  lemma PassesItself(index: u64, out: seq<ExecReport>)
    ensures Passes(ProofOf(index, out), out)
  {}

  /** The second batch fails its replay: the shard stays down. */
  lemma SecondFails(cfg: Config, log: seq<Batch>, x: Outbox, a: seq<ExecReport>, b: seq<ExecReport>)
    requires Ordered(log) && Numbered(log, x.done) && |x.done| == 2 && x.known == ProofsOf(x.done) && x.at == 0
    requires Handled(cfg, log, x, a) && x.done[0].out == a
    requires x.at < |log| && Takes(cfg, x.desk, log[0].commands)
    requires Handled(cfg, log, Onward(cfg, log, x), b) && !Passes(ProofOf(x.done[1].index, x.done[1].out), b)
    ensures !Through(Replayed(cfg, log, x, [a, b])) && Hears(cfg, log, x.desk, 0, [a, b])
  {
    hide Handled, Takes, Tell, After, Passes, ProofOf, ProofsOf, Ordered, Numbered, Checked, Hears, Replayed;
    PassesItself(x.done[0].index, a);
    CheckedIs(cfg, log, x, a);
    var y := Onward(cfg, log, x);
    CheckedIs(cfg, log, y, b);
    HandledIs(cfg, log, x, a);
    HandledIs(cfg, log, y, b);
    HearsFirst(cfg, log, x, a, [b]);
    HearsFirst(cfg, log, y, b, []);
    assert [a] + [b] == [a, b] && [b] + [] == [b];
    StaysClosed(cfg, log, y.(phase := Closed), []);
    HearsNothing(cfg, log, Onward(cfg, log, y).desk, 2);
  }

  lemma HearsNothing(cfg: Config, log: seq<Batch>, d: Desk, n: nat)
    ensures Hears(cfg, log, d, n, [])
  {}

  /** Two batches marked, the second with the cancels in one of two orders, and a crash. */
  lemma ClosedOut(cfg: Config, group: u32, first: seq<ExecReport>, second: seq<ExecReport>)
      returns (acts: seq<Act>, states: seq<Outbox>)
    requires Replayable(cfg) && !cfg.dedup
    requires Handled(cfg, CloseLog(), STARTED_OUTBOX, first) && 0 < |CloseLog()|
    requires Takes(cfg, NEW_DESK, CloseLog()[0].commands)
    requires Handled(cfg, CloseLog(), Onward(cfg, CloseLog(), STARTED_OUTBOX), second)
    ensures GoodRun(cfg, group, CloseLog(), acts, states) && Clean(acts, states)
    ensures var x := states[|acts|];
            && x.phase.Closed? && x.done == [Entry(1, first), Entry(2, second)] && x.snapshot.None?
            && Uncut(x.proofs) && x.sealed == 0
  {
    hide GoodRun, Clean, Handled, Takes, Tell, After, Ordered, CloseLog, BatchBytes, Marked, MarkBytes, ProofOf,
      Renders;
    CloseLogIs();
    var log := CloseLog();
    acts, states := FirstStart(cfg, group, log);
    acts, states := BatchMore(cfg, group, log, acts, states, first);
    RunLength(cfg, group, log, acts, states);
    HandledIs(cfg, log, Onward(cfg, log, STARTED_OUTBOX), second);
    SameHandled(cfg, log, Onward(cfg, log, STARTED_OUTBOX), states[|acts|], second);
    acts, states := BatchMore(cfg, group, log, acts, states, second);
    RunLength(cfg, group, log, acts, states);
    assert [] + [Entry(1, first)] + [Entry(2, second)] == [Entry(1, first), Entry(2, second)];
    acts, states := CrashMore(cfg, group, log, acts, states);
  }

  lemma SameHandled(cfg: Config, log: seq<Batch>, x: Outbox, y: Outbox, out: seq<ExecReport>)
    requires Handled(cfg, log, x, out) && y.phase.Idle? && y.at == x.at && y.desk == x.desk
    ensures Handled(cfg, log, y, out)
  {
    hide Takes, Tell, Renders;
  }

  /** The reports of the two batches. */
  lemma CloseOutReports(cfg: Config)
      returns (first: seq<ExecReport>, second: seq<ExecReport>, again: seq<ExecReport>)
    requires Replayable(cfg) && cfg.limits.None? && !cfg.dedup
    ensures 0 < |CloseLog()| && Handled(cfg, CloseLog(), STARTED_OUTBOX, first)
    ensures Takes(cfg, NEW_DESK, CloseLog()[0].commands)
    ensures var x := Onward(cfg, CloseLog(), STARTED_OUTBOX);
            Handled(cfg, CloseLog(), x, second) && Handled(cfg, CloseLog(), x, again)
    ensures !Passes(ProofOf(2, second), again)
  {
    hide Takes, Tell, After, Renders, ProofOf, Passes, Lawful, DeskInv;
    TwoBuys(cfg);
    var cmds := [New(Buying(1)), New(Buying(2))];
    first := Rendering(Tell(cfg, NEW_DESK, cmds));
    var told;
    told, second, again := ReplayCanFail(2);
    var d := After(cfg, NEW_DESK, cmds);
    CloseTells(cfg, d, 9, 3);
  }

  /**
   Two orders of one user come to rest and the user is closed out: the two cancels come in one order
   when the batch is applied and may come in the other when it is replayed. No file is torn, and the
   shard stays down.
   */
  lemma ReorderedReplay(cfg: Config, group: u32)
      returns (log: seq<Batch>, acts: seq<Act>, states: seq<Outbox>, replays: seq<seq<ExecReport>>)
    requires Replayable(cfg) && cfg.limits.None? && !cfg.dedup
    ensures log == [Batch(1, [New(Buying(1)), New(Buying(2))]), Batch(2, [ForceClose(0, 9, 3, Buy, 0)])]
    ensures GoodRun(cfg, group, log, acts, states) && Clean(acts, states)
    ensures var x := states[|acts|];
            && x.phase.Closed? && Uncut(x.proofs)
            && Replays(cfg, log, x, replays) && !ComesBack(cfg, log, x, replays)
  {
    hide GoodRun, Clean, Handled, Takes, Tell, After, Ordered, ProofOf, Passes, Files, DesksOk, Misread, Started, Hears,
      Replayed, Lawful, Numbered, ProofsOf, LogBytes;
    var first, second, again := CloseOutReports(cfg);
    acts, states := ClosedOut(cfg, group, first, second);
    log := CloseLog();
    CloseLogIs();
    RunIsFine(cfg, group, log, acts, states);
    var x := states[|acts|];
    FilesBound(group, log, x);
    Starts(group, log, x);
    StartsUncut(group, log, x);
    var y := Started(log, x);
    SameHandled(cfg, log, STARTED_OUTBOX, y, first);
    SameHandled(cfg, log, Onward(cfg, log, STARTED_OUTBOX), Onward(cfg, log, y), again);
    SecondFails(cfg, log, y, first, again);
    replays := [first, again];
  }

  /** Nothing was torn, so the shard starts. */
  lemma StartsUncut(group: u32, log: seq<Batch>, x: Outbox)
    requires Files(group, log, x) && x.phase.Closed? && Uncut(x.proofs) && x.done != [] && x.sealed == 0
    ensures !HeaderTorn(x) && Readable(x.proofs)
  {
    hide LogBytes, Bodies, Numbered, ProofsOk, Covered, Kept, Watermark, ProofsOf;
  }

  // --- a retry past a snapshot ------------------------------------------------------------------------------

  /** An order that finds nothing, another command, and the order again. */
  function RetryLog(): seq<Batch> {
    [Batch(1, [New(TAKER)]), Batch(2, [Resume(1, 8)]), Batch(3, [New(TAKER)])]
  }

  lemma RetryLogIs()
    ensures Ordered(RetryLog()) && |RetryLog()| == 3
    ensures RetryLog()[0] == Batch(1, [New(TAKER)]) && RetryLog()[1] == Batch(2, [Resume(1, 8)])
    ensures RetryLog()[2] == Batch(3, [New(TAKER)])
  {}

  /** The desk behind the first two batches, and its snapshot. */
  const BEFORE_RETRY: Desk := NEW_DESK.(engines := map[0 := FRESH.(clock := 1)], seen := {7, 8})

  const RETRY_SNAPSHOT: Snapshot := Snapshot(0, 2, 0, 0, [], [], [], [EngineState(0, 1, [])])

  lemma TwoBefore(cfg: Config)
    requires Replayable(cfg) && cfg.limits.None? && !cfg.dedup
    ensures Takes(cfg, NEW_DESK, [New(TAKER)])
    ensures var d := After(cfg, NEW_DESK, [New(TAKER)]);
            Takes(cfg, d, [Resume(1, 8)]) && After(cfg, d, [Resume(1, 8)]) == BEFORE_RETRY
            && Tell(cfg, d, [Resume(1, 8)]) == [One(ResumedReport(1))]
  {
    hide Lawful, DeskInv, Takes, Tell, Process, Fits, DeskSound;
    NewDeskOk(cfg);
    TakerTells(cfg, NEW_DESK);
    AfterNothing(cfg, TAKER);
    TakesFirst(cfg, NEW_DESK, [New(TAKER)]);
    OneCommand(cfg, NEW_DESK, New(TAKER));
    AfterKeeps(cfg, NEW_DESK, [New(TAKER)]);
    var d := After(cfg, NEW_DESK, [New(TAKER)]);
    SwitchTells(cfg, d, Resume(1, 8));
    assert {7} + {8} == {7, 8} && d.halted - {1} == {};
  }

  lemma SnapshotCaptures()
    ensures Captures(BEFORE_RETRY, RETRY_SNAPSHOT) && forall id: OrderId :: !RestsOn(BEFORE_RETRY, id)
  {
    NothingRests();
    assert RETRY_SNAPSHOT.engines[0].instrument == 0;
  }

  /** The restored desk has forgotten the order. */
  lemma Forgotten(cfg: Config)
    requires DeskInv(cfg, BEFORE_RETRY)
    ensures DeskInv(cfg, Restored(RETRY_SNAPSHOT)) && 7 !in Restored(RETRY_SNAPSHOT).seen
    ensures var d := Restored(RETRY_SNAPSHOT);
            EngineOf(d, 0) == FRESH.(clock := 1) && d.halted == {} && d.suspended == {}
  {
    hide DeskInv, RestsOn, Restored, Captures;
    SnapshotCaptures();
    RestoredIsAlike(cfg, BEFORE_RETRY, RETRY_SNAPSHOT);
  }

  /** Both batches marked and the snapshot taken. */
  lemma Snapped(cfg: Config, group: u32) returns (acts: seq<Act>, states: seq<Outbox>)
    requires Replayable(cfg) && cfg.limits.None? && !cfg.dedup
    ensures GoodRun(cfg, group, RetryLog(), acts, states) && Clean(acts, states)
    ensures var x := states[|acts|];
            && x.phase.Idle? && x.desk == BEFORE_RETRY && x.at == |x.done| == 2 && Uncut(x.proofs) && x.sealed == 0
            && x.snapshot == Some(RETRY_SNAPSHOT)
  {
    hide GoodRun, Clean, Handled, Takes, Tell, After, Ordered, RetryLog, BatchBytes, Marked, MarkBytes, ProofOf,
      Renders, Captures, Intact;
    RetryLogIs();
    TwoBefore(cfg);
    var log := RetryLog();
    var first := Rendering(Tell(cfg, NEW_DESK, [New(TAKER)]));
    acts, states := FirstStart(cfg, group, log);
    TellsHandled(cfg, log, STARTED_OUTBOX, first);
    acts, states := BatchMore(cfg, group, log, acts, states, first);
    RunLength(cfg, group, log, acts, states);
    RendersOne(ResumedReport(1));
    TellsHandled(cfg, log, states[|acts|], [ResumedReport(1)]);
    acts, states := BatchMore(cfg, group, log, acts, states, [ResumedReport(1)]);
    RunLength(cfg, group, log, acts, states);
    var x := states[|acts|];
    var y := x.(snapshot := Some(RETRY_SNAPSHOT));
    SnapshotCaptures();
    assert Next(cfg, group, log, x, Snap(RETRY_SNAPSHOT), y);
    RunMore(cfg, group, log, acts, states, Snap(RETRY_SNAPSHOT), y);
    acts, states := acts + [Snap(RETRY_SNAPSHOT)], states + [y];
    RunLength(cfg, group, log, acts, states);
  }

  /** What the restored desk tells of the retry has two reports. */
  lemma RetryIsLonger(cfg: Config, d: Desk, out: seq<ExecReport>)
    requires Replayable(cfg) && cfg.limits.None? && !cfg.dedup && d == Restored(RETRY_SNAPSHOT)
    requires DeskInv(cfg, BEFORE_RETRY)
    ensures Takes(cfg, d, [New(TAKER)])
    ensures Renders(Tell(cfg, d, [New(TAKER)]), out) ==> |out| == 2
  {
    hide Lawful, DeskInv, Takes, Tell, Renders, Restored;
    Forgotten(cfg);
    TakerTells(cfg, d);
    if Renders(Tell(cfg, d, [New(TAKER)]), out) {
      RenderingsAreEven(Tell(cfg, d, [New(TAKER)]), out);
      FixedSize(Tell(cfg, d, [New(TAKER)]));
    }
  }

  lemma {:induction false} FixedSize(told: seq<Emission>)
    requires Fixed(told)
    ensures Size(told) == |told|
  {
    if told != [] {
      FixedSize(told[1..]);
    }
  }

  /**
   An order that found nothing is processed, a snapshot is taken, and the order comes again: the
   shard refuses it and marks the batch. A restart has forgotten the order, accepts it, and fails
   the proof. No file is torn and no command closes anyone out; the shard stays down.
   */
  lemma RetriedReplay(cfg: Config, group: u32)
      returns (log: seq<Batch>, acts: seq<Act>, states: seq<Outbox>, replays: seq<seq<ExecReport>>)
    requires Replayable(cfg) && cfg.limits.None? && !cfg.dedup
    ensures log == [Batch(1, [New(TAKER)]), Batch(2, [Resume(1, 8)]), Batch(3, [New(TAKER)])]
    ensures GoodRun(cfg, group, log, acts, states) && Clean(acts, states)
    ensures StaysDown(cfg, log, states[|acts|]) && Replays(cfg, log, states[|acts|], replays)
  {
    hide GoodRun, Clean, Handled, Takes, Tell, After, Ordered, ProofOf, Passes, Files, DesksOk, Misread, Started, Hears,
      Replayed, Lawful, Numbered, ProofsOf, LogBytes, DeskInv, Restored, Renders, BatchBytes, Marked, MarkBytes, Intact;
    acts, states := Snapped(cfg, group);
    log := RetryLog();
    RetryLogIs();
    RunIsFine(cfg, group, log, acts, states);
    DesksAre(cfg, states[|acts|]);
    RetryTells(cfg, BEFORE_RETRY);
    var out := [RejectedReport(0, 7, Duplicate)];
    RendersOne(out[0]);
    TellsHandled(cfg, log, states[|acts|], out);
    acts, states := BatchMore(cfg, group, log, acts, states, out);
    RunLength(cfg, group, log, acts, states);
    acts, states := CrashMore(cfg, group, log, acts, states);
    RunIsFine(cfg, group, log, acts, states);
    var x := states[|acts|];
    FilesBound(group, log, x);
    Starts(group, log, x);
    StartsUncut(group, log, x);
    RetryCovered();
    var y := Started(log, x);
    forall replays | Replays(cfg, log, x, replays) ensures !ComesBack(cfg, log, x, replays) {
      RetryFails(cfg, log, y, replays);
    }
    RetryIsLonger(cfg, y.desk, []);
    var again := Rendering(Tell(cfg, y.desk, [New(TAKER)]));
    TellsHandled(cfg, log, y, again);
    HearsFirst(cfg, log, y, again, []);
    HearsNothing(cfg, log, Onward(cfg, log, y).desk, 3);
    replays := [again];
    assert [again] + [] == replays;
  }

  lemma DesksAre(cfg: Config, x: Outbox)
    requires DesksOk(cfg, x) && !x.phase.Closed?
    ensures DeskInv(cfg, x.desk)
  {
    hide DeskInv;
  }

  lemma RetryCovered()
    ensures Covered(RetryLog(), Some(RETRY_SNAPSHOT)) == 2 && Basis(Some(RETRY_SNAPSHOT)) == Restored(RETRY_SNAPSHOT)
  {
    hide Restored;
    RetryLogIs();
    UpToIs(RetryLog(), 2);
  }

  lemma RetryFails(cfg: Config, log: seq<Batch>, x: Outbox, replays: seq<seq<ExecReport>>)
    requires Replayable(cfg) && cfg.limits.None? && !cfg.dedup && DeskInv(cfg, BEFORE_RETRY)
    requires log == RetryLog() && x.phase.Idle? && x.desk == Restored(RETRY_SNAPSHOT) && x.at == 2 && |x.done| == 3
    requires x.known == ProofsOf(x.done) && Numbered(log, x.done) && |x.done[2].out| == 1
    requires |replays| == 1 && Hears(cfg, log, x.desk, 2, replays)
    ensures !Through(Replayed(cfg, log, x, replays))
  {
    hide Takes, Tell, After, Renders, ProofsOf, Checked, Hears, Replayed, Restored, Fingerprint, Numbered, Lawful,
      DeskInv;
    RetryLogIs();
    var out := replays[0];
    assert [out] + [] == replays;
    RetryIsLonger(cfg, x.desk, out);
    HearsFirst(cfg, log, x, out, []);
    CheckedIs(cfg, log, x, out);
    StaysClosed(cfg, log, x.(phase := Closed), []);
  }
}
