/** A standalone shard as a state machine: commands, syncs, snapshots, truncations, crashes, restarts. */
module ShardRuns {
  import opened Types
  import opened Strategies
  import opened Bytes
  import opened Checksums
  import opened RecordFiles
  import opened Processing
  import opened Desks
  import opened Restores
  import opened Histories
  import opened Wire
  import opened JournalFiles
  import opened Journals

  /**
   Memory (desk, number), the snapshot file, the journal as a crash cannot take it away, and the
   records that have not been synced. The last two fields are history: how many commands were made
   durable, and how many were left when a record was first cut.
   */
  datatype Shard = Shard(
    desk: Desk, number: u64, snapshot: Option<Snapshot>, file: JournalFile, pending: seq<Stamped>, up: bool,
    durable: nat, cutAt: nat)

  datatype Act =
    | Start
    | Take(cmd: Command, stamp: u64)
    | Sync
    | Snap(snapshot: Snapshot)
    | Truncate
    | Crash(cut: nat)
    | CrashInTruncate(cut: nat)
    | CrashInStart(cut: nat)

  /** Commands the disk stands for: the snapshot's and those of the readable records past it. */
  function Left(s: Shard): u64 {
    LastNumber(Held(s.file), Base(s.snapshot))
  }

  /** What a command has to meet to be taken. */
  ghost predicate Takes(cfg: Config, s: Shard, h: seq<Command>, cmd: Command) {
    && s.up && s.number < U64_MAX && Sendable(cmd) && Fits(s.desk, cmd) && (cmd.New? ==> cmd.order.id != 0)
    && Base(s.snapshot) <= |h| && Known(cfg, s.snapshot, h, cmd)
  }

  function HeaderUpTo(cut: nat): JournalFile {
    if cut < |JOURNAL_HEADER| then TornHeader(cut) else NEW_JOURNAL
  }

  /** What is on file after a crash that let `cut` bytes of the pending records through. */
  function Crashed(s: Shard, cut: nat): Shard
    requires s.file.Journal? && cut <= JOURNAL_LEN * |s.pending|
  {
    var file := Reached(s.file, s.pending, cut);
    var s' := s.(file := file, pending := [], up := false);
    s'.(durable := Left(s'), cutAt := if Cut(s.file) then s.cutAt else Left(s'))
  }

  /** A restart: read the journal, replay it over the snapshot, open it for appending; or stay down. */
  ghost function Restarted(cfg: Config, s: Shard): Shard
    requires FileFits(s.file)
  {
    var bytes := FileBytes(s.file);
    var read := ReadJournal(bytes);
    if read.None? then s
    else
      var r := Recovered(cfg, s.snapshot, read.value);
      if r.None? || OpenJournal(bytes).None? then s
      else
        s.(desk := r.value.0, number := r.value.1, up := true,
           file := if s.file.TornHeader? then NEW_JOURNAL else s.file)
  }

  /** One step of the shard: `h` and `h'` are the commands it stands for, before and after. */
  ghost predicate Next(cfg: Config, s: Shard, h: seq<Command>, act: Act, s': Shard, h': seq<Command>) {
    match act
    case Start =>
      !s.up && h' == h && FileFits(s.file) && s' == Restarted(cfg, s)
    case Take(cmd, stamp) =>
      && Takes(cfg, s, h, cmd) && h' == h + [cmd]
      && s' == s.(desk := Applied(cfg, s.desk, cmd), number := s.number + 1,
                  pending := s.pending + [Stamped(Rec(s.number + 1, Encode(cmd)), stamp)])
    case Sync =>
      && s.up && h' == h && s.file.Journal?
      && s' == s.(file := Reached(s.file, s.pending, JOURNAL_LEN * |s.pending|), pending := [], durable := s.number)
    case Snap(snapshot) =>
      && s.up && h' == h && Captures(s.desk, snapshot) && snapshot.journalSeq == s.number
      && s' == s.(snapshot := Some(snapshot), durable := s.number)
    case Truncate =>
      && s.up && h' == h && s.snapshot.Some? && Base(s.snapshot) == s.number
      && s' == s.(file := NEW_JOURNAL, pending := [])
    case Crash(cut) =>
      && s.up && s.file.Journal? && cut <= JOURNAL_LEN * |s.pending|
      && s' == Crashed(s, cut) && Left(s') <= |h| && h' == h[..Left(s')]
    case CrashInTruncate(cut) =>
      && s.up && h' == h && s.snapshot.Some? && Base(s.snapshot) == s.number && cut <= |JOURNAL_HEADER|
      && s' == s.(file := HeaderUpTo(cut), pending := [], up := false)
    case CrashInStart(cut) =>
      !s.up && h' == h && s.file == TornHeader(0) && cut <= |JOURNAL_HEADER| && s' == s.(file := HeaderUpTo(cut))
  }

  // --- the invariant -----------------------------------------------------------------------------------------

  /** All records, also those not synced yet. */
  function Written(s: Shard): seq<Rec> {
    if Cut(s.file) then Held(s.file) else Held(s.file) + Recs(s.pending)
  }

  ghost predicate DiskOk(s: Shard, h: seq<Command>) {
    var base, n := Base(s.snapshot), LastNumber(Written(s), Base(s.snapshot));
    && FileFits(s.file) && base <= n <= |h| <= U64_MAX && FileOk(Written(s), base, h[..n])
    && ((Cut(s.file) && s.up) || n == |h|)
    && s.durable <= |h| && (!Cut(s.file) ==> s.durable <= Left(s))
    && (Cut(s.file) ==> n == if base <= s.cutAt then s.cutAt else base)
  }

  ghost predicate Inv(cfg: Config, s: Shard, h: seq<Command>) {
    && HistoryOk(cfg, h) && DiskOk(s, h) && SnapshotOk(cfg, s.snapshot, h)
    && (if s.up then s.file.Journal? && s.number == |h| && DeskOk(cfg, s.desk, s.snapshot, h)
        else s.pending == [])
  }

  // --- taking, syncing, snapshots, truncation ----------------------------------------------------------------

  lemma TakeDisk(s: Shard, h: seq<Command>, cmd: Command, stamp: u64, s': Shard)
    requires DiskOk(s, h) && s.up && s.number == |h| < U64_MAX
    requires s'.snapshot == s.snapshot && s'.file == s.file && s'.up && s'.durable == s.durable && s'.cutAt == s.cutAt
    requires s'.pending == s.pending + [Stamped(Rec(|h| + 1, Encode(cmd)), stamp)]
    ensures DiskOk(s', h + [cmd])
  {
    hide Encode, Beyond, RecordsFrom, LastNumber, Increasing;
    var base, r := Base(s.snapshot), Rec(|h| + 1, Encode(cmd));
    if Cut(s.file) {
      var n := LastNumber(Written(s), base);
      assert (h + [cmd])[..n] == h[..n];
    } else {
      assert h[..|h|] == h && (h + [cmd])[..|h| + 1] == h + [cmd];
      assert Written(s') == Written(s) + [r];
      AppendedFile(Written(s), base, h, cmd);
      LastOfFile(Written(s'), base, h + [cmd]);
    }
  }

  lemma LastOfFile(file: seq<Rec>, base: u64, h: seq<Command>)
    requires base <= |h| <= U64_MAX && FileOk(file, base, h)
    ensures LastNumber(file, base) == |h|
  {
    LastOfRun(file, base, h);
  }

  lemma TakeKeeps(cfg: Config, s: Shard, h: seq<Command>, cmd: Command, stamp: u64, s': Shard, h': seq<Command>)
    requires Inv(cfg, s, h) && Next(cfg, s, h, Take(cmd, stamp), s', h')
    ensures Inv(cfg, s', h')
  {
    hide HistoryOk, DiskOk, DeskOk, Carries, Fits, Ideal, Handles, Applied, TailKnown, Known, Captures, Encode;
    TakeDesk(cfg, s.desk, s.snapshot, h, cmd);
    TakeDisk(s, h, cmd, stamp, s');
    TailStaysKnown(cfg, s.snapshot, h, cmd);
    assert h'[..Base(s.snapshot)] == h[..Base(s.snapshot)];
  }

  /** Whatever reaches the file, the readable records grow by whole records only, and not behind a cut. */
  lemma ReachedHeld(f: JournalFile, xs: seq<Stamped>, cut: nat)
    requires f.Journal? && cut <= JOURNAL_LEN * |xs|
    ensures var f' := Reached(f, xs, cut);
            && f'.Journal? && (Cut(f) ==> Cut(f') && Held(f') == Held(f))
            && (!Cut(f) ==> cut / JOURNAL_LEN <= |xs| && Held(f') == Held(f) + Recs(xs[..cut / JOURNAL_LEN]))
            && (!Cut(f) && cut == JOURNAL_LEN * |xs| ==> !Cut(f') && Held(f') == Held(f) + Recs(xs))
  {
    hide StampedBytes;
    if !Cut(f) {
      var k := cut / JOURNAL_LEN;
      assert Recs(f.whole + xs[..k]) == Recs(f.whole) + Recs(xs[..k]);
      assert xs[..|xs|] == xs;
    }
  }

  lemma SyncKeeps(cfg: Config, s: Shard, h: seq<Command>, s': Shard, h': seq<Command>)
    requires Inv(cfg, s, h) && Next(cfg, s, h, Sync, s', h')
    ensures Inv(cfg, s', h')
  {
    hide HistoryOk, FileOk, DeskOk, SnapshotOk, Reached, Recs, LastNumber;
    ReachedHeld(s.file, s.pending, JOURNAL_LEN * |s.pending|);
    NoRecs();
    assert Written(s') == Written(s);
  }

  lemma NoRecs()
    ensures Recs([]) == [] && forall rs: seq<Rec> :: rs + [] == rs
  {}

  lemma SnapDisk(s: Shard, h: seq<Command>, snapshot: Snapshot)
    requires DiskOk(s, h) && s.up && snapshot.journalSeq == |h|
    ensures DiskOk(s.(snapshot := Some(snapshot), durable := |h|), h)
  {
    hide Beyond, RecordsFrom, LastNumber;
    var base, all := Base(s.snapshot), Written(s);
    NumbersBelow(all, base);
    BelowBase(all, |h|);
    BeyondAll(all, |h|);
    assert h[..|h|] == h;
    NothingBeyond(h);
    if !Cut(s.file) {
      LastNumberGrows(Held(s.file), Recs(s.pending), |h|);
      NumbersBelow(Held(s.file), |h|);
    } else {
      NumbersBelow(Held(s.file), |h|);
    }
  }

  lemma NothingBeyond(h: seq<Command>)
    requires |h| <= U64_MAX
    ensures RecordsFrom(h, |h|) == []
  {}

  lemma {:induction false} BelowBase(file: seq<Rec>, base: u64)
    requires forall k :: 0 <= k < |file| ==> file[k].number <= base
    ensures LastNumber(file, base) == base
  {
    if file != [] {
      BelowBase(file[..|file| - 1], base);
    }
  }

  lemma SnapKeeps(cfg: Config, s: Shard, h: seq<Command>, snapshot: Snapshot, s': Shard, h': seq<Command>)
    requires Inv(cfg, s, h) && Next(cfg, s, h, Snap(snapshot), s', h')
    ensures Inv(cfg, s', h')
  {
    hide HistoryOk, Captures, Alike, DeskInv, Handles, Ideal, DiskOk, Carries, Restored, RestsOn;
    HistoryParts(cfg, h);
    CapturesAlike(s.desk, Ideal(cfg, h), snapshot);
    SnapAbove(cfg, s.desk, snapshot);
    assert h[..|h|] == h && h[|h|..] == [];
    SnapDisk(s, h, snapshot);
    NoneCarry();
  }

  lemma SnapAbove(cfg: Config, d: Desk, snapshot: Snapshot)
    requires DeskInv(cfg, d) && Captures(d, snapshot)
    ensures Above(d, Restored(snapshot))
  {
    hide DeskInv, EnginesCaptured, PositionsCaptured, RestsOn, Alike;
    RestoredIsAlike(cfg, d, snapshot);
  }

  lemma NoneCarry()
    ensures forall id: u64 :: !Carries([], id)
  {}

  /** An emptied journal behind a snapshot of everything. */
  lemma TruncateKeeps(cfg: Config, s: Shard, h: seq<Command>, act: Act, s': Shard, h': seq<Command>)
    requires Inv(cfg, s, h) && Next(cfg, s, h, act, s', h') && (act.Truncate? || act.CrashInTruncate?)
    ensures Inv(cfg, s', h')
  {
    hide HistoryOk, DeskOk, SnapshotOk, DiskOk;
    TruncateDisk(s, h, s');
  }

  lemma TruncateDisk(s: Shard, h: seq<Command>, s': Shard)
    requires DiskOk(s, h) && Base(s.snapshot) == |h| && s'.snapshot == s.snapshot && s'.pending == []
    requires s'.file == NEW_JOURNAL || (s'.file.TornHeader? && s'.file.bytes < |JOURNAL_HEADER|)
    requires s'.durable == s.durable
    ensures DiskOk(s', h)
  {
    hide Recs, Encode;
    NoRecs();
    NothingBeyond(h);
    assert h[..|h|] == h && Written(s') == [];
  }

  // --- crashes --------------------------------------------------------------------------------------------------

  /**
   After a crash the disk stands for a front of the history; nothing durable is lost unless a record
   was cut before.
   */
  lemma CrashDisk(s: Shard, h: seq<Command>, cut: nat)
    requires DiskOk(s, h) && s.up && s.file.Journal? && cut <= JOURNAL_LEN * |s.pending|
    ensures var s' := Crashed(s, cut); var n := Left(s');
            && Base(s.snapshot) <= n <= |h| && DiskOk(s', h[..n])
            && (!Cut(s.file) ==> s.durable <= n)
            && (Cut(s.file) ==> n == if Base(s.snapshot) <= s.cutAt then s.cutAt else Base(s.snapshot))
  {
    hide Beyond, RecordsFrom, LastNumber, Reached, Recs, FileOk;
    var base, s' := Base(s.snapshot), Crashed(s, cut);
    NoRecs();
    ReachedHeld(s.file, s.pending, cut);
    assert Written(s') == Held(s'.file);
    if Cut(s.file) {
      var n := Left(s);
      assert h[..n][..n] == h[..n];
    } else {
      var k := cut / JOURNAL_LEN;
      var front, rest := Held(s.file) + Recs(s.pending[..k]), Recs(s.pending[k..]);
      RecsSplit(s.pending, k);
      assert Written(s) == front + rest && h[..|h|] == h;
      var n := FrontOfFile(front, rest, base, h);
      assert h[..n][..n] == h[..n];
      LastNumberGrows(Held(s.file), Recs(s.pending[..k]), base);
    }
  }

  lemma RecsSplit(xs: seq<Stamped>, k: nat)
    requires k <= |xs|
    ensures Recs(xs) == Recs(xs[..k]) + Recs(xs[k..])
  {}

  lemma CrashKeeps(cfg: Config, s: Shard, h: seq<Command>, cut: nat, s': Shard, h': seq<Command>)
    requires Inv(cfg, s, h) && Next(cfg, s, h, Crash(cut), s', h')
    ensures Inv(cfg, s', h')
  {
    hide HistoryOk, DiskOk, DeskOk, SnapshotOk, LastNumber, Reached;
    CrashDisk(s, h, cut);
    DiskBase(s', h');
    FrontHistory(cfg, s.snapshot, h, |h'|);
  }

  lemma DiskBase(s: Shard, h: seq<Command>)
    requires DiskOk(s, h)
    ensures FileFits(s.file) && Base(s.snapshot) <= |h| <= U64_MAX
  {}

  // --- restarts -----------------------------------------------------------------------------------------------------

  /** A header of the journal was cut. */
  predicate HeaderTorn(s: Shard) {
    s.file.TornHeader? && s.file.bytes > 0
  }

  /** What a restart makes of a shard that is down. */
  lemma Restarts(cfg: Config, s: Shard, h: seq<Command>)
    requires Inv(cfg, s, h) && !s.up && !Misread(s.file)
    ensures FileFits(s.file) && Base(s.snapshot) <= |h|
    ensures var s' := Restarted(cfg, s);
            && (s'.up <==> !HeaderTorn(s) && NoConflict(h[Base(s.snapshot)..]))
            && (!s'.up ==> s' == s)
            && (s'.up ==>
                  && s' == s.(desk := s'.desk, number := |h|, up := true,
                               file := if s.file.TornHeader? then NEW_JOURNAL else s.file)
                  && DeskOk(cfg, s'.desk, s.snapshot, h))
  {
    hide HistoryOk, DeskOk, SnapshotOk, Recovered, FileBytes, ReadJournal, OpenJournal, NoConflict, Recs, LastNumber,
      FileOk;
    NoRecs();
    assert Written(s) == Held(s.file) && h[..|h|] == h;
    ReadsHeld(s.file);
    RecoveredExact(cfg, s.snapshot, Held(s.file), h);
  }

  lemma StartKeeps(cfg: Config, s: Shard, h: seq<Command>, s': Shard, h': seq<Command>)
    requires Inv(cfg, s, h) && Next(cfg, s, h, Start, s', h') && !Misread(s.file)
    ensures Inv(cfg, s', h')
  {
    hide HistoryOk, DeskOk, SnapshotOk, Restarted, NoConflict, LastNumber, FileOk;
    Restarts(cfg, s, h);
    NoRecs();
    assert Held(NEW_JOURNAL) == [];
  }

  lemma CrashInStartKeeps(cfg: Config, s: Shard, h: seq<Command>, cut: nat, s': Shard, h': seq<Command>)
    requires Inv(cfg, s, h) && Next(cfg, s, h, CrashInStart(cut), s', h')
    ensures Inv(cfg, s', h')
  {
    hide HistoryOk, DeskOk, SnapshotOk, LastNumber, FileOk;
    NoRecs();
    assert Held(NEW_JOURNAL) == [];
  }

  lemma NextKeeps(cfg: Config, s: Shard, h: seq<Command>, act: Act, s': Shard, h': seq<Command>)
    requires Inv(cfg, s, h) && Next(cfg, s, h, act, s', h') && !Misread(s.file)
    ensures Inv(cfg, s', h')
  {
    hide Inv, Next, Misread;
    match act
    case Start => StartKeeps(cfg, s, h, s', h');
    case Take(cmd, stamp) => TakeKeeps(cfg, s, h, cmd, stamp, s', h');
    case Sync => SyncKeeps(cfg, s, h, s', h');
    case Snap(snapshot) => SnapKeeps(cfg, s, h, snapshot, s', h');
    case Truncate => TruncateKeeps(cfg, s, h, act, s', h');
    case Crash(cut) => CrashKeeps(cfg, s, h, cut, s', h');
    case CrashInTruncate(cut) => TruncateKeeps(cfg, s, h, act, s', h');
    case CrashInStart(cut) => CrashInStartKeeps(cfg, s, h, cut, s', h');
  }

  // --- whole runs ---------------------------------------------------------------------------------------------------

  /** No file yet, and the shard not started. */
  const NEW_SHARD: Shard := Shard(NEW_DESK, 0, None, TornHeader(0), [], false, 0, 0)

  /** States of a run, with the commands each stands for. */
  ghost predicate Run(cfg: Config, acts: seq<Act>, states: seq<(Shard, seq<Command>)>) {
    && |states| == |acts| + 1 && states[0] == (NEW_SHARD, [])
    && (forall k :: 0 <= k < |acts| ==> Next(cfg, states[k].0, states[k].1, acts[k], states[k + 1].0, states[k + 1].1))
  }

  /** No state has bytes across a cut record that pass for a record. */
  ghost predicate NeverMisread(states: seq<(Shard, seq<Command>)>) {
    forall k :: 0 <= k < |states| ==> !Misread(states[k].0.file)
  }

  lemma NewInv(cfg: Config)
    requires Replayable(cfg)
    ensures Inv(cfg, NEW_SHARD, [])
  {
    hide Lawful;
    NewDeskOk(cfg);
    NoRecs();
    assert Inputs([]) == [];
    assert RecordsFrom([], 0) == [];
    assert Written(NEW_SHARD) == [];
  }

  lemma {:induction false} RunInv(cfg: Config, acts: seq<Act>, states: seq<(Shard, seq<Command>)>, k: nat)
    requires Replayable(cfg) && Run(cfg, acts, states) && NeverMisread(states) && k < |states|
    ensures Inv(cfg, states[k].0, states[k].1)
    decreases k
  {
    hide Replayable, Inv, Next, Misread;
    if k == 0 {
      NewInv(cfg);
    } else {
      RunInv(cfg, acts, states, k - 1);
      NextKeeps(cfg, states[k - 1].0, states[k - 1].1, acts[k - 1], states[k].0, states[k].1);
    }
  }

  /** A command was synced behind a cut record, and no snapshot covers it. */
  predicate SyncedBehindCut(s: Shard) {
    Cut(s.file) && s.durable > s.cutAt && s.durable > Base(s.snapshot)
  }

  /**
   In every state of every run of commands, syncs, snapshots, truncations, crashes (also inside a
   truncation or a first start) and restarts, the desk is alike the one its commands lead to. A
   crash leaves a front of those commands, wherever the unsynced bytes are cut, and this front has
   everything durable exactly when nothing was synced behind a cut record.
   */
  lemma EveryRunRecovers(cfg: Config, acts: seq<Act>, states: seq<(Shard, seq<Command>)>, k: nat, cut: nat)
    requires Replayable(cfg) && Run(cfg, acts, states) && NeverMisread(states) && k < |states|
    requires states[k].0.up && cut <= JOURNAL_LEN * |states[k].0.pending|
    ensures var (s, h) := states[k];
            && HistoryOk(cfg, h) && Alike(Ideal(cfg, h), s.desk) && s.number == |h| && Increasing(Written(s))
            && s.file.Journal? && s.durable <= |h| && Base(s.snapshot) <= |h|
            && var n := Left(Crashed(s, cut));
               Base(s.snapshot) <= n <= |h| && (s.durable <= n <==> !SyncedBehindCut(s))
  {
    hide Replayable, HistoryOk, SnapshotOk, LastNumber, Beyond, Ideal, Alike, Run, DeskInv, Carries, NeverMisread,
      Reached, Recs, Increasing;
    RunInv(cfg, acts, states, k);
    CrashDisk(states[k].0, states[k].1, cut);
  }

  /** The crash cut a header of the journal. */
  predicate TearsHeader(act: Act) {
    (act.CrashInTruncate? || act.CrashInStart?) && 0 < act.cut < |JOURNAL_HEADER|
  }

  lemma HeaderStep(cfg: Config, s: Shard, h: seq<Command>, act: Act, s': Shard, h': seq<Command>)
    requires Inv(cfg, s, h) && Next(cfg, s, h, act, s', h') && !Misread(s.file)
    ensures HeaderTorn(s') <==> HeaderTorn(s) || TearsHeader(act)
  {
    hide HistoryOk, SnapshotOk, DeskOk, Restarted, Reached, Applied, Captures, Encode, Carries, Fits, LastNumber,
      DiskOk, NoConflict;
    match act
    case Start => Restarts(cfg, s, h);
    case Sync => ReachedHeld(s.file, s.pending, JOURNAL_LEN * |s.pending|);
    case Crash(cut) => ReachedHeld(s.file, s.pending, cut);
    case _ =>
  }

  lemma {:induction false} HeaderTornWhen(cfg: Config, acts: seq<Act>, states: seq<(Shard, seq<Command>)>, k: nat)
    requires Replayable(cfg) && Run(cfg, acts, states) && NeverMisread(states) && k < |states|
    ensures HeaderTorn(states[k].0) <==> exists j :: 0 <= j < k && TearsHeader(acts[j])
    decreases k
  {
    hide Replayable, Inv, Next, Misread, TearsHeader;
    if k > 0 {
      RunInv(cfg, acts, states, k - 1);
      HeaderTornWhen(cfg, acts, states, k - 1);
      HeaderStep(cfg, states[k - 1].0, states[k - 1].1, acts[k - 1], states[k].0, states[k].1);
      if TearsHeader(acts[k - 1]) || HeaderTorn(states[k - 1].0) {
        assert exists j :: 0 <= j < k && TearsHeader(acts[j]);
      }
    }
  }

  /**
   A shard that is down comes back exactly when no crash cut a header of its journal and no id past
   its snapshot was journaled with two payloads; the desk is then alike the one its commands lead to.
   */
  lemma RestartsExactly(cfg: Config, acts: seq<Act>, states: seq<(Shard, seq<Command>)>, k: nat)
    requires Replayable(cfg) && Run(cfg, acts, states) && NeverMisread(states) && k < |states| && !states[k].0.up
    ensures var (s, h) := states[k];
            && FileFits(s.file) && Base(s.snapshot) <= |h| && HistoryOk(cfg, h)
            && (Restarted(cfg, s).up <==>
                  (forall j :: 0 <= j < k ==> !TearsHeader(acts[j])) && NoConflict(h[Base(s.snapshot)..]))
            && (Restarted(cfg, s).up ==>
              Restarted(cfg, s).number == |h| && Alike(Ideal(cfg, h), Restarted(cfg, s).desk))
  {
    hide Replayable, HistoryOk, SnapshotOk, LastNumber, Ideal, Alike, Run, DeskInv, NeverMisread, NoConflict, DiskOk,
      Restarted, TearsHeader, HeaderTorn, Misread, Carries;
    RunInv(cfg, acts, states, k);
    NotMisread(states, k);
    HeaderTornWhen(cfg, acts, states, k);
    Restarts(cfg, states[k].0, states[k].1);
  }

  lemma NotMisread(states: seq<(Shard, seq<Command>)>, k: nat)
    requires NeverMisread(states) && k < |states|
    ensures !Misread(states[k].0.file)
  {}

  // --- runs that lose or fail --------------------------------------------------------------------------------------

  /** A run one step longer. */
  lemma RunMore(cfg: Config, acts: seq<Act>, states: seq<(Shard, seq<Command>)>, act: Act, s: Shard, h: seq<Command>)
    requires Run(cfg, acts, states) && NeverMisread(states) && !Misread(s.file)
    requires Next(cfg, states[|acts|].0, states[|acts|].1, act, s, h)
    ensures Run(cfg, acts + [act], states + [(s, h)]) && NeverMisread(states + [(s, h)])
  {
    hide Next, Misread;
    var acts', states' := acts + [act], states + [(s, h)];
    forall k | 0 <= k < |acts'|
      ensures Next(cfg, states'[k].0, states'[k].1, acts'[k], states'[k + 1].0, states'[k + 1].1)
    {
      assert k < |acts| ==> states'[k] == states[k] && acts'[k] == acts[k] && states'[k + 1] == states[k + 1];
    }
  }

  /** The shard after its first start. */
  const STARTED_SHARD: Shard := NEW_SHARD.(file := NEW_JOURNAL, up := true)

  lemma FirstStart(cfg: Config)
    requires Replayable(cfg)
    ensures Run(cfg, [Start], [(NEW_SHARD, []), (STARTED_SHARD, [])])
            && NeverMisread([(NEW_SHARD, []), (STARTED_SHARD, [])])
  {
    hide Lawful, Replayed;
    assert JOURNAL_HEADER[..0] == [];
    assert Beyond([], 0) == [];
    NothingReplayed(cfg);
  }

  lemma NothingReplayed(cfg: Config)
    ensures Replayed(cfg, NEW_DESK, map[], []) == Some(NEW_DESK)
  {}

  ghost function Taken(cfg: Config, s: Shard, cmd: Command, stamp: u64): Shard
    requires s.number < U64_MAX
  {
    s.(desk := Applied(cfg, s.desk, cmd), number := s.number + 1,
       pending := s.pending + [Stamped(Rec(s.number + 1, Encode(cmd)), stamp)])
  }

  /** A halt or a resumption is always taken. */
  lemma TakesSwitch(cfg: Config, acts: seq<Act>, states: seq<(Shard, seq<Command>)>, cmd: Command, stamp: u64)
      returns (acts': seq<Act>, states': seq<(Shard, seq<Command>)>)
    requires Run(cfg, acts, states) && NeverMisread(states) && (cmd.Halt? || cmd.Resume?)
    requires var s := states[|acts|].0; s.up && s.number < U64_MAX && s.snapshot.None?
    ensures Run(cfg, acts', states') && NeverMisread(states')
    ensures states'[|acts'|] == (Taken(cfg, states[|acts|].0, cmd, stamp), states[|acts|].1 + [cmd])
  {
    hide Run, NeverMisread, Misread, Applied, Encode;
    RunLength(cfg, acts, states);
    var (s, h) := states[|acts|];
    NoneCarry();
    assert h[..0] == [];
    NotMisread(states, |acts|);
    assert Next(cfg, s, h, Take(cmd, stamp), Taken(cfg, s, cmd, stamp), h + [cmd]);
    RunMore(cfg, acts, states, Take(cmd, stamp), Taken(cfg, s, cmd, stamp), h + [cmd]);
    acts', states' := acts + [Take(cmd, stamp)], states + [(Taken(cfg, s, cmd, stamp), h + [cmd])];
  }

  lemma RunLength(cfg: Config, acts: seq<Act>, states: seq<(Shard, seq<Command>)>)
    requires Run(cfg, acts, states)
    ensures |states| == |acts| + 1
  {}

  /** A command with the id of another, and another payload, is journaled: after a crash no restart succeeds. */
  lemma ConflictStaysDown(cfg: Config) returns (acts: seq<Act>, states: seq<(Shard, seq<Command>)>)
    requires Replayable(cfg)
    ensures Run(cfg, acts, states) && NeverMisread(states)
    ensures var s := states[|acts|].0; !s.up && FileFits(s.file) && Restarted(cfg, s) == s
    ensures states[|acts|].1 == [Halt(0, 7), Resume(0, 7)]
  {
    hide Replayable, Applied, Encode, Restarted, Misread, Reached, NeverMisread, Run, Recs, LastNumber, NoConflict, Inv;
    FirstStart(cfg);
    acts, states := [Start], [(NEW_SHARD, []), (STARTED_SHARD, [])];
    var c1, c2 := Halt(0, 7), Resume(0, 7);
    acts, states := TakesSwitch(cfg, acts, states, c1, 0);
    acts, states := TakesSwitch(cfg, acts, states, c2, 0);
    RunLength(cfg, acts, states);
    var (s, h) := states[|acts|];
    var x1, x2 := Stamped(Rec(1, Encode(c1)), 0), Stamped(Rec(2, Encode(c2)), 0);
    assert s.pending == [x1, x2] && h == [c1, c2];
    var down := Crashed(s, 128);
    BothReach(x1, x2);
    FineFiles([x1, x2], []);
    assert h[..2] == h;
    assert Next(cfg, s, h, Crash(128), down, h);
    RunMore(cfg, acts, states, Crash(128), down, h);
    RunLength(cfg, acts, states);
    acts, states := acts + [Crash(128)], states + [(down, h)];
    RunInv(cfg, acts, states, |acts|);
    RestartsDown(cfg, down, c1, c2);
  }

  lemma RestartsDown(cfg: Config, s: Shard, c1: Command, c2: Command)
    requires Inv(cfg, s, [c1, c2]) && !s.up && !Misread(s.file) && s.snapshot.None?
    requires Sendable(c1) && Sendable(c2) && c1 != c2 && c1.Id() == c2.Id() != 0
    ensures FileFits(s.file) && Restarted(cfg, s) == s
  {
    hide Inv, Restarted, NoConflict;
    Restarts(cfg, s, [c1, c2]);
    Clash(c1, c2);
  }

  lemma Clash(c1: Command, c2: Command)
    requires Sendable(c1) && Sendable(c2) && c1 != c2 && c1.Id() == c2.Id() != 0
    ensures !NoConflict([c1, c2][0..])
  {
    hide Encode;
    var h := [c1, c2][0..];
    assert h[0] == c1 && h[1] == c2;
    if Encode(c1) == Encode(c2) {
      EncodeInjective(c1, c2);
    }
  }

  lemma FineFiles(xs: seq<Stamped>, stray: seq<byte>)
    requires |stray| < JOURNAL_LEN
    ensures !Misread(Journal(xs, stray))
  {}

  lemma BothReach(x1: Stamped, x2: Stamped)
    requires x1.rec.number == 1 && x2.rec.number == 2
    ensures Reached(NEW_JOURNAL, [x1, x2], 128) == Journal([x1, x2], [])
    ensures LastNumber(Recs([x1, x2]), 0) == 2
  {
    hide StampedBytes;
    assert [] + [x1, x2][..2] == [x1, x2];
    var rs := Recs([x1, x2]);
    assert rs == [x1.rec, x2.rec] && rs[..1] == [x1.rec] && rs[..1][..0] == [];
    assert LastNumber([], 0) == 0 && LastNumber(rs[..1], 0) == 1;
  }

  /**
   A record cut by a crash is not removed: the shard comes back, appends behind it, and what it
   syncs there is not found again.
   */
  lemma CutRecordLoses(cfg: Config) returns (acts: seq<Act>, states: seq<(Shard, seq<Command>)>)
    requires Replayable(cfg)
    ensures Run(cfg, acts, states) && NeverMisread(states)
    ensures var s := states[|acts|].0;
            s.up && s.file.Journal? && s.durable == 1 && SyncedBehindCut(s) && Left(Crashed(s, 0)) == 0
  {
    hide Replayable, Applied, Encode, Misread, StampedBytes, Run, NeverMisread, Inv, Across;
    var c2 := Halt(0, 2);
    var x2 := Stamped(Rec(1, Encode(c2)), 0);
    var r1 := Rec(1, Encode(Halt(0, 1)));
    var stamp := SomeStampShows(r1, StampedBytes(x2));
    var x1 := Stamped(r1, stamp);
    acts, states := ComesBackCut(cfg, stamp);
    acts, states := TakesSwitch(cfg, acts, states, c2, 0);
    RunLength(cfg, acts, states);
    var (s, h) := states[|acts|];
    assert s.pending == [x2];
    var s' := s.(file := Journal([], StampedBytes(x1)[..9] + StampedBytes(x2)), pending := [], durable := 1);
    AcrossIsRead(x1, x2);
    SyncsBehind(cfg, s, h, x1, x2);
    RunMore(cfg, acts, states, Sync, s', h);
    acts, states := acts + [Sync], states + [(s', h)];
    StaysCut(s');
  }

  lemma SyncsBehind(cfg: Config, s: Shard, h: seq<Command>, x1: Stamped, x2: Stamped)
    requires s.up && s.number == 1 && s.file == Journal([], StampedBytes(x1)[..9]) && s.pending == [x2]
    ensures Next(cfg, s, h, Sync,
                 s.(file := Journal([], StampedBytes(x1)[..9] + StampedBytes(x2)), pending := [], durable := 1), h)
  {
    hide StampedBytes;
    OneImage(x2);
    assert StampedBytes(x2)[..64] == StampedBytes(x2);
  }

  /** A first record cut behind the first byte of its stamp, and the shard back up. */
  lemma ComesBackCut(cfg: Config, stamp: u64) returns (acts: seq<Act>, states: seq<(Shard, seq<Command>)>)
    requires Replayable(cfg)
    ensures Run(cfg, acts, states) && NeverMisread(states)
    ensures var x := Stamped(Rec(1, Encode(Halt(0, 1))), stamp);
            states[|acts|] ==
              (Shard(states[|acts|].0.desk, 0, None, Journal([], StampedBytes(x)[..9]), [], true, 0, 0), [])
  {
    hide Replayable, Applied, Encode, Restarted, Misread, StampedBytes, NoConflict, Run, NeverMisread, Inv;
    FirstStart(cfg);
    acts, states := [Start], [(NEW_SHARD, []), (STARTED_SHARD, [])];
    var c := Halt(0, 1);
    acts, states := TakesSwitch(cfg, acts, states, c, stamp);
    RunLength(cfg, acts, states);
    var (s, h) := states[|acts|];
    var x := Stamped(Rec(1, Encode(c)), stamp);
    assert s.pending == [x] && [x][..0] == [] && h[..0] == [];
    var torn := StampedBytes(x)[..9];
    var down := Crashed(s, 9);
    assert down == Shard(s.desk, 1, None, Journal([], torn), [], false, 0, 0);
    FineFiles([], torn);
    assert Next(cfg, s, h, Crash(9), down, []);
    RunMore(cfg, acts, states, Crash(9), down, []);
    RunLength(cfg, acts, states);
    acts, states := acts + [Crash(9)], states + [(down, [])];
    RunInv(cfg, acts, states, |acts|);
    Restarts(cfg, down, []);
    NoClash();
    var up := Restarted(cfg, down);
    assert Next(cfg, down, [], Start, up, []);
    RunMore(cfg, acts, states, Start, up, []);
    RunLength(cfg, acts, states);
    acts, states := acts + [Start], states + [(up, [])];
  }

  lemma AcrossIsRead(x1: Stamped, x2: Stamped)
    requires !Intact(Across(x1.rec, x1.stamp, StampedBytes(x2)))
    ensures !Misread(Journal([], StampedBytes(x1)[..9] + StampedBytes(x2)))
  {
    hide StampedBytes;
  }

  lemma StaysCut(s: Shard)
    requires s.file.Journal? && s.file.whole == [] && s.file.stray != [] && s.pending == [] && s.snapshot.None?
    ensures Left(Crashed(s, 0)) == 0
  {
    assert Flat(Images([])) == [];
  }

  lemma NoClash()
    ensures NoConflict([][0..])
  {}

  /** Cutting the header while the journal is emptied behind a snapshot: no restart succeeds any more. */
  lemma TornTruncation(cfg: Config, s: Shard, h: seq<Command>, cut: nat)
    requires Inv(cfg, s, h) && s.up && s.snapshot.Some? && Base(s.snapshot) == s.number && cut <= |JOURNAL_HEADER|
    ensures var s' := s.(file := HeaderUpTo(cut), pending := [], up := false);
            Next(cfg, s, h, CrashInTruncate(cut), s', h) && FileFits(s'.file) &&
            (Restarted(cfg, s').up <==> cut == 0 || cut == |JOURNAL_HEADER|)
  {
    hide HistoryOk, SnapshotOk, DeskOk, DiskOk, Restarted;
    var s' := s.(file := HeaderUpTo(cut), pending := [], up := false);
    TruncateKeeps(cfg, s, h, CrashInTruncate(cut), s', h);
    FineFiles([], []);
    Restarts(cfg, s', h);
    assert h[|h|..] == [];
    NoneClash(h);
  }

  lemma NoneClash(h: seq<Command>)
    ensures NoConflict(h[|h|..])
  {}
}
