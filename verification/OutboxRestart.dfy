/** When a shard comes back: what it replays from its snapshot has to tell what it told before. */
module OutboxRestarts {
  import opened Types
  import opened Strategies
  import opened Bytes
  import opened Processing
  import opened Desks
  import opened Restores
  import opened Histories
  import opened Renderings
  import opened ReportFrames
  import opened Proofs
  import opened Outboxes
  import opened Batches
  import opened OutboxRuns

  // --- the history of a log ----------------------------------------------------------------------------

  /** The first `n` batches are within the machine limits, one behind the other. */
  ghost predicate Heard(cfg: Config, log: seq<Batch>, n: nat) {
    n <= |log| && Takes(cfg, NEW_DESK, Commands(log[..n]))
  }

  /** The desk of a shard that was never down. */
  ghost function Ideally(cfg: Config, log: seq<Batch>, n: nat): Desk
    requires Heard(cfg, log, n)
  {
    After(cfg, NEW_DESK, Commands(log[..n]))
  }

  lemma HeardSplits(cfg: Config, log: seq<Batch>, n: nat)
    requires n < |log|
    ensures Heard(cfg, log, n + 1) <==> Heard(cfg, log, n) && Takes(cfg, Ideally(cfg, log, n), log[n].commands)
    ensures Heard(cfg, log, n + 1) ==>
              Ideally(cfg, log, n + 1) == After(cfg, Ideally(cfg, log, n), log[n].commands)
  {
    hide DeskInv, Lawful, Handles, DeskAfter;
    var a, b := Commands(log[..n]), log[n].commands;
    assert log[..n + 1][..n] == log[..n];
    assert Commands(log[..n + 1]) == a + b;
    assert Inputs(a + b) == Inputs(a) + Inputs(b);
    if Lawful(cfg.setup.strategy) && DeskInv(cfg, NEW_DESK) {
      RunSplits(cfg, NEW_DESK, Inputs(a), Inputs(b));
    }
  }

  lemma {:induction false} HeardBefore(cfg: Config, log: seq<Batch>, m: nat, n: nat)
    requires m <= n && Heard(cfg, log, n)
    ensures Heard(cfg, log, m)
    decreases n - m
  {
    hide Heard, Ideally, Takes, After;
    if m < n {
      HeardIs(cfg, log, n);
      HeardSplits(cfg, log, n - 1);
      HeardBefore(cfg, log, m, n - 1);
    }
  }

  lemma HeardIs(cfg: Config, log: seq<Batch>, n: nat)
    requires Heard(cfg, log, n)
    ensures n <= |log| && Lawful(cfg.setup.strategy) && DeskInv(cfg, Ideally(cfg, log, n))
  {
    hide Takes, DeskInv, Lawful, After;
    LawfulIs(cfg, NEW_DESK, Commands(log[..n]));
    AfterKeeps(cfg, NEW_DESK, Commands(log[..n]));
  }

  /** The duplicate gates of both desks treat these commands alike. */
  ghost predicate Agree(cfg: Config, d: Desk, d': Desk, cmds: seq<Command>) {
    forall j :: 0 <= j < |cmds| ==> SameGate(cfg, d, d', cmds[j])
  }

  /** The desk is as good as that of a shard that was never down, for every batch still to come. */
  ghost predicate Same(cfg: Config, log: seq<Batch>, n: nat, d: Desk) {
    && Heard(cfg, log, n) && DeskInv(cfg, d) && Alike(Ideally(cfg, log, n), d)
    && forall k :: n <= k < |log| ==> Agree(cfg, Ideally(cfg, log, n), d, log[k].commands)
  }

  lemma AlikeBack(d: Desk, d': Desk)
    requires Alike(d, d')
    ensures Alike(d', d)
  {}

  /** Desks that are alike, with gates that agree, tell the same and stay so. */
  lemma TellAlike(cfg: Config, d: Desk, d': Desk, cmds: seq<Command>)
    requires Takes(cfg, d, cmds) && DeskInv(cfg, d') && Alike(d, d') && Agree(cfg, d, d', cmds)
    ensures Takes(cfg, d', cmds) && Tell(cfg, d', cmds) == Tell(cfg, d, cmds)
    ensures var n, n' := After(cfg, d, cmds), After(cfg, d', cmds);
            Alike(n, n') && forall c :: SameGate(cfg, d, d', c) ==> SameGate(cfg, n, n', c)
  {
    hide DeskInv, Lawful, Handles, DeskAfter, Reports, Alike, SameGate;
    RunAlike(cfg, d, d', Inputs(cmds));
  }

  /** The next batch tells what it would have told a shard that was never down. */
  lemma SameNext(cfg: Config, log: seq<Batch>, n: nat, d: Desk)
    requires Same(cfg, log, n, d) && n < |log|
    ensures Takes(cfg, d, log[n].commands) <==> Takes(cfg, Ideally(cfg, log, n), log[n].commands)
    ensures Takes(cfg, d, log[n].commands) ==>
              && Tell(cfg, d, log[n].commands) == Tell(cfg, Ideally(cfg, log, n), log[n].commands)
              && Same(cfg, log, n + 1, After(cfg, d, log[n].commands))
  {
    hide DeskInv, Takes, Tell, After, Alike, Agree, Heard, Ideally;
    var i, cmds := Ideally(cfg, log, n), log[n].commands;
    HeardIs(cfg, log, n);
    HeardSplits(cfg, log, n);
    AlikeBack(i, d);
    AgreeBack(cfg, i, d, cmds);
    if Takes(cfg, d, cmds) {
      TellAlike(cfg, d, i, cmds);
    }
    if Takes(cfg, i, cmds) {
      TellAlike(cfg, i, d, cmds);
      AfterKeeps(cfg, d, cmds);
      var i', d' := After(cfg, i, cmds), After(cfg, d, cmds);
      forall k | n + 1 <= k < |log| ensures Agree(cfg, i', d', log[k].commands) {
        AgreeNext(cfg, i, d, i', d', log[k].commands);
      }
    }
  }

  lemma AgreeBack(cfg: Config, d: Desk, d': Desk, cmds: seq<Command>)
    requires Agree(cfg, d, d', cmds) && Alike(d, d')
    ensures Agree(cfg, d', d, cmds)
  {}

  lemma AgreeNext(cfg: Config, d: Desk, d': Desk, n: Desk, n': Desk, cmds: seq<Command>)
    requires Agree(cfg, d, d', cmds) && forall c :: SameGate(cfg, d, d', c) ==> SameGate(cfg, n, n', c)
    ensures Agree(cfg, n, n', cmds)
  {
    hide SameGate;
  }

  // --- snapshots ---------------------------------------------------------------------------------------

  /**
   Every command past the snapshot has an id that is new, or names an order that rests in it, or is
   caught by a monotonic gate.
   */
  ghost predicate Remembered(cfg: Config, log: seq<Batch>, n: nat) {
    Heard(cfg, log, n) ==>
      forall k, j :: n <= k < |log| && 0 <= j < |log[k].commands| ==>
        Recalled(cfg, Ideally(cfg, log, n), log[k].commands[j])
  }

  lemma SnapshotSame(cfg: Config, log: seq<Batch>, n: nat, d: Desk, s: Snapshot)
    requires Same(cfg, log, n, d) && Captures(d, s) && Remembered(cfg, log, n)
    ensures Same(cfg, log, n, Restored(s))
  {
    hide DeskInv, Captures, Restored, RestsOn, Heard, Ideally, SameGate, Recalled;
    var i := Ideally(cfg, log, n);
    HeardIs(cfg, log, n);
    RestoredIsAlike(cfg, d, s);
    CapturesAlike(d, i, s);
    forall k, j | n <= k < |log| && 0 <= j < |log[k].commands|
      ensures SameGate(cfg, i, Restored(s), log[k].commands[j])
    {
      RecalledExact(cfg, i, s, log[k].commands[j]);
    }
  }

  // --- runs in which the snapshots remember ---------------------------------------------------------------

  /** The reports render what the batch tells a shard that was never down. */
  ghost predicate ToldAt(cfg: Config, log: seq<Batch>, k: nat, out: seq<ExecReport>) {
    && k < |log| && Heard(cfg, log, k) && Takes(cfg, Ideally(cfg, log, k), log[k].commands)
    && Renders(Tell(cfg, Ideally(cfg, log, k), log[k].commands), out)
  }

  /** Batches the desk has processed: one more while a batch is under way. */
  function Processed(x: Outbox): nat {
    if x.phase.Written? || x.phase.Synced? then x.at + 1 else x.at
  }

  /** Everything marked, saved and in memory is what a shard that was never down would have. */
  ghost predicate Faithful(cfg: Config, log: seq<Batch>, x: Outbox) {
    && Heard(cfg, log, |x.done|) && (forall k :: 0 <= k < |x.done| ==> ToldAt(cfg, log, k, x.done[k].out))
    && Same(cfg, log, Covered(log, x.snapshot), Basis(x.snapshot))
    && (!x.phase.Closed? ==> Same(cfg, log, Processed(x), x.desk))
    && (x.phase.Written? || x.phase.Synced? ==> ToldAt(cfg, log, x.at, x.phase.out))
  }

  ghost predicate RememberedRun(cfg: Config, log: seq<Batch>, states: seq<Outbox>) {
    forall k :: 0 <= k < |states| ==> Remembered(cfg, log, Covered(log, states[k].snapshot))
  }

  lemma SameHeard(cfg: Config, log: seq<Batch>, n: nat, d: Desk)
    requires Same(cfg, log, n, d)
    ensures Heard(cfg, log, n)
  {}

  /** The batch just processed was told as it should be. */
  lemma HandledTells(cfg: Config, log: seq<Batch>, x: Outbox, out: seq<ExecReport>)
    requires Handled(cfg, log, x, out) && Same(cfg, log, x.at, x.desk)
    ensures x.at < |log| && Takes(cfg, x.desk, log[x.at].commands)
    ensures ToldAt(cfg, log, x.at, out) && Same(cfg, log, x.at + 1, After(cfg, x.desk, log[x.at].commands))
  {
    hide Takes, Tell, After, Same, Renders;
    SameHeard(cfg, log, x.at, x.desk);
    SameNext(cfg, log, x.at, x.desk);
  }

  lemma HandlingStep(cfg: Config, group: u32, log: seq<Batch>, x: Outbox, act: Act, x': Outbox)
    requires Faithful(cfg, log, x) && Next(cfg, group, log, x, act, x') && (act.Replay? || act.Apply?)
    ensures Faithful(cfg, log, x')
  {
    hide Handled, Same, ToldAt, Heard, After, Takes, Proven, Passes, BatchBytes, Covered, Basis;
    HandledIs(cfg, log, x, act.out);
    HandledTells(cfg, log, x, act.out);
  }

  lemma MarkStep(cfg: Config, group: u32, log: seq<Batch>, x: Outbox, act: Act, x': Outbox)
    requires Files(group, log, x) && Faithful(cfg, log, x) && Next(cfg, group, log, x, act, x')
    requires act.Mark? || act.CrashInMark?
    ensures Faithful(cfg, log, x')
  {
    hide Same, ToldAt, Heard, Marked, MarkBytes, Covered, Basis, Files, UnderMark;
    UnderIsNext(group, log, x);
    SameHeard(cfg, log, Processed(x), x.desk);
  }

  lemma SnapStep(cfg: Config, group: u32, log: seq<Batch>, x: Outbox, s: Snapshot, x': Outbox)
    requires Ordered(log) && Faithful(cfg, log, x) && Next(cfg, group, log, x, Snap(s), x')
    requires Remembered(cfg, log, Covered(log, x'.snapshot))
    ensures Faithful(cfg, log, x')
  {
    hide Same, ToldAt, Heard, Captures, Restored, UpTo, LastIndex, Remembered, Ordered;
    UpToIs(log, x.at);
    SnapshotSame(cfg, log, x.at, x.desk, s);
  }

  lemma StartStep(cfg: Config, group: u32, log: seq<Batch>, x: Outbox, x': Outbox)
    requires Ordered(log) && Files(group, log, x) && !Misread(x.proofs)
    requires Faithful(cfg, log, x) && Next(cfg, group, log, x, Start, x')
    ensures Faithful(cfg, log, x')
  {
    hide Same, ToldAt, Heard, Covered, Basis, Files, Started, Ordered, LogBytes, ProofsOf, Misread;
    Starts(group, log, x);
  }

  lemma FaithfulKeeps(cfg: Config, group: u32, log: seq<Batch>, x: Outbox, act: Act, x': Outbox)
    requires Ordered(log) && Files(group, log, x) && Next(cfg, group, log, x, act, x') && !Misread(x.proofs)
    requires Faithful(cfg, log, x) && Remembered(cfg, log, Covered(log, x'.snapshot))
    ensures Faithful(cfg, log, x')
  {
    hide Same, ToldAt, Heard, Covered, Basis, Files, Misread, Ordered, Remembered, Handled, Started, Captures, Marked,
      MarkBytes, BatchBytes, Takes, After, Proven, Passes;
    match act
    case Start => StartStep(cfg, group, log, x, x');
    case Replay(out) => HandlingStep(cfg, group, log, x, act, x');
    case Apply(out) => HandlingStep(cfg, group, log, x, act, x');
    case Mark => MarkStep(cfg, group, log, x, act, x');
    case CrashInMark(cut) => MarkStep(cfg, group, log, x, act, x');
    case Snap(s) => SnapStep(cfg, group, log, x, s, x');
    case _ =>
  }

  lemma NewFaithful(cfg: Config, log: seq<Batch>)
    requires Lawful(cfg.setup.strategy)
    ensures Faithful(cfg, log, NEW_OUTBOX)
  {
    hide Lawful;
    NewDeskOk(cfg);
    assert log[..0] == [] && Inputs([]) == [];
    assert Takes(cfg, NEW_DESK, []);
  }

  lemma {:induction false} RunFaithful(
    cfg: Config, group: u32, log: seq<Batch>, acts: seq<Act>, states: seq<Outbox>, k: nat)
    requires Run(cfg, group, log, acts, states) && NeverMisread(states) && RememberedRun(cfg, log, states)
    requires k < |states|
    ensures Files(group, log, states[k]) && Faithful(cfg, log, states[k])
    decreases k
  {
    hide Files, DesksOk, Faithful, Next, Misread, Ordered, Remembered, Covered, Lawful;
    RunInv(cfg, group, log, acts, states, k);
    if k == 0 {
      NewFaithful(cfg, log);
    } else {
      RunFaithful(cfg, group, log, acts, states, k - 1);
      FaithfulKeeps(cfg, group, log, states[k - 1], acts[k - 1], states[k]);
    }
  }

  /**
   In such a run every marked batch has reports that render what its commands tell a shard that was
   never down, and the desk of a running shard is alike to that shard's.
   */
  lemma NeverDown(cfg: Config, group: u32, log: seq<Batch>, acts: seq<Act>, states: seq<Outbox>, k: nat)
    requires Run(cfg, group, log, acts, states) && NeverMisread(states) && RememberedRun(cfg, log, states)
    requires k < |states|
    ensures forall m :: 0 <= m < |states[k].done| ==> ToldAt(cfg, log, m, states[k].done[m].out)
    ensures !states[k].phase.Closed? ==>
              var n := Processed(states[k]);
              Heard(cfg, log, n) && Alike(Ideally(cfg, log, n), states[k].desk)
  {
    hide Run, NeverMisread, RememberedRun, ToldAt, Files, Alike, Heard, Ideally, Agree, DeskInv, Covered, Basis;
    RunFaithful(cfg, group, log, acts, states, k);
  }

  // --- which shards come back ----------------------------------------------------------------------------

  /** Reports of the batches from `n` on, processed one behind the other from this desk. */
  ghost predicate Hears(cfg: Config, log: seq<Batch>, d: Desk, n: nat, replays: seq<seq<ExecReport>>)
    decreases |replays|
  {
    replays != [] ==>
      && n < |log| && Takes(cfg, d, log[n].commands) && Renders(Tell(cfg, d, log[n].commands), replays[0])
      && Hears(cfg, log, After(cfg, d, log[n].commands), n + 1, replays[1..])
  }

  /** Replay one batch after the other, until one fails its proof. */
  ghost function Replayed(cfg: Config, log: seq<Batch>, x: Outbox, replays: seq<seq<ExecReport>>): Outbox
    decreases |replays|
  {
    if replays == [] || !Handled(cfg, log, x, replays[0]) then x
    else Replayed(cfg, log, Checked(cfg, log, x, replays[0]), replays[1..])
  }

  /** All proofs passed. */
  predicate Through(x: Outbox) {
    x.phase.Idle? && x.at == |x.known|
  }

  /** Whatever order the reports come in, they have one fingerprint. */
  ghost predicate OnePrint(told: seq<Emission>) {
    forall a: seq<ExecReport>, b: seq<ExecReport> ::
      Renders(told, a) && Renders(told, b) ==> Fingerprint(a) == Fingerprint(b)
  }

  /** Each of the batches from `n` up to `m` has one fingerprint. */
  ghost predicate OnePrints(cfg: Config, log: seq<Batch>, n: nat, m: nat)
    requires Heard(cfg, log, m)
  {
    forall k :: n <= k < m && Heard(cfg, log, k) && Takes(cfg, Ideally(cfg, log, k), log[k].commands) ==>
      OnePrint(Tell(cfg, Ideally(cfg, log, k), log[k].commands))
  }

  /** A batch whose reports come in more than one order has two with different fingerprints. */
  ghost predicate OrdersShow(cfg: Config, log: seq<Batch>, n: nat, m: nat)
    requires Heard(cfg, log, m)
  {
    forall k :: n <= k < m && Heard(cfg, log, k) && Takes(cfg, Ideally(cfg, log, k), log[k].commands) ==>
      var told := Tell(cfg, Ideally(cfg, log, k), log[k].commands);
      Settled(told) || exists a, b :: Renders(told, a) && Renders(told, b) && Fingerprint(a) != Fingerprint(b)
  }

  /** No command of the batches from `n` up to `m` closes out a user with two orders or more on the book. */
  ghost predicate CloseNone(cfg: Config, log: seq<Batch>, n: nat, m: nat)
    requires Heard(cfg, log, m)
  {
    forall k :: n <= k < m && Heard(cfg, log, k) && Takes(cfg, Ideally(cfg, log, k), log[k].commands) ==>
      ClosesNone(cfg, Ideally(cfg, log, k), log[k].commands)
  }

  lemma HeardAt(cfg: Config, log: seq<Batch>, k: nat, m: nat)
    requires Heard(cfg, log, m) && k < m
    ensures k < |log| && Heard(cfg, log, k) && Takes(cfg, Ideally(cfg, log, k), log[k].commands)
  {
    hide Heard, Ideally, Takes;
    HeardIs(cfg, log, m);
    HeardBefore(cfg, log, k + 1, m);
    HeardSplits(cfg, log, k);
  }

  lemma {:induction false} SomeReplays(cfg: Config, log: seq<Batch>, d: Desk, n: nat, m: nat)
      returns (replays: seq<seq<ExecReport>>)
    requires Same(cfg, log, n, d) && Heard(cfg, log, m) && n <= m
    ensures |replays| == m - n && Hears(cfg, log, d, n, replays)
    decreases m - n
  {
    hide Same, Heard, Ideally, Takes, Tell, After, Renders;
    if n == m {
      replays := [];
    } else {
      HeardAt(cfg, log, n, m);
      SameHeard(cfg, log, n, d);
      SameNext(cfg, log, n, d);
      var out := Rendering(Tell(cfg, d, log[n].commands));
      var rest := SomeReplays(cfg, log, After(cfg, d, log[n].commands), n + 1, m);
      replays := [out] + rest;
      assert replays[1..] == rest;
    }
  }

  /** A shard that has started and replays; what it has to prove was told as it should be. */
  ghost predicate Replaying(cfg: Config, log: seq<Batch>, x: Outbox) {
    && x.phase.Idle? && Ordered(log) && Numbered(log, x.done) && x.known == ProofsOf(x.done) && x.at <= |x.done|
    && Heard(cfg, log, |x.done|) && Same(cfg, log, x.at, x.desk)
    && (forall k :: 0 <= k < |x.done| ==> ToldAt(cfg, log, k, x.done[k].out))
  }

  ghost predicate AllThrough(cfg: Config, log: seq<Batch>, x: Outbox) {
    forall replays: seq<seq<ExecReport>> ::
      x.at + |replays| == |x.done| && Hears(cfg, log, x.desk, x.at, replays) ==> Through(Replayed(cfg, log, x, replays))
  }

  /** One replay: it passes exactly with the fingerprint of the first run. */
  lemma ReplayPasses(cfg: Config, log: seq<Batch>, x: Outbox, out: seq<ExecReport>)
    requires Replaying(cfg, log, x) && x.at < |x.done| && Handled(cfg, log, x, out)
    ensures x.at < |log| && Takes(cfg, x.desk, log[x.at].commands)
    ensures Checked(cfg, log, x, out) ==
              if Fingerprint(x.done[x.at].out) == Fingerprint(out)
              then x.(desk := After(cfg, x.desk, log[x.at].commands), at := x.at + 1)
              else x.(phase := Closed)
    ensures Replaying(cfg, log, x.(desk := After(cfg, x.desk, log[x.at].commands), at := x.at + 1))
  {
    hide Same, Heard, Ideally, Takes, Tell, After, Renders, Proven, Ordered, Numbered, ProofsOf, Fingerprint, Passes,
      ProofOf;
    SameHeard(cfg, log, x.at, x.desk);
    SameNext(cfg, log, x.at, x.desk);
    ProvenIs(log, x.done, x.at);
    var e := x.done[x.at];
    PassesExact(e.index, Tell(cfg, x.desk, log[x.at].commands), e.out, out);
    assert ToldAt(cfg, log, x.at, e.out);
  }

  /** The desk behind the next batch. */
  ghost function Onward(cfg: Config, log: seq<Batch>, x: Outbox): Outbox
    requires x.at < |log| && Takes(cfg, x.desk, log[x.at].commands)
  {
    x.(desk := After(cfg, x.desk, log[x.at].commands), at := x.at + 1)
  }

  /** What is left to hear behind the first replay. */
  lemma HearsFirst(cfg: Config, log: seq<Batch>, x: Outbox, out: seq<ExecReport>, rest: seq<seq<ExecReport>>)
    requires x.phase.Idle? && x.at < |log| && Takes(cfg, x.desk, log[x.at].commands)
    ensures Hears(cfg, log, x.desk, x.at, [out] + rest) <==>
              Handled(cfg, log, x, out) && Hears(cfg, log, Onward(cfg, log, x).desk, x.at + 1, rest)
    ensures Handled(cfg, log, x, out) ==>
              Replayed(cfg, log, x, [out] + rest) == Replayed(cfg, log, Checked(cfg, log, x, out), rest)
  {
    hide Takes, Tell, After, Renders, Checked;
    assert ([out] + rest)[1..] == rest;
  }

  /** A batch with one fingerprint: the shard passes it and goes on. */
  lemma OnePrintGoesOn(cfg: Config, log: seq<Batch>, x: Outbox)
    requires Replaying(cfg, log, x) && x.at < |x.done| && x.at < |log| && Takes(cfg, x.desk, log[x.at].commands)
    requires OnePrint(Tell(cfg, x.desk, log[x.at].commands))
    ensures AllThrough(cfg, log, x) <==> AllThrough(cfg, log, Onward(cfg, log, x))
  {
    hide Replaying, Hears, Replayed, Handled, Takes, Tell, After, OnePrint, Fingerprint, Checked;
    var y, out := Onward(cfg, log, x), x.done[x.at].out;
    FirstHandles(cfg, log, x);
    if AllThrough(cfg, log, x) {
      forall rest: seq<seq<ExecReport>> | y.at + |rest| == |y.done| && Hears(cfg, log, y.desk, y.at, rest)
        ensures Through(Replayed(cfg, log, y, rest))
      {
        HearsFirst(cfg, log, x, out, rest);
        ReplayPasses(cfg, log, x, out);
        assert x.at + |[out] + rest| == |x.done|;
      }
    }
    if AllThrough(cfg, log, y) {
      forall replays: seq<seq<ExecReport>> | x.at + |replays| == |x.done| && Hears(cfg, log, x.desk, x.at, replays)
        ensures Through(Replayed(cfg, log, x, replays))
      {
        var first, rest := replays[0], replays[1..];
        assert [first] + rest == replays;
        HearsFirst(cfg, log, x, first, rest);
        SamePrint(cfg, log, x, first, out);
        ReplayPasses(cfg, log, x, first);
        assert y.at + |rest| == |y.done|;
      }
    }
  }

  lemma ReplayingIs(cfg: Config, log: seq<Batch>, x: Outbox)
    requires Replaying(cfg, log, x)
    ensures x.phase.Idle? && x.at <= |x.done| && Heard(cfg, log, |x.done|) && Same(cfg, log, x.at, x.desk)
    ensures x.known == ProofsOf(x.done)
  {
    hide Same, Heard, ToldAt, Ordered, Numbered, ProofsOf;
  }

  lemma FirstHandles(cfg: Config, log: seq<Batch>, x: Outbox)
    requires Replaying(cfg, log, x) && x.at < |x.done| && x.at < |log| && Takes(cfg, x.desk, log[x.at].commands)
    ensures x.phase.Idle? && Handled(cfg, log, x, x.done[x.at].out)
  {
    hide Same, Heard, Ideally, Takes, Tell, After, Renders, Ordered, Numbered, ProofsOf;
    assert ToldAt(cfg, log, x.at, x.done[x.at].out);
    SameNext(cfg, log, x.at, x.desk);
  }

  lemma SamePrint(cfg: Config, log: seq<Batch>, x: Outbox, a: seq<ExecReport>, b: seq<ExecReport>)
    requires Handled(cfg, log, x, a) && Handled(cfg, log, x, b) && OnePrint(Tell(cfg, x.desk, log[x.at].commands))
    ensures Fingerprint(a) == Fingerprint(b)
  {
    hide Takes, Tell, Renders, Fingerprint;
  }

  /** A batch with two fingerprints: one of them keeps the shard down. */
  lemma TwoPrintsStop(cfg: Config, log: seq<Batch>, x: Outbox)
    requires Replaying(cfg, log, x) && x.at < |x.done| && x.at < |log| && Takes(cfg, x.desk, log[x.at].commands)
    requires !OnePrint(Tell(cfg, x.desk, log[x.at].commands))
    ensures !AllThrough(cfg, log, x)
  {
    hide Replaying, Hears, Replayed, Takes, Tell, After, Fingerprint, Checked, Renders, Heard, Same;
    ReplayingIs(cfg, log, x);
    FirstHandles(cfg, log, x);
    var told, out := Tell(cfg, x.desk, log[x.at].commands), x.done[x.at].out;
    var a: seq<ExecReport>, b: seq<ExecReport> :|
      Renders(told, a) && Renders(told, b) && Fingerprint(a) != Fingerprint(b);
    var other := if Fingerprint(a) == Fingerprint(out) then b else a;
    ReplayPasses(cfg, log, x, other);
    SameNext(cfg, log, x.at, x.desk);
    var rest := SomeReplays(cfg, log, After(cfg, x.desk, log[x.at].commands), x.at + 1, |x.done|);
    HearsFirst(cfg, log, x, other, rest);
    StaysClosed(cfg, log, x.(phase := Closed), rest);
    assert x.at + |[other] + rest| == |x.done| && Hears(cfg, log, x.desk, x.at, [other] + rest);
  }

  lemma StaysClosed(cfg: Config, log: seq<Batch>, x: Outbox, replays: seq<seq<ExecReport>>)
    requires x.phase.Closed?
    ensures Replayed(cfg, log, x, replays) == x
  {}

  /** Every replay gets through exactly when every batch to be replayed has one fingerprint. */
  lemma {:induction false} ThroughExactly(cfg: Config, log: seq<Batch>, x: Outbox)
    requires Replaying(cfg, log, x) && Heard(cfg, log, |x.done|)
    ensures AllThrough(cfg, log, x) <==> OnePrints(cfg, log, x.at, |x.done|)
    decreases |x.done| - x.at
  {
    hide Replaying, Hears, Replayed, Takes, Tell, After, OnePrint, Fingerprint, Heard, Same, Ideally;
    ReplayingIs(cfg, log, x);
    if x.at == |x.done| {
      NothingToHear(cfg, log, x);
    } else {
      HeardAt(cfg, log, x.at, |x.done|);
      SameHeard(cfg, log, x.at, x.desk);
      SameNext(cfg, log, x.at, x.desk);
      if OnePrint(Tell(cfg, x.desk, log[x.at].commands)) {
        FirstHandles(cfg, log, x);
        ReplayPasses(cfg, log, x, x.done[x.at].out);
        OnePrintGoesOn(cfg, log, x);
        ThroughExactly(cfg, log, Onward(cfg, log, x));
      } else {
        TwoPrintsStop(cfg, log, x);
      }
    }
  }

  lemma SettledPrints(told: seq<Emission>)
    requires Settled(told)
    ensures OnePrint(told)
  {
    hide Settled, Renders, Fingerprint;
    forall a: seq<ExecReport>, b: seq<ExecReport> | Renders(told, a) && Renders(told, b)
      ensures Fingerprint(a) == Fingerprint(b)
    {
      SettledIsUnique(told, a, b);
    }
  }

  /**
   No command that closes out several orders leaves one fingerprint to each batch; and one
   fingerprint to each batch means no such command, where different orders show.
   */
  lemma OnePrintsWhen(cfg: Config, log: seq<Batch>, n: nat, m: nat)
    requires Heard(cfg, log, m)
    ensures CloseNone(cfg, log, n, m) ==> OnePrints(cfg, log, n, m)
    ensures OrdersShow(cfg, log, n, m) && OnePrints(cfg, log, n, m) ==> CloseNone(cfg, log, n, m)
  {
    hide Heard, Ideally, Takes, Tell, ClosesNone, Renders, Fingerprint, Settled;
    HeardIs(cfg, log, m);
    forall k | n <= k < m && Heard(cfg, log, k) && Takes(cfg, Ideally(cfg, log, k), log[k].commands)
      ensures var d, told := Ideally(cfg, log, k), Tell(cfg, Ideally(cfg, log, k), log[k].commands);
              (ClosesNone(cfg, d, log[k].commands) <==> Settled(told)) && (Settled(told) ==> OnePrint(told))
    {
      var told := Tell(cfg, Ideally(cfg, log, k), log[k].commands);
      BatchSettled(cfg, Ideally(cfg, log, k), log[k].commands);
      if Settled(told) {
        SettledPrints(told);
      }
    }
  }

  lemma NothingToHear(cfg: Config, log: seq<Batch>, x: Outbox)
    requires x.phase.Idle? && x.at == |x.done| && x.known == ProofsOf(x.done)
    ensures AllThrough(cfg, log, x)
  {}

  /** A restart with these replays. */
  ghost predicate ComesBack(cfg: Config, log: seq<Batch>, x: Outbox, replays: seq<seq<ExecReport>>)
    requires x.proofs.TornHeader? ==> x.proofs.bytes < |PROOF_HEADER|
  {
    Through(Replayed(cfg, log, Started(log, x), replays))
  }

  /** What the restored desk tells when the marked batches past the snapshot are processed again. */
  ghost predicate Replays(cfg: Config, log: seq<Batch>, x: Outbox, replays: seq<seq<ExecReport>>) {
    && Covered(log, x.snapshot) + |replays| == |x.done|
    && Hears(cfg, log, Basis(x.snapshot), Covered(log, x.snapshot), replays)
  }

  /** The shard comes back whatever order the reports of its replays come in. */
  ghost predicate AlwaysBack(cfg: Config, log: seq<Batch>, x: Outbox)
    requires x.proofs.TornHeader? ==> x.proofs.bytes < |PROOF_HEADER|
  {
    forall replays :: Replays(cfg, log, x, replays) ==> ComesBack(cfg, log, x, replays)
  }

  /**
   A shard that is down comes back, whatever order its reports come in, exactly when no crash cut a
   segment header or the header of the proof file, no proof was written behind a cut one, and every
   batch it replays has one fingerprint. So it does when no command it replays closes out a user with
   two orders or more on the book, and only then where different orders show in the fingerprint.
   */
  lemma RestartsExactly(cfg: Config, group: u32, log: seq<Batch>, acts: seq<Act>, states: seq<Outbox>, k: nat)
    requires Run(cfg, group, log, acts, states) && NeverMisread(states) && RememberedRun(cfg, log, states)
    requires k < |states| && states[k].phase.Closed?
    ensures states[k].proofs.TornHeader? ==> states[k].proofs.bytes < |PROOF_HEADER|
    ensures Heard(cfg, log, |states[k].done|)
    ensures var x, n, m := states[k], Covered(log, states[k].snapshot), |states[k].done|;
            var whole := forall j :: 0 <= j < k ==> !TearsHeader(acts[j]) && !SpoilsProofs(states[j], acts[j]);
            && (AlwaysBack(cfg, log, x) <==> whole && OnePrints(cfg, log, n, m))
            && (CloseNone(cfg, log, n, m) ==> OnePrints(cfg, log, n, m))
            && (OrdersShow(cfg, log, n, m) && OnePrints(cfg, log, n, m) ==> CloseNone(cfg, log, n, m))
  {
    hide Run, NeverMisread, RememberedRun, TearsHeader, SpoilsProofs, OnePrints, OrdersShow, CloseNone, Heard, Readable,
      HeaderTorn, Files, Faithful, Misread, Ordered, AlwaysBack;
    var x := states[k];
    RunFaithful(cfg, group, log, acts, states, k);
    RunIsOrdered(cfg, group, log, acts, states, k);
    SpoiledWhen(cfg, group, log, acts, states, k);
    DownComesBack(cfg, group, log, x);
    OnePrintsWhen(cfg, log, Covered(log, x.snapshot), |x.done|);
  }

  lemma RunIsOrdered(cfg: Config, group: u32, log: seq<Batch>, acts: seq<Act>, states: seq<Outbox>, k: nat)
    requires Run(cfg, group, log, acts, states) && NeverMisread(states) && k < |states|
    ensures Ordered(log) && !Misread(states[k].proofs)
  {
    hide Next, Misread, Ordered, Replayable;
  }

  lemma FaithfulHeard(cfg: Config, log: seq<Batch>, x: Outbox)
    requires Faithful(cfg, log, x)
    ensures Heard(cfg, log, |x.done|) && Same(cfg, log, Covered(log, x.snapshot), Basis(x.snapshot))
  {
    hide Heard, Same, ToldAt;
  }

  lemma DownComesBack(cfg: Config, group: u32, log: seq<Batch>, x: Outbox)
    requires Ordered(log) && Files(group, log, x) && Faithful(cfg, log, x) && x.phase.Closed? && !Misread(x.proofs)
    ensures x.proofs.TornHeader? ==> x.proofs.bytes < |PROOF_HEADER|
    ensures Heard(cfg, log, |x.done|)
    ensures AlwaysBack(cfg, log, x) <==>
              !HeaderTorn(x) && Readable(x.proofs) && OnePrints(cfg, log, Covered(log, x.snapshot), |x.done|)
  {
    hide Files, Faithful, Ordered, Misread, Readable, HeaderTorn, OnePrints, Heard, Same, Hears, Replayed, Started,
      Covered, Basis, ProofsOf, LogBytes;
    FilesBound(group, log, x);
    FaithfulHeard(cfg, log, x);
    Starts(group, log, x);
    if HeaderTorn(x) || !Readable(x.proofs) {
      var replays := SomeReplays(cfg, log, Basis(x.snapshot), Covered(log, x.snapshot), |x.done|);
      StaysClosed(cfg, log, Started(log, x), replays);
      assert Replays(cfg, log, x, replays) && !ComesBack(cfg, log, x, replays);
    } else {
      var y := Started(log, x);
      StartedReplays(cfg, group, log, x);
      ThroughExactly(cfg, log, y);
      forall replays ensures Replays(cfg, log, x, replays) <==>
                               y.at + |replays| == |y.done| && Hears(cfg, log, y.desk, y.at, replays) {}
    }
  }

  lemma FilesBound(group: u32, log: seq<Batch>, x: Outbox)
    requires Files(group, log, x)
    ensures x.proofs.TornHeader? ==> x.proofs.bytes < |PROOF_HEADER|
    ensures Covered(log, x.snapshot) <= |x.done| && Numbered(log, x.done)
  {
    hide LogBytes, BatchBytes, ProofsOf, Bodies, Covered, Down, Up;
  }

  lemma StartedReplays(cfg: Config, group: u32, log: seq<Batch>, x: Outbox)
    requires Ordered(log) && Files(group, log, x) && Faithful(cfg, log, x) && x.phase.Closed? && !Misread(x.proofs)
    requires !HeaderTorn(x) && Readable(x.proofs) && (x.proofs.TornHeader? ==> x.proofs.bytes < |PROOF_HEADER|)
    ensures Replaying(cfg, log, Started(log, x))
  {
    hide Files, Ordered, Misread, Readable, HeaderTorn, Heard, Same, ToldAt, Started, Covered, Basis, ProofsOf,
      LogBytes, Numbered;
    FilesBound(group, log, x);
    Starts(group, log, x);
  }

  /** A restart with replays is a stretch of the run. */
  lemma RestartRuns(
    cfg: Config, group: u32, log: seq<Batch>, acts: seq<Act>, states: seq<Outbox>, replays: seq<seq<ExecReport>>)
      returns (acts': seq<Act>, states': seq<Outbox>)
    requires GoodRun(cfg, group, log, acts, states)
    requires states[|acts|].phase.Closed? && Replays(cfg, log, states[|acts|], replays)
    ensures states[|acts|].proofs.TornHeader? ==> states[|acts|].proofs.bytes < |PROOF_HEADER|
    ensures GoodRun(cfg, group, log, acts', states')
    ensures states'[|acts'|] == Replayed(cfg, log, Started(log, states[|acts|]), replays)
  {
    hide GoodRun, Clean, HeaderTorn, Files, DesksOk, Ordered, Misread, Started, Hears, Replayed, Lawful, Readable,
      ProofsOf, LogBytes, Covered, Basis;
    RunIsFine(cfg, group, log, acts, states);
    var x := states[|acts|];
    FilesBound(group, log, x);
    Starts(group, log, x);
    var y := Started(log, x);
    assert Next(cfg, group, log, x, Start, y);
    RunMore(cfg, group, log, acts, states, Start, y);
    acts', states' := acts + [Start], states + [y];
    RunLength(cfg, group, log, acts', states');
    if !HeaderTorn(x) && Readable(x.proofs) {
      KnownAll(x.done);
      acts', states' := ReplaysRun(cfg, group, log, acts', states', replays);
    } else {
      StaysClosed(cfg, log, y, replays);
    }
  }

  lemma {:induction false} ReplaysRun(
    cfg: Config, group: u32, log: seq<Batch>, acts: seq<Act>, states: seq<Outbox>, replays: seq<seq<ExecReport>>)
      returns (acts': seq<Act>, states': seq<Outbox>)
    requires GoodRun(cfg, group, log, acts, states)
    requires var x := states[|acts|]; x.phase.Idle? && x.at + |replays| == |x.done| == |x.known|
    ensures GoodRun(cfg, group, log, acts', states')
    ensures states'[|acts'|] == Replayed(cfg, log, states[|acts|], replays)
    decreases |replays|
  {
    hide GoodRun, Clean, Files, DesksOk, Ordered, Misread, Lawful, Handled, Takes, After, Proven, Passes, Numbered,
      MemoryOk;
    RunIsFine(cfg, group, log, acts, states);
    var x := states[|acts|];
    if replays == [] || !Handled(cfg, log, x, replays[0]) {
      acts', states' := acts, states;
    } else {
      IdleIs(group, log, x);
      HandledIs(cfg, log, x, replays[0]);
      NextProven(log, x);
      var y := Checked(cfg, log, x, replays[0]);
      RunMore(cfg, group, log, acts, states, Replay(replays[0]), y);
      acts', states' := acts + [Replay(replays[0])], states + [y];
      RunLength(cfg, group, log, acts', states');
      if y.phase.Idle? {
        acts', states' := ReplaysRun(cfg, group, log, acts', states', replays[1..]);
      } else {
        StaysClosed(cfg, log, y, replays[1..]);
      }
    }
  }

  // --- a command the snapshot has forgotten ---------------------------------------------------------------

  lemma RejectionFrame(r: ExecReport, i: u32, id: OrderId, reason: Reason)
    ensures FrameOf(r) == FrameOf(RejectedReport(i, id, reason)) <==>
              r.RejectedReport? && r.instrument == i && r.orderId == id
  {
    hide Le32, Le64, FromLe32, FromLe64;
    if FrameOf(r) == FrameOf(RejectedReport(i, id, reason)) {
      assert FrameOf(r)[0] == 7;
      assert FrameOf(r)[4..8] == Le32(r.instrument) && FrameOf(r)[8..16] == Le64(r.orderId);
      assert FrameOf(RejectedReport(i, id, reason))[4..8] == Le32(i);
      assert FrameOf(RejectedReport(i, id, reason))[8..16] == Le64(id);
      RoundTrip32(i);
      RoundTrip32(r.instrument);
      RoundTrip64(id);
      RoundTrip64(r.orderId);
    }
  }

  /** A stream of one rejection looks like any other rejection of the order, whatever the reason. */
  lemma RejectionShows(out: seq<ExecReport>, i: u32, id: OrderId, reason: Reason)
    ensures StreamOf(out) == StreamOf([RejectedReport(i, id, reason)]) <==>
              |out| == 1 && out[0].RejectedReport? && out[0].instrument == i && out[0].orderId == id
  {
    hide FrameOf;
    var one := [RejectedReport(i, id, reason)];
    assert one[1..] == [] && StreamOf(one) == FrameOf(one[0]);
    StreamLength(out);
    if |out| == 1 {
      assert out[1..] == [] && StreamOf(out) == FrameOf(out[0]);
      RejectionFrame(out[0], i, id, reason);
    }
  }

  lemma {:induction false} StreamLength(out: seq<ExecReport>)
    ensures |StreamOf(out)| == 56 * |out|
  {
    hide FrameOf;
    if out != [] {
      StreamLength(out[1..]);
    }
  }

  /**
   A command the desk refuses as a duplicate, processed again by the desk restored from a snapshot:
   the same bytes come out exactly when that desk refuses it too, for whatever reason. It does when
   the order rests, or the monotonic gate of its stream catches it; otherwise the command gets
   through to the gates and the book.
   */
  lemma RetryShows(cfg: Config, d: Desk, s: Snapshot, input: Input, a: seq<ExecReport>, b: seq<ExecReport>)
    requires DeskInv(cfg, d) && Captures(d, s) && Lawful(cfg.setup.strategy) && Fits(d, input.cmd)
    requires Repeated(cfg, d, input.cmd)
    ensures DeskSound(d) && DeskSound(Restored(s)) && Fits(Restored(s), input.cmd)
    ensures Renders(Process(cfg, d, input).1, a) && Renders(Process(cfg, Restored(s), input).1, b) ==>
              && (StreamOf(a) == StreamOf(b) <==>
                    exists reason :: b == [RejectedReport(input.cmd.Target(), input.cmd.Id(), reason)])
              && (RestsOn(d, input.cmd.Id()) || (cfg.dedup && input.cmd.Id() <= Cursor(d, input.cmd)) ==> a == b)
  {
    hide DeskInv, Captures, Lawful, Restored, RestsOn, DeskSound, Fits, StreamOf, Perform;
    RetryAfterRestore(cfg, d, s, input);
    var i, id := input.cmd.Target(), input.cmd.Id();
    if Renders(Process(cfg, d, input).1, a) && Renders(Process(cfg, Restored(s), input).1, b) {
      assert Process(cfg, d, input).1 == [One(RejectedReport(i, id, Duplicate))];
      OneRendering(RejectedReport(i, id, Duplicate), a);
      RejectionShows(b, i, id, Duplicate);
      if StreamOf(a) == StreamOf(b) {
        assert b == [RejectedReport(i, id, b[0].reason)];
      }
      if Process(cfg, Restored(s), input).1 == Process(cfg, d, input).1 {
        OneRendering(RejectedReport(i, id, Duplicate), b);
      }
    }
  }

  lemma OneRendering(r: ExecReport, out: seq<ExecReport>)
    requires Renders([One(r)], out)
    ensures out == [r]
  {
    assert [One(r)][1..] == [];
    assert out[1..] == [];
  }
}
