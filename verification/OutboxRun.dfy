/** The execution outbox as a protocol: group commit, proof, rotation, snapshot, crash, restart, replay. */
module OutboxRuns {
  import opened Types
  import opened Strategies
  import opened Bytes
  import opened Processing
  import opened Desks
  import opened Restores
  import opened Histories
  import opened Renderings
  import opened ReportFrames
  import opened Proofs
  import opened Outboxes
  import opened Batches

  // --- the protocol ------------------------------------------------------------------------------------------

  datatype Phase = Closed | Idle | Written(out: seq<ExecReport>) | Synced(out: seq<ExecReport>) | Proved

  /**
   On disk: the sealed segments, the newest segment split by what a crash cannot take away, the
   proofs and the matching snapshot. In memory: where the shard stands, its desk, the number of
   batches it has dealt with, and the proofs it found when it started. The last three fields are
   history: the batches marked, how many of them lie in sealed segments, and whether a restart
   trimmed the outbox without readable proofs.
   */
  datatype Outbox = Outbox(
    segments: seq<seq<byte>>, synced: seq<byte>, unsynced: seq<byte>, proofs: ProofFile, snapshot: Option<Snapshot>,
    phase: Phase, desk: Desk, at: nat, known: seq<Proof>,
    done: seq<Entry>, sealed: nat, dropped: bool)

  datatype Act =
    | Start
    | Replay(out: seq<ExecReport>)
    | Apply(out: seq<ExecReport>)
    | Sync
    | Mark
    | Rotate
    | Stay
    | Snap(snapshot: Snapshot)
    | Crash(cut: nat)
    | CrashInMark(cut: nat)
    | CrashInRotation(cut: nat)
    | CrashInStart(cut: nat)

  /** The highest proof on file: the application watermark. */
  function Watermark(ps: seq<Proof>): Option<u64> {
    if ps == [] then None
    else
      var w, last := Watermark(ps[..|ps| - 1]), ps[|ps| - 1].index;
      if w.Some? && w.value > last then w else Some(last)
  }

  /** The watermark is the highest index proven. */
  lemma {:induction false} WatermarkIsHighest(ps: seq<Proof>, k: nat)
    requires k < |ps|
    ensures Watermark(ps).Some? && ps[k].index <= Watermark(ps).value
            && exists j :: 0 <= j < |ps| && ps[j].index == Watermark(ps).value
    decreases |ps|
  {
    var n := |ps| - 1;
    if n > 0 {
      WatermarkIsHighest(ps[..n], if k < n then k else 0);
      var j :| 0 <= j < n && ps[..n][j].index == Watermark(ps[..n]).value;
      assert ps[j] == ps[..n][j] && (k < n ==> ps[k] == ps[..n][k]);
    }
    assert ps[n].index == ps[|ps| - 1].index;
  }

  function ProofsOf(es: seq<Entry>): (ps: seq<Proof>)
    ensures |ps| == |es| && forall k :: 0 <= k < |es| ==> ps[k] == ProofOf(es[k].index, es[k].out)
  {
    seq(|es|, k requires 0 <= k < |es| => ProofOf(es[k].index, es[k].out))
  }

  /** The proof of a batch among those found at the start. */
  function Proven(ps: seq<Proof>, index: u64): Option<Proof> {
    if ps == [] then None
    else if ps[|ps| - 1].index == index then Some(ps[|ps| - 1])
    else Proven(ps[..|ps| - 1], index)
  }

  /** Batches of the log up to a Raft index. */
  function UpTo(log: seq<Batch>, index: u64): nat {
    if log == [] then 0 else UpTo(log[..|log| - 1], index) + if log[|log| - 1].index <= index then 1 else 0
  }

  /** Batches the snapshot stands for. */
  function Covered(log: seq<Batch>, snapshot: Option<Snapshot>): nat {
    if snapshot.Some? then UpTo(log, snapshot.value.raftIndex) else 0
  }

  /** The Raft index of the last of `n` batches. */
  function LastIndex(log: seq<Batch>, n: nat): u64
    requires n <= |log|
  {
    if n == 0 then 0 else log[n - 1].index
  }

  /** The desk a start sets out from. */
  function Basis(snapshot: Option<Snapshot>): Desk {
    if snapshot.Some? then Restored(snapshot.value) else NEW_DESK
  }

  /**
   A start: trim the newest segment to the watermark of the proofs (to nothing when the proofs
   cannot be read), open it, restore the snapshot. Whatever fails, the shard stays down.
   */
  ghost function Started(log: seq<Batch>, x: Outbox): Outbox
    requires x.proofs.TornHeader? ==> x.proofs.bytes < |PROOF_HEADER|
  {
    var ps := Loaded(FileBytes(x.proofs));
    match Trim(x.synced, if ps.Some? then Watermark(ps.value) else None)
    case Bad => x
    case Trimmed(file) =>
      var newest := OpenSegment(file);
      if newest.None? then x.(synced := file)
      else
        var y := x.(synced := newest.value, dropped := x.dropped || ps.None?);
        if ps.None? then y
        else y.(phase := Idle, desk := Basis(x.snapshot), at := Covered(log, x.snapshot), known := ps.value)
  }

  /** The next batch can be processed, with these reports. */
  ghost predicate Handled(cfg: Config, log: seq<Batch>, x: Outbox, out: seq<ExecReport>) {
    && x.phase.Idle? && x.at < |log| && Takes(cfg, x.desk, log[x.at].commands)
    && Renders(Tell(cfg, x.desk, log[x.at].commands), out)
  }

  /** A batch with a proof is processed again and has to pass it. */
  ghost function Checked(cfg: Config, log: seq<Batch>, x: Outbox, out: seq<ExecReport>): Outbox
    requires Handled(cfg, log, x, out)
  {
    var p := Proven(x.known, log[x.at].index);
    if p.Some? && Passes(p.value, out) then x.(desk := After(cfg, x.desk, log[x.at].commands), at := x.at + 1)
    else x.(phase := Closed)
  }

  /** What marking the batch under way adds. */
  ghost function Under(log: seq<Batch>, x: Outbox): Entry
    requires x.phase.Written? || x.phase.Synced?
  {
    Entry(if x.at < |log| then log[x.at].index else 0, x.phase.out)
  }

  ghost function UnderMark(log: seq<Batch>, x: Outbox): Proof
    requires x.phase.Written? || x.phase.Synced?
  {
    ProofOf(Under(log, x).index, x.phase.out)
  }

  /** One step of the shard on the committed log. */
  ghost predicate Next(cfg: Config, group: u32, log: seq<Batch>, x: Outbox, act: Act, x': Outbox) {
    match act
    case Start =>
      x.phase.Closed? && (x.proofs.TornHeader? ==> x.proofs.bytes < |PROOF_HEADER|) && x' == Started(log, x)
    case Replay(out) =>
      Handled(cfg, log, x, out) && Proven(x.known, log[x.at].index).Some? && x' == Checked(cfg, log, x, out)
    case Apply(out) =>
      && Handled(cfg, log, x, out) && Proven(x.known, log[x.at].index).None?
      && x' == x.(unsynced := BatchBytes(group, Entry(log[x.at].index, out), 0), phase := Written(out),
                  desk := After(cfg, x.desk, log[x.at].commands))
    case Sync =>
      x.phase.Written? && x' == x.(synced := x.synced + x.unsynced, unsynced := [], phase := Synced(x.phase.out))
    case Mark =>
      && x.phase.Synced? && !x.proofs.TornHeader?
      && var p := UnderMark(log, x);
         x' == x.(proofs := Marked(x.proofs, p, |MarkBytes(x.proofs, p)|), done := x.done + [Under(log, x)],
                  at := x.at + 1, phase := Proved)
    case Rotate =>
      && x.phase.Proved?
      && x' == x.(segments := x.segments + [x.synced], synced := HEADER, sealed := |x.done|, phase := Idle)
    case Stay =>
      x.phase.Proved? && x' == x.(phase := Idle)
    case Snap(s) =>
      && x.phase.Idle? && x.at <= |log| && Captures(x.desk, s) && s.raftIndex == LastIndex(log, x.at)
      && x' == x.(snapshot := Some(s))
    case Crash(cut) =>
      && !x.phase.Closed? && cut <= |x.unsynced|
      && x' == x.(synced := x.synced + x.unsynced[..cut], unsynced := [], phase := Closed)
    case CrashInMark(cut) =>
      && x.phase.Synced? && !x.proofs.TornHeader?
      && var p := UnderMark(log, x);
         && cut <= |MarkBytes(x.proofs, p)|
         && x' == x.(proofs := Marked(x.proofs, p, cut), phase := Closed,
                     done := if cut == |MarkBytes(x.proofs, p)| then x.done + [Under(log, x)] else x.done)
    case CrashInRotation(cut) =>
      && x.phase.Proved? && cut <= |HEADER|
      && x' == x.(segments := x.segments + [x.synced], synced := HEADER[..cut], sealed := |x.done|, phase := Closed)
    case CrashInStart(cut) =>
      x.phase.Closed? && x.synced == [] && cut <= |HEADER| && x' == x.(synced := HEADER[..cut])
  }

  /** The record bytes of a list of segment files. */
  function Bodies(files: seq<seq<byte>>): seq<byte> {
    if files == [] then []
    else
      var last := files[|files| - 1];
      Bodies(files[..|files| - 1]) + if |last| < |HEADER| then [] else last[|HEADER|..]
  }

  /** Everything the outbox holds, oldest segment first. */
  function Contents(x: Outbox): seq<byte> {
    Bodies(x.segments + [x.synced + x.unsynced])
  }

  // --- the invariant -------------------------------------------------------------------------------------------

  /** Each marked batch is one of the log, in order. */
  ghost predicate Numbered(log: seq<Batch>, done: seq<Entry>) {
    |done| <= |log| && forall k :: 0 <= k < |done| ==> done[k].index == log[k].index
  }

  /** The proof file: the marks in order up to the first cut, all of them when it is readable. */
  ghost predicate ProofsOk(p: ProofFile, done: seq<Entry>) {
    match p
    case NoFile => done == []
    case TornHeader(n) => n < |PROOF_HEADER| && done == []
    case Proofs(whole, stray) =>
      && |whole| <= |done| && whole == ProofsOf(done[..|whole|])
      && (|stray| < PROOF_LEN ==> |whole| == |done|)
  }

  /** The newest segment is a header, or part of one, and holds nothing. */
  ghost predicate Bare(x: Outbox) {
    |x.synced| <= |HEADER| && x.synced == HEADER[..|x.synced|]
  }

  /** The newest segment while the shard is down: the marked batches, then nothing trimming would keep. */
  ghost predicate Down(group: u32, x: Outbox) {
    x.unsynced == [] && (x.dropped ==> Bare(x) && !Readable(x.proofs)) &&
    (!x.dropped ==>
      || (Bare(x) && x.sealed == |x.done|)
      || (exists tail :: Behind(group, x, tail)))
  }

  ghost predicate Behind(group: u32, x: Outbox, tail: seq<byte>) {
    && x.sealed <= |x.done|
    && x.synced == HEADER + LogBytes(group, x.done[x.sealed..]) + tail
    && Kept(tail, Watermark(ProofsOf(x.done))) == 0
  }

  /** The newest segment and the memory while the shard runs. */
  ghost predicate Up(group: u32, log: seq<Batch>, x: Outbox)
    requires !x.phase.Closed?
  {
    var quiet := x.phase.Idle? || x.phase.Proved?;
    var bytes := if quiet then [] else BatchBytes(group, Under(log, x), 0);
    && !x.dropped && x.sealed <= |x.done| && !x.proofs.TornHeader?
    && MemoryOk(x) && (!quiet ==> x.at < |log|)
    && x.synced == HEADER + LogBytes(group, x.done[x.sealed..]) + (if x.phase.Synced? then bytes else [])
    && x.unsynced == (if x.phase.Written? then bytes else [])
  }

  /** The proofs found are those of the first batches; all of them while some are still to be replayed. */
  ghost predicate MemoryOk(x: Outbox) {
    && x.at <= |x.done| && (!x.phase.Idle? ==> x.at == |x.done|)
    && |x.known| <= |x.done| && x.known == ProofsOf(x.done[..|x.known|])
    && (x.at < |x.done| ==> |x.known| == |x.done|)
  }

  ghost predicate Files(group: u32, log: seq<Batch>, x: Outbox) {
    && Numbered(log, x.done) && x.sealed <= |x.done| && Covered(log, x.snapshot) <= |x.done|
    && Bodies(x.segments) == LogBytes(group, x.done[..x.sealed])
    && ProofsOk(x.proofs, x.done)
    && if x.phase.Closed? then Down(group, x) else Up(group, log, x)
  }

  ghost predicate DesksOk(cfg: Config, x: Outbox) {
    DeskInv(cfg, Basis(x.snapshot)) && (!x.phase.Closed? ==> DeskInv(cfg, x.desk))
  }

  ghost predicate Inv(cfg: Config, group: u32, log: seq<Batch>, x: Outbox) {
    Files(group, log, x) && DesksOk(cfg, x)
  }

  lemma {:induction false} UpToIs(log: seq<Batch>, n: nat)
    requires Ordered(log) && n <= |log|
    ensures UpTo(log, LastIndex(log, n)) == n
    decreases |log|
  {
    if log != [] {
      var front := log[..|log| - 1];
      if n < |log| {
        UpToIs(front, n);
      } else {
        UpToMore(front, log[|log| - 1].index);
      }
    }
  }

  lemma {:induction false} UpToMore(log: seq<Batch>, index: u64)
    requires forall k :: 0 <= k < |log| ==> log[k].index <= index
    ensures UpTo(log, index) == |log|
  {
    if log != [] {
      UpToMore(log[..|log| - 1], index);
    }
  }

  /** The proofs found say which batches were marked. */
  lemma {:induction false} ProvenIs(log: seq<Batch>, done: seq<Entry>, k: nat)
    requires Ordered(log) && Numbered(log, done) && k < |log|
    ensures Proven(ProofsOf(done), log[k].index) ==
              if k < |done| then Some(ProofOf(done[k].index, done[k].out)) else None
    decreases |done|
  {
    hide Fingerprint;
    if done != [] {
      var front := done[..|done| - 1];
      assert ProofsOf(done)[..|done| - 1] == ProofsOf(front);
      ProvenIs(log, front, k);
    }
  }

  lemma NextProven(log: seq<Batch>, x: Outbox)
    requires Ordered(log) && Numbered(log, x.done) && MemoryOk(x) && x.at < |log|
    ensures Proven(x.known, log[x.at].index) ==
              if x.at < |x.done| then Some(ProofOf(x.done[x.at].index, x.done[x.at].out)) else None
  {
    hide ProofsOf, Proven, ProofOf;
    ProvenIs(log, x.done[..|x.known|], x.at);
  }

  lemma {:induction false} WatermarkIs(log: seq<Batch>, done: seq<Entry>)
    requires Ordered(log) && Numbered(log, done)
    ensures Watermark(ProofsOf(done)) == if done == [] then None else Some(done[|done| - 1].index)
  {
    hide Fingerprint;
    if done != [] {
      var front := done[..|done| - 1];
      assert ProofsOf(done)[..|done| - 1] == ProofsOf(front);
      WatermarkIs(log, front);
    }
  }

  lemma {:induction false} LogConcat(group: u32, a: seq<Entry>, b: seq<Entry>)
    ensures LogBytes(group, a + b) == LogBytes(group, a) + LogBytes(group, b)
    decreases |b|
  {
    hide BatchBytes;
    if b == [] {
      assert a + b == a;
    } else {
      var n := |a + b|;
      assert (a + b)[..n - 1] == a + b[..|b| - 1] && (a + b)[n - 1] == b[|b| - 1];
      LogConcat(group, a, b[..|b| - 1]);
    }
  }

  lemma LogNext(group: u32, done: seq<Entry>, r: nat, e: Entry)
    requires r <= |done|
    ensures (done + [e])[..r] == done[..r]
    ensures LogBytes(group, (done + [e])[r..]) == LogBytes(group, done[r..]) + BatchBytes(group, e, 0)
  {
    hide BatchBytes;
    assert (done + [e])[r..] == done[r..] + [e];
    assert (done[r..] + [e])[..|done| - r] == done[r..];
  }

  lemma Regrouped(h: seq<byte>, a: seq<byte>, b: seq<byte>, c: seq<byte>)
    ensures h + (a + c) + [] == h + a + c && h + a + [] == h + a && h + a + b + c == h + a + (b + c)
  {}

  lemma EmptyLog(group: u32, done: seq<Entry>)
    ensures LogBytes(group, done[|done|..]) == [] && done[..|done|] == done
  {}

  lemma KeptEmpty(limit: Option<u64>, body: seq<byte>)
    ensures Kept([], limit) == 0 && Kept(body, None) == 0
  {}

  /** Nothing of the batch under way is kept. */
  lemma UnderDropped(group: u32, log: seq<Batch>, x: Outbox, cut: nat)
    requires Ordered(log) && Numbered(log, x.done) && x.at == |x.done| < |log| && (x.phase.Written? || x.phase.Synced?)
    requires cut <= |BatchBytes(group, Under(log, x), 0)|
    ensures Kept(BatchBytes(group, Under(log, x), 0)[..cut], Watermark(ProofsOf(x.done))) == 0
  {
    hide BatchBytes, Watermark, Kept;
    WatermarkIs(log, x.done);
    KeptNothing(group, Under(log, x), cut, Watermark(ProofsOf(x.done)));
  }

  // --- crashes ---------------------------------------------------------------------------------------------------

  lemma CrashKeeps(cfg: Config, group: u32, log: seq<Batch>, x: Outbox, cut: nat, x': Outbox)
    requires Ordered(log) && Files(group, log, x) && Next(cfg, group, log, x, Crash(cut), x')
    ensures Files(group, log, x')
  {
    hide BatchBytes, LogBytes, Watermark, Bodies, Kept, Marked, ProofsOk, Covered, ProofsOf, Ordered;
    var front := HEADER + LogBytes(group, x.done[x.sealed..]);
    var tail := if x.phase.Written? then x.unsynced[..cut]
                else if x.phase.Synced? then BatchBytes(group, Under(log, x), 0)
                else [];
    if x.phase.Idle? || x.phase.Proved? {
      KeptEmpty(Watermark(ProofsOf(x.done)), []);
    } else {
      var whole := BatchBytes(group, Under(log, x), 0);
      assert whole[..|whole|] == whole;
      UnderDropped(group, log, x, if x.phase.Written? then cut else |whole|);
    }
    assert x'.synced == front + tail;
    assert Behind(group, x', tail);
  }

  /** A mark, whole or cut, leaves a proof file in order. */
  lemma MarkKeepsProofs(log: seq<Batch>, x: Outbox, cut: nat)
    requires ProofsOk(x.proofs, x.done) && x.phase.Synced? && !x.proofs.TornHeader?
    requires cut <= |MarkBytes(x.proofs, UnderMark(log, x))|
    ensures var p := UnderMark(log, x);
            ProofsOk(Marked(x.proofs, p, cut),
                     if cut == |MarkBytes(x.proofs, p)| then x.done + [Under(log, x)] else x.done)
  {
    hide ProofBytes, Fingerprint;
    var done' := x.done + [Under(log, x)];
    if x.proofs.NoFile? {
      assert ProofsOf(done'[..1]) == [UnderMark(log, x)];
      assert done'[..0] == [] && x.done[..0] == [];
    } else {
      var n := |x.proofs.whole|;
      assert done'[..n] == x.done[..n];
      if n == |x.done| {
        assert done'[..n + 1] == done' && ProofsOf(done') == ProofsOf(x.done[..n]) + [UnderMark(log, x)];
      }
    }
  }

  lemma MarkedSegment(group: u32, log: seq<Batch>, x: Outbox)
    requires x.phase.Synced? && Up(group, log, x)
    ensures x.unsynced == []
    ensures (x.done + [Under(log, x)])[..x.sealed] == x.done[..x.sealed]
    ensures x.synced == HEADER + LogBytes(group, (x.done + [Under(log, x)])[x.sealed..]) + []
  {
    hide BatchBytes, LogBytes, MemoryOk;
    LogNext(group, x.done, x.sealed, Under(log, x));
    Regrouped(HEADER, LogBytes(group, x.done[x.sealed..]), [], BatchBytes(group, Under(log, x), 0));
  }

  lemma MarkKeeps(cfg: Config, group: u32, log: seq<Batch>, x: Outbox, x': Outbox)
    requires Ordered(log) && Files(group, log, x) && Next(cfg, group, log, x, Mark, x')
    ensures Files(group, log, x')
  {
    hide BatchBytes, LogBytes, Bodies, Marked, ProofsOk, MarkBytes, Numbered, Under, Covered, Ordered, ProofsOf;
    MarkKeepsProofs(log, x, |MarkBytes(x.proofs, UnderMark(log, x))|);
    MarkedSegment(group, log, x);
    MarkNumbers(log, x);
    MarkedIsWhole(x.proofs, UnderMark(log, x));
    assert x'.done[..|x.known|] == x.done[..|x.known|];
  }

  lemma MarkedIsWhole(p: ProofFile, proof: Proof)
    requires !p.TornHeader?
    ensures !Marked(p, proof, |MarkBytes(p, proof)|).TornHeader?
  {
    hide ProofBytes;
  }

  lemma MarkNumbers(log: seq<Batch>, x: Outbox)
    requires Numbered(log, x.done) && x.phase.Synced? && x.at == |x.done| < |log|
    ensures Numbered(log, x.done + [Under(log, x)])
  {}

  lemma CrashInMarkKeeps(cfg: Config, group: u32, log: seq<Batch>, x: Outbox, cut: nat, x': Outbox)
    requires Ordered(log) && Files(group, log, x) && Next(cfg, group, log, x, CrashInMark(cut), x')
    ensures Files(group, log, x')
  {
    hide BatchBytes, LogBytes, Watermark, Bodies, Kept, Marked, ProofsOk, MarkBytes, Numbered, Covered, Ordered,
      ProofsOf;
    MarkKeepsProofs(log, x, cut);
    LogNext(group, x.done, x.sealed, Under(log, x));
    var whole := BatchBytes(group, Under(log, x), 0);
    if cut == |MarkBytes(x.proofs, UnderMark(log, x))| {
      KeptEmpty(Watermark(ProofsOf(x'.done)), []);
      Regrouped(HEADER, LogBytes(group, x.done[x.sealed..]), [], whole);
      MarkNumbers(log, x);
      assert Behind(group, x', []);
    } else {
      assert whole[..|whole|] == whole;
      UnderDropped(group, log, x, |whole|);
      assert Behind(group, x', whole);
    }
  }

  lemma BodiesLast(files: seq<seq<byte>>, file: seq<byte>)
    ensures Bodies(files + [file]) == Bodies(files) + if |file| < |HEADER| then [] else file[|HEADER|..]
  {
    assert (files + [file])[..|files|] == files;
  }

  lemma SealedBodies(group: u32, log: seq<Batch>, x: Outbox)
    requires Files(group, log, x) && (x.phase.Idle? || x.phase.Proved?)
    ensures Bodies(x.segments + [x.synced]) == LogBytes(group, x.done)
  {
    hide BatchBytes, LogBytes, ProofsOk, Covered, Numbered, MemoryOk;
    BodiesLast(x.segments, x.synced);
    assert x.synced[|HEADER|..] == LogBytes(group, x.done[x.sealed..]);
    LogConcat(group, x.done[..x.sealed], x.done[x.sealed..]);
    assert x.done[..x.sealed] + x.done[x.sealed..] == x.done;
  }

  lemma RotateKeeps(cfg: Config, group: u32, log: seq<Batch>, x: Outbox, act: Act, x': Outbox)
    requires Files(group, log, x) && Next(cfg, group, log, x, act, x') && (act.Rotate? || act.CrashInRotation?)
    ensures Files(group, log, x')
  {
    hide BatchBytes, LogBytes, Bodies, Marked, ProofsOk, Covered, Numbered, ProofsOf;
    SealedBodies(group, log, x);
    EmptyLog(group, x.done);
    if act.Rotate? {
      assert HEADER + [] + [] == HEADER;
    } else {
      assert Bare(x');
    }
  }

  // --- starts and replays ---------------------------------------------------------------------------------------

  lemma ProofsAreDistinct(log: seq<Batch>, p: ProofFile, done: seq<Entry>)
    requires Ordered(log) && Numbered(log, done) && ProofsOk(p, done) && p.Proofs?
    ensures DistinctProofs(p.whole)
  {
    hide Fingerprint;
  }

  /** The proofs are read exactly when the file is readable, and then they are those of all marked batches. */
  lemma ProofsLoad(log: seq<Batch>, x: Outbox)
    requires Ordered(log) && Numbered(log, x.done) && ProofsOk(x.proofs, x.done) && !Misread(x.proofs)
    ensures Loaded(FileBytes(x.proofs)) == if Readable(x.proofs) then Some(ProofsOf(x.done)) else None
  {
    hide Loaded, FileBytes, ProofOf;
    if x.proofs.Proofs? {
      ProofsAreDistinct(log, x.proofs, x.done);
    }
    LoadedExact(x.proofs);
    if x.proofs.Proofs? {
      assert x.done[..|x.done|] == x.done;
    }
  }

  /** Trimming at the watermark leaves exactly the marked batches. */
  lemma BehindTrims(group: u32, log: seq<Batch>, x: Outbox, tail: seq<byte>)
    requires Ordered(log) && Numbered(log, x.done) && Behind(group, x, tail)
    ensures var file := HEADER + LogBytes(group, x.done[x.sealed..]);
            Trim(x.synced, Watermark(ProofsOf(x.done))) == Trimmed(file) && OpenSegment(file) == Some(file)
  {
    hide BatchBytes, LogBytes, Kept, Watermark, ProofsOf, Ordered, Numbered;
    var kept := LogBytes(group, x.done[x.sealed..]);
    KeptMarked(group, log, x.done, x.sealed, tail);
    Slices(HEADER, kept, tail);
    Slices(HEADER, kept, []);
    assert HEADER + kept + [] == HEADER + kept;
  }

  lemma KeptMarked(group: u32, log: seq<Batch>, done: seq<Entry>, r: nat, tail: seq<byte>)
    requires Ordered(log) && Numbered(log, done) && r <= |done| && Kept(tail, Watermark(ProofsOf(done))) == 0
    ensures var kept := LogBytes(group, done[r..]); Kept(kept + tail, Watermark(ProofsOf(done))) == |kept|
  {
    hide BatchBytes, LogBytes, Kept, Watermark, Numbered, ProofsOf, Ordered;
    WatermarkIs(log, done);
    if r == |done| {
      EmptyLog(group, done);
      NothingInFront(tail);
    } else {
      MarkedBelow(log, done, r);
      KeptLog(group, done[r..], tail, done[|done| - 1].index);
    }
  }

  lemma NothingInFront(tail: seq<byte>)
    ensures [] + tail == tail
  {}

  lemma MarkedBelow(log: seq<Batch>, done: seq<Entry>, r: nat)
    requires Ordered(log) && Numbered(log, done) && r < |done|
    ensures forall k :: 0 <= k < |done[r..]| ==> done[r..][k].index <= done[|done| - 1].index
  {
    forall k | 0 <= k < |done[r..]| ensures done[r..][k].index <= done[|done| - 1].index {
      assert done[r..][k] == done[r + k];
    }
  }

  lemma Slices(h: seq<byte>, a: seq<byte>, b: seq<byte>)
    ensures var s := h + a + b; s[..|h|] == h && s[|h|..] == a + b && s[..|h| + |a|] == h + a
  {}

  lemma BareTrims(x: Outbox, limit: Option<u64>)
    requires Bare(x)
    ensures Trim(x.synced, limit) == Trimmed(x.synced)
    ensures OpenSegment(x.synced) == if 0 < |x.synced| < |HEADER| then None else Some(HEADER)
  {
    HeaderReopens(|x.synced|);
    if |x.synced| == |HEADER| {
      KeptEmpty(limit, []);
      assert x.synced[|HEADER|..] == [];
    }
  }

  /** Without a watermark nothing but the header is left. */
  lemma TrimToNothing(group: u32, x: Outbox, tail: seq<byte>)
    requires Behind(group, x, tail)
    ensures Trim(x.synced, None) == Trimmed(HEADER) && OpenSegment(HEADER) == Some(HEADER)
  {
    hide LogBytes, Watermark, ProofsOf;
    KeptEmpty(None, x.synced[|HEADER|..]);
    assert x.synced[..|HEADER|] == HEADER;
  }

  /** The newest segment cannot be opened: part of its header is missing. */
  predicate HeaderTorn(x: Outbox) {
    0 < |x.synced| < |HEADER|
  }

  /** What a start makes of a shard that is down. */
  lemma Starts(group: u32, log: seq<Batch>, x: Outbox)
    requires Ordered(log) && Files(group, log, x) && x.phase.Closed? && !Misread(x.proofs)
    ensures var y := Started(log, x);
            if HeaderTorn(x) then y == x
            else if !Readable(x.proofs) then y == x.(synced := HEADER, dropped := true)
            else
              && !x.dropped
              && y == x.(synced := HEADER + LogBytes(group, x.done[x.sealed..]), phase := Idle,
                         desk := Basis(x.snapshot), at := Covered(log, x.snapshot), known := ProofsOf(x.done))
  {
    hide LogBytes, Watermark, ProofsOf, Trim, OpenSegment, Loaded, Numbered, ProofsOk, Readable, Covered, Ordered;
    TornIsShort(x.proofs, x.done);
    ProofsLoad(log, x);
    var limit := if Readable(x.proofs) then Watermark(ProofsOf(x.done)) else None;
    if Bare(x) {
      BareTrims(x, limit);
      EmptyLog(group, x.done);
      assert HEADER + [] == HEADER;
    } else {
      var tail :| Behind(group, x, tail);
      BehindTrims(group, log, x, tail);
      TrimToNothing(group, x, tail);
    }
  }

  lemma TornIsShort(p: ProofFile, done: seq<Entry>)
    requires ProofsOk(p, done)
    ensures p.TornHeader? ==> p.bytes < |PROOF_HEADER|
  {}

  lemma StartKeeps(cfg: Config, group: u32, log: seq<Batch>, x: Outbox, x': Outbox)
    requires Ordered(log) && Files(group, log, x) && Next(cfg, group, log, x, Start, x') && !Misread(x.proofs)
    ensures Files(group, log, x')
  {
    hide LogBytes, Watermark, ProofsOf, Started, Numbered, ProofsOk, Bodies, Kept, Covered, Ordered;
    Starts(group, log, x);
    if Readable(x.proofs) && !HeaderTorn(x) {
      ReadableIsWhole(x.proofs);
      var file := LogBytes(group, x.done[x.sealed..]);
      assert HEADER + file == HEADER + file + [];
      assert x.done[..|x.done|] == x.done;
      KnownAll(x.done);
    } else {
      assert HeaderTorn(x) || Bare(x');
    }
  }

  lemma KnownAll(done: seq<Entry>)
    ensures |ProofsOf(done)| == |done|
  {}

  lemma ReadableIsWhole(p: ProofFile)
    requires Readable(p)
    ensures !p.TornHeader?
  {}

  /** A replay goes on to the next batch, or leaves a file that a start takes up again. */
  lemma ReplayKeeps(cfg: Config, group: u32, log: seq<Batch>, x: Outbox, out: seq<ExecReport>, x': Outbox)
    requires Ordered(log) && Files(group, log, x) && Next(cfg, group, log, x, Replay(out), x')
    ensures Files(group, log, x')
  {
    hide LogBytes, Watermark, ProofsOf, Numbered, ProofsOk, Bodies, Kept, Covered, Ordered, Takes, Renders, Tell, After,
      Passes, Proven, Handled;
    HandledIs(cfg, log, x, out);
    NextProven(log, x);
    KeptEmpty(Watermark(ProofsOf(x.done)), []);
    assert x'.phase.Closed? ==> Behind(group, x', []);
  }

  lemma HandledIs(cfg: Config, log: seq<Batch>, x: Outbox, out: seq<ExecReport>)
    requires Handled(cfg, log, x, out)
    ensures x.phase.Idle? && x.at < |log| && Takes(cfg, x.desk, log[x.at].commands)
  {
    hide Takes, Renders;
  }

  lemma ApplyKeeps(cfg: Config, group: u32, log: seq<Batch>, x: Outbox, out: seq<ExecReport>, x': Outbox)
    requires Ordered(log) && Files(group, log, x) && Next(cfg, group, log, x, Apply(out), x')
    ensures Files(group, log, x')
  {
    hide LogBytes, BatchBytes, ProofsOf, Numbered, ProofsOk, Bodies, Covered, Ordered, Takes, Renders, Tell, After,
      Proven, Handled;
    HandledIs(cfg, log, x, out);
    NextProven(log, x);
  }

  lemma SnapKeeps(cfg: Config, group: u32, log: seq<Batch>, x: Outbox, s: Snapshot, x': Outbox)
    requires Ordered(log) && Files(group, log, x) && Next(cfg, group, log, x, Snap(s), x')
    ensures Files(group, log, x')
  {
    hide LogBytes, BatchBytes, ProofsOf, Numbered, ProofsOk, Bodies, Ordered, Captures, UpTo, LastIndex;
    UpToIs(log, x.at);
  }

  lemma StepKeeps(cfg: Config, group: u32, log: seq<Batch>, x: Outbox, act: Act, x': Outbox)
    requires Files(group, log, x) && Next(cfg, group, log, x, act, x')
    requires act.Sync? || act.Stay? || act.CrashInStart?
    ensures Files(group, log, x')
  {
    hide LogBytes, BatchBytes, Watermark, ProofsOf, Numbered, ProofsOk, Bodies, Kept, Covered;
    match act
    case Sync =>
    case Stay =>
    case CrashInStart(cut) =>
      assert Bare(x');
  }

  lemma FilesKeep(cfg: Config, group: u32, log: seq<Batch>, x: Outbox, act: Act, x': Outbox)
    requires Ordered(log) && Files(group, log, x) && Next(cfg, group, log, x, act, x') && !Misread(x.proofs)
    ensures Files(group, log, x')
  {
    hide Files, Next, Misread, Ordered;
    match act
    case Start => StartKeeps(cfg, group, log, x, x');
    case Replay(out) => ReplayKeeps(cfg, group, log, x, out, x');
    case Apply(out) => ApplyKeeps(cfg, group, log, x, out, x');
    case Mark => MarkKeeps(cfg, group, log, x, x');
    case Rotate => RotateKeeps(cfg, group, log, x, act, x');
    case Snap(s) => SnapKeeps(cfg, group, log, x, s, x');
    case Crash(cut) => CrashKeeps(cfg, group, log, x, cut, x');
    case CrashInMark(cut) => CrashInMarkKeeps(cfg, group, log, x, cut, x');
    case CrashInRotation(cut) => RotateKeeps(cfg, group, log, x, act, x');
    case _ => StepKeeps(cfg, group, log, x, act, x');
  }

  lemma DesksKeep(cfg: Config, group: u32, log: seq<Batch>, x: Outbox, act: Act, x': Outbox)
    requires DesksOk(cfg, x) && Next(cfg, group, log, x, act, x')
    ensures DesksOk(cfg, x')
  {
    hide DeskInv, Takes, Tell, After, Renders, Captures, Restored, Loaded, FileBytes, Trim, OpenSegment, Marked,
      MarkBytes, BatchBytes, UpTo, Proven, Passes;
    if act.Replay? || act.Apply? {
      AfterKeeps(cfg, x.desk, log[x.at].commands);
    }
    if act.Snap? {
      RestoredIsAlike(cfg, x.desk, act.snapshot);
    }
  }

  /** Every step keeps the invariant; rotation alone moves the sealed boundary, and only to the watermark. */
  lemma NextKeeps(cfg: Config, group: u32, log: seq<Batch>, x: Outbox, act: Act, x': Outbox)
    requires Ordered(log) && Inv(cfg, group, log, x) && Next(cfg, group, log, x, act, x') && !Misread(x.proofs)
    ensures Inv(cfg, group, log, x')
  {
    hide Files, DesksOk, Next, Misread, Ordered;
    FilesKeep(cfg, group, log, x, act, x');
    DesksKeep(cfg, group, log, x, act, x');
  }

  // --- whole runs --------------------------------------------------------------------------------

  /** No file yet, and the shard not started. */
  const NEW_OUTBOX: Outbox := Outbox([], [], [], NoFile, None, Closed, NEW_DESK, 0, [], [], 0, false)

  ghost predicate Run(cfg: Config, group: u32, log: seq<Batch>, acts: seq<Act>, states: seq<Outbox>) {
    && Replayable(cfg) && Ordered(log)
    && |states| == |acts| + 1 && states[0] == NEW_OUTBOX
    && (forall k :: 0 <= k < |acts| ==> Next(cfg, group, log, states[k], acts[k], states[k + 1]))
  }

  /** No state has bytes across a cut proof that pass for a proof. */
  ghost predicate NeverMisread(states: seq<Outbox>) {
    forall k :: 0 <= k < |states| ==> !Misread(states[k].proofs)
  }

  lemma NewInv(cfg: Config, group: u32, log: seq<Batch>)
    ensures Inv(cfg, group, log, NEW_OUTBOX)
  {
    assert Bare(NEW_OUTBOX);
  }

  lemma {:induction false} RunInv(
    cfg: Config, group: u32, log: seq<Batch>, acts: seq<Act>, states: seq<Outbox>, k: nat)
    requires Run(cfg, group, log, acts, states) && NeverMisread(states) && k < |states|
    ensures Inv(cfg, group, log, states[k])
    decreases k
  {
    hide Inv, Next, Misread, Ordered, Replayable;
    if k == 0 {
      NewInv(cfg, group, log);
    } else {
      RunInv(cfg, group, log, acts, states, k - 1);
      NextKeeps(cfg, group, log, states[k - 1], acts[k - 1], states[k]);
    }
  }

  /** The reports came from a step that applied batch `m` to the desk the shard then had. */
  ghost predicate AppliedBefore(acts: seq<Act>, states: seq<Outbox>, k: nat, m: nat, out: seq<ExecReport>)
    requires k < |states| == |acts| + 1
  {
    exists j :: 0 <= j < k && acts[j] == Apply(out) && states[j].at == m
  }

  lemma {:induction false} MarkedWasApplied(
    cfg: Config, group: u32, log: seq<Batch>, acts: seq<Act>, states: seq<Outbox>, k: nat)
    requires Run(cfg, group, log, acts, states) && NeverMisread(states) && k < |states|
    ensures forall m :: 0 <= m < |states[k].done| ==> AppliedBefore(acts, states, k, m, states[k].done[m].out)
    ensures var x := states[k];
            x.phase.Written? || x.phase.Synced? ==> AppliedBefore(acts, states, k, x.at, x.phase.out)
    decreases k
  {
    hide Files, DesksOk, Next, Misread, Ordered, Replayable, AppliedBefore;
    if k > 0 {
      MarkedWasApplied(cfg, group, log, acts, states, k - 1);
      RunInv(cfg, group, log, acts, states, k - 1);
      var x, x' := states[k - 1], states[k];
      UnderIsNext(group, log, x);
      ReportsStep(cfg, group, log, x, acts[k - 1], x');
      if acts[k - 1].Apply? {
        AppliedNow(acts, states, k - 1);
      }
      forall m, out | AppliedBefore(acts, states, k - 1, m, out) ensures AppliedBefore(acts, states, k, m, out) {
        StillBefore(acts, states, k - 1, m, out);
      }
      forall m | 0 <= m < |x'.done| ensures AppliedBefore(acts, states, k, m, x'.done[m].out) {
        assert m < |x.done| ==> x'.done[m] == x.done[m];
      }
    }
  }

  lemma AppliedNow(acts: seq<Act>, states: seq<Outbox>, k: nat)
    requires k < |acts| && |states| == |acts| + 1 && acts[k].Apply?
    ensures AppliedBefore(acts, states, k + 1, states[k].at, acts[k].out)
  {}

  lemma StillBefore(acts: seq<Act>, states: seq<Outbox>, k: nat, m: nat, out: seq<ExecReport>)
    requires k < |acts| && |states| == |acts| + 1 && AppliedBefore(acts, states, k, m, out)
    ensures AppliedBefore(acts, states, k + 1, m, out)
  {}

  /** Reports are set by an apply, kept by a sync and noted by a mark. */
  lemma ReportsStep(cfg: Config, group: u32, log: seq<Batch>, x: Outbox, act: Act, x': Outbox)
    requires Next(cfg, group, log, x, act, x')
    ensures x'.done == x.done || (x.phase.Synced? && x'.done == x.done + [Under(log, x)])
    ensures x'.phase.Written? || x'.phase.Synced? ==>
              || (act == Apply(x'.phase.out) && x'.at == x.at)
              || ((x.phase.Written? || x.phase.Synced?) && x'.phase.out == x.phase.out && x'.at == x.at)
  {
    hide Started, Handled, Takes, After, Captures, Marked, MarkBytes, BatchBytes, Proven, Passes;
    StartedDone(log, x);
    if act.Replay? {
      HandledIs(cfg, log, x, act.out);
    }
  }

  lemma StartedDone(log: seq<Batch>, x: Outbox)
    ensures (x.proofs.TornHeader? ==> x.proofs.bytes < |PROOF_HEADER|) && x.phase.Closed? ==>
              Started(log, x).done == x.done && (Started(log, x).phase.Closed? || Started(log, x).phase.Idle?)
  {
    hide Loaded, FileBytes, Trim, OpenSegment, Covered, Watermark, Basis;
  }

  lemma UnderIsNext(group: u32, log: seq<Batch>, x: Outbox)
    requires Files(group, log, x)
    ensures x.phase.Written? || x.phase.Synced? ==> x.at == |x.done| < |log|
  {
    hide LogBytes, BatchBytes, ProofsOf, Numbered, ProofsOk, Bodies, Covered, Down;
  }

  /**
   Over every run of applies, syncs, marks, rotations, snapshots, crashes (also inside a mark, a
   rotation, a replay or a first start) and restarts: whenever the shard is between batches the
   outbox across all segments is exactly the records of the marked batches, in order and once each,
   every batch with the reports it gave when it was applied.
   */
  lemma ExactlyOnce(cfg: Config, group: u32, log: seq<Batch>, acts: seq<Act>, states: seq<Outbox>, k: nat)
    requires Run(cfg, group, log, acts, states) && NeverMisread(states) && k < |states| && states[k].phase.Idle?
    ensures Numbered(log, states[k].done) && Contents(states[k]) == LogBytes(group, states[k].done)
    ensures forall m :: 0 <= m < |states[k].done| ==> AppliedBefore(acts, states, k, m, states[k].done[m].out)
  {
    hide Run, NeverMisread, LogBytes, Bodies, Numbered, ProofsOk, Covered, DesksOk, MemoryOk, AppliedBefore;
    RunInv(cfg, group, log, acts, states, k);
    MarkedWasApplied(cfg, group, log, acts, states, k);
    var x := states[k];
    SealedBodies(group, log, x);
    assert x.synced + x.unsynced == x.synced;
  }

  // --- when a shard can start --------------------------------------------------------------------

  /** The crash cut a segment header. */
  predicate TearsHeader(act: Act) {
    (act.CrashInRotation? || act.CrashInStart?) && 0 < act.cut < |HEADER|
  }

  /** The crash cut the header of the proof file, or a proof was written behind a cut one. */
  predicate SpoilsProofs(x: Outbox, act: Act) {
    || (x.proofs.NoFile? && act.CrashInMark? && act.cut < |PROOF_HEADER|)
    || (x.proofs.Proofs? && x.proofs.stray != [] && act.Mark?)
    || (x.proofs.Proofs? && x.proofs.stray != [] && act.CrashInMark? && |x.proofs.stray| + act.cut >= PROOF_LEN)
  }

  lemma HeaderStep(cfg: Config, group: u32, log: seq<Batch>, x: Outbox, act: Act, x': Outbox)
    requires Ordered(log) && Files(group, log, x) && Files(group, log, x') && Next(cfg, group, log, x, act, x')
             && !Misread(x.proofs)
    ensures HeaderTorn(x') <==> HeaderTorn(x) || TearsHeader(act)
  {
    hide LogBytes, BatchBytes, ProofsOf, Started, Numbered, ProofsOk, Bodies, Kept, Marked, Under, Behind, Covered,
      Ordered, MemoryOk, Handled, Takes, After, Captures, Proven, Passes;
    if act.Start? {
      Starts(group, log, x);
    }
  }

  lemma ProofsStep(cfg: Config, group: u32, log: seq<Batch>, x: Outbox, act: Act, x': Outbox)
    requires Next(cfg, group, log, x, act, x')
    ensures !Readable(x'.proofs) <==> !Readable(x.proofs) || SpoilsProofs(x, act)
  {
    hide LogBytes, BatchBytes, ProofBytes, Loaded, FileBytes, Trim, OpenSegment, Under, ProofOf, Handled, Takes, After,
      Captures, Proven, Passes, Covered, Basis;
  }

  lemma {:induction false} SpoiledWhen(
    cfg: Config, group: u32, log: seq<Batch>, acts: seq<Act>, states: seq<Outbox>, k: nat)
    requires Run(cfg, group, log, acts, states) && NeverMisread(states) && k < |states|
    ensures HeaderTorn(states[k]) <==> exists j :: 0 <= j < k && TearsHeader(acts[j])
    ensures !Readable(states[k].proofs) <==> exists j :: 0 <= j < k && SpoilsProofs(states[j], acts[j])
    decreases k
  {
    hide Files, DesksOk, Next, Misread, TearsHeader, SpoilsProofs, Ordered, Replayable;
    if k > 0 {
      RunInv(cfg, group, log, acts, states, k - 1);
      RunInv(cfg, group, log, acts, states, k);
      SpoiledWhen(cfg, group, log, acts, states, k - 1);
      HeaderStep(cfg, group, log, states[k - 1], acts[k - 1], states[k]);
      ProofsStep(cfg, group, log, states[k - 1], acts[k - 1], states[k]);
      if TearsHeader(acts[k - 1]) || HeaderTorn(states[k - 1]) {
        assert exists j :: 0 <= j < k && TearsHeader(acts[j]);
      }
      if SpoilsProofs(states[k - 1], acts[k - 1]) || !Readable(states[k - 1].proofs) {
        assert exists j :: 0 <= j < k && SpoilsProofs(states[j], acts[j]);
      }
    }
  }

  // --- building runs --------------------------------------------------------------------------------

  /** No crash cut a header and no proof was spoilt. */
  ghost predicate Clean(acts: seq<Act>, states: seq<Outbox>) {
    |states| == |acts| + 1
    && forall j :: 0 <= j < |acts| ==> !TearsHeader(acts[j]) && !SpoilsProofs(states[j], acts[j])
  }

  ghost predicate GoodRun(cfg: Config, group: u32, log: seq<Batch>, acts: seq<Act>, states: seq<Outbox>) {
    Run(cfg, group, log, acts, states) && NeverMisread(states)
  }

  /** A run one step longer. */
  lemma RunMore(
    cfg: Config, group: u32, log: seq<Batch>, acts: seq<Act>, states: seq<Outbox>, act: Act, x: Outbox)
    requires GoodRun(cfg, group, log, acts, states) && Next(cfg, group, log, states[|acts|], act, x)
    requires !Misread(x.proofs)
    ensures GoodRun(cfg, group, log, acts + [act], states + [x])
    ensures Clean(acts, states) && !TearsHeader(act) && !SpoilsProofs(states[|acts|], act) ==>
              Clean(acts + [act], states + [x])
  {
    hide Next, Misread, Ordered, Replayable, TearsHeader, SpoilsProofs;
    var acts', states' := acts + [act], states + [x];
    forall k | 0 <= k < |acts'| ensures Next(cfg, group, log, states'[k], acts'[k], states'[k + 1]) {
      assert k < |acts| ==> states'[k] == states[k] && acts'[k] == acts[k] && states'[k + 1] == states[k + 1];
    }
    assert forall k :: 0 <= k < |acts| ==> states'[k] == states[k] && acts'[k] == acts[k];
  }

  lemma RunLength(cfg: Config, group: u32, log: seq<Batch>, acts: seq<Act>, states: seq<Outbox>)
    requires GoodRun(cfg, group, log, acts, states)
    ensures |states| == |acts| + 1
  {
    hide Next, Ordered, Replayable;
  }

  lemma RunIsFine(cfg: Config, group: u32, log: seq<Batch>, acts: seq<Act>, states: seq<Outbox>)
    requires GoodRun(cfg, group, log, acts, states)
    ensures |states| == |acts| + 1 && !Misread(states[|acts|].proofs) && Ordered(log) && Lawful(cfg.setup.strategy)
    ensures Files(group, log, states[|acts|]) && DesksOk(cfg, states[|acts|])
  {
    hide Next, Misread, Ordered, Files, DesksOk, Lawful;
    RunInv(cfg, group, log, acts, states, |acts|);
  }

  lemma IdleIs(group: u32, log: seq<Batch>, x: Outbox)
    requires Files(group, log, x) && x.phase.Idle?
    ensures x.unsynced == [] && !x.proofs.TornHeader? && Numbered(log, x.done) && MemoryOk(x)
  {
    hide LogBytes, Bodies, Numbered, ProofsOk, MemoryOk, Covered;
  }

  lemma TellsHandled(cfg: Config, log: seq<Batch>, x: Outbox, out: seq<ExecReport>)
    requires x.phase.Idle? && x.at < |log| && Takes(cfg, x.desk, log[x.at].commands)
    requires Renders(Tell(cfg, x.desk, log[x.at].commands), out)
    ensures Handled(cfg, log, x, out)
  {}

  // --- what is left on disk -------------------------------------------------------------------------

  /** A start that could not read the proofs has emptied the newest segment: only sealed batches are left. */
  lemma DroppedContents(group: u32, log: seq<Batch>, x: Outbox)
    requires Files(group, log, x) && x.dropped
    ensures x.phase.Closed? && Contents(x) == LogBytes(group, x.done[..x.sealed])
  {
    hide LogBytes, BatchBytes, Bodies, Numbered, ProofsOk, Covered, MemoryOk;
    BodiesLast(x.segments, x.synced);
    assert x.synced + x.unsynced == x.synced;
    assert |x.synced| == |HEADER| ==> x.synced[|HEADER|..] == [];
  }

  /** Sealed segments never need a trim: trimming one at the watermark changes nothing. */
  lemma OnlyNewestIsTrimmed(group: u32, log: seq<Batch>, x: Outbox)
    requires Ordered(log) && Files(group, log, x)
    ensures Kept(Bodies(x.segments), Watermark(ProofsOf(x.done))) == |Bodies(x.segments)|
  {
    hide LogBytes, Watermark, Bodies, Kept, ProofsOf, Numbered, Ordered, ProofsOk, Up, Down, Covered;
    FrontStays(group, log, x.done, x.sealed);
  }

  lemma FrontStays(group: u32, log: seq<Batch>, done: seq<Entry>, r: nat)
    requires Ordered(log) && Numbered(log, done) && r <= |done|
    ensures Kept(LogBytes(group, done[..r]), Watermark(ProofsOf(done))) == |LogBytes(group, done[..r])|
  {
    hide LogBytes, Watermark, Kept, ProofsOf, Numbered, Ordered;
    WatermarkIs(log, done);
    if r > 0 {
      FrontBelow(log, done, r);
      KeptWhole(group, done[..r], done[|done| - 1].index);
    } else {
      EmptyFront(group, done);
      KeptEmpty(Watermark(ProofsOf(done)), []);
    }
  }

  lemma KeptWhole(group: u32, done: seq<Entry>, limit: u64)
    requires forall k :: 0 <= k < |done| ==> done[k].index <= limit
    ensures Kept(LogBytes(group, done), Some(limit)) == |LogBytes(group, done)|
  {
    hide LogBytes, Kept;
    assert LogBytes(group, done) + [] == LogBytes(group, done);
    KeptEmpty(Some(limit), []);
    KeptLog(group, done, [], limit);
  }

  lemma FrontBelow(log: seq<Batch>, done: seq<Entry>, r: nat)
    requires Ordered(log) && Numbered(log, done) && 0 < r <= |done|
    ensures forall k :: 0 <= k < r ==> done[..r][k].index <= done[|done| - 1].index
  {}

  lemma EmptyFront(group: u32, done: seq<Entry>)
    ensures LogBytes(group, done[..0]) == []
  {}
}
