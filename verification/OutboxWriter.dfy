/** The outbox writer, on an object. */
module OutboxWriters {
  import opened Types
  import opened Strategies
  import opened Bytes
  import opened Processing
  import opened Desks
  import opened Renderings
  import opened ReportFrames
  import opened Proofs
  import opened Outboxes
  import opened Batches
  import opened OutboxRuns
  import opened Processors

  /** Machine limits hold for every command of the batch on the way. */
  ghost predicate CanTake(cfg: Config, d: Desk, cmds: seq<Command>)
    requires Takes(cfg, d, cmds)
    decreases |cmds|
  {
    cmds != [] ==>
      && CanHandle(cfg, d, Input(cmds[0], 0))
      && (TakesFirst(cfg, d, cmds); CanTake(cfg, Processing.Process(cfg, d, Input(cmds[0], 0)).0, cmds[1..]))
  }

  lemma HandledIsProcessed(cfg: Config, d: Desk, input: Input)
    requires CanHandle(cfg, d, input)
    ensures DeskSound(d) && Processors.Handled(cfg, d, input) == Processing.Process(cfg, d, input)
  {
    hide Processing.Process, DeskSound, Processing.Fits, CanPerform;
  }

  /** Process the commands one after the other and collect their reports. */
  method ProcessAll(p: Processor, cmds: seq<Command>) returns (out: seq<ExecReport>)
    requires p.Valid() && Takes(p.cfg, p.State(), cmds) && CanTake(p.cfg, p.State(), cmds)
    modifies p, p.repr
    ensures p.Valid() && fresh(p.repr - old(p.repr))
    ensures p.State() == After(p.cfg, old(p.State()), cmds) && Renders(Tell(p.cfg, old(p.State()), cmds), out)
  {
    hide Processor.Valid, Processor.State, Takes, Tell, After, CanHandle, Processors.Handled, Processing.Process,
      DeskSound, Processing.Fits, Renders, Lawful, DeskInv;
    ghost var d := p.State();
    ghost var told: seq<Emission> := [];
    out := [];
    RendersNothing(told, out);
    assert cmds[0..] == cmds && told + Tell(p.cfg, d, cmds) == Tell(p.cfg, d, cmds);
    for k := 0 to |cmds|
      invariant p.Valid() && fresh(p.repr - old(p.repr))
      invariant Takes(p.cfg, p.State(), cmds[k..]) && CanTake(p.cfg, p.State(), cmds[k..])
      invariant Renders(told, out) && Tell(p.cfg, d, cmds) == told + Tell(p.cfg, p.State(), cmds[k..])
      invariant After(p.cfg, d, cmds) == After(p.cfg, p.State(), cmds[k..])
    {
      ghost var rest := cmds[k..];
      assert rest[0] == cmds[k] && rest[1..] == cmds[k + 1..];
      TakesFirst(p.cfg, p.State(), rest);
      LawfulIs(p.cfg, p.State(), rest);
      HandledIsProcessed(p.cfg, p.State(), Input(cmds[k], 0));
      ghost var now := Processing.Process(p.cfg, p.State(), Input(cmds[k], 0)).1;
      var reports := p.Process(Input(cmds[k], 0));
      RendersConcat(told, now, out, reports);
      InOrder(told, now, Tell(p.cfg, p.State(), cmds[k + 1..]));
      told, out := told + now, out + reports;
    }
    assert cmds[|cmds|..] == [];
    NothingTold(p.cfg, p.State());
    assert told + [] == told;
  }

  lemma RendersNothing(told: seq<Emission>, out: seq<ExecReport>)
    requires told == [] && out == []
    ensures Renders(told, out)
  {}

  lemma InOrder(a: seq<Emission>, b: seq<Emission>, c: seq<Emission>)
    ensures a + (b + c) == a + b + c
  {}

  /** Appends records to the newest segment and rotates to a new one when it has grown. */
  class OutboxWriter {
    const group: u32
    const rotateBytes: Option<nat>
    var segments: seq<seq<byte>>
    var synced: seq<byte>
    var unsynced: seq<byte>
    var segmentBytes: nat
    var proofFile: Option<seq<byte>>

    ghost predicate Valid()
      reads this
    {
      segmentBytes == |synced| + |unsynced|
    }

    /** The files are those of the protocol state. */
    ghost predicate Holds(x: Outbox)
      requires x.proofs.TornHeader? ==> x.proofs.bytes < |PROOF_HEADER|
      reads this
    {
      segments == x.segments && synced == x.synced && unsynced == x.unsynced && proofFile == FileBytes(x.proofs)
    }

    constructor (group: u32, rotateBytes: Option<nat>, segments: seq<seq<byte>>, newest: seq<byte>,
                 proofFile: Option<seq<byte>>)
      ensures Valid() && this.group == group && this.rotateBytes == rotateBytes
      ensures this.segments == segments && synced == newest && unsynced == [] && this.proofFile == proofFile
    {
      this.group, this.rotateBytes, this.segments := group, rotateBytes, segments;
      synced, unsynced, segmentBytes, this.proofFile := newest, [], |newest|, proofFile;
    }

    method AppendDeferred(index: u64, ordinal: u32, frame: Frame)
      requires Valid()
      modifies this
      ensures Valid() && proofFile == old(proofFile) && segments == old(segments) && synced == old(synced)
      ensures unsynced == old(unsynced) + RecordBytes(group, index, ordinal, frame)
    {
      unsynced := unsynced + RecordBytes(group, index, ordinal, frame);
      segmentBytes := segmentBytes + RECORD_LEN;
    }

    method SyncData()
      requires Valid()
      modifies this
      ensures Valid() && proofFile == old(proofFile) && segments == old(segments) && synced == old(synced + unsynced)
              && unsynced == []
    {
      synced, unsynced := synced + unsynced, [];
    }

    /** Seal the segment once it reached its size; what is buffered is made durable first. */
    method MaybeRotate() returns (rotated: bool)
      requires Valid()
      modifies this
      ensures Valid() && proofFile == old(proofFile)
      ensures rotated <==> rotateBytes.Some? && old(|synced| + |unsynced|) >= rotateBytes.value
      ensures rotated ==> segments == old(segments + [synced + unsynced]) && synced == HEADER && unsynced == []
      ensures !rotated ==> segments == old(segments) && synced == old(synced) && unsynced == old(unsynced)
    {
      if rotateBytes.None? || segmentBytes < rotateBytes.value {
        return false;
      }
      if unsynced != [] {
        SyncData();
      }
      assert synced == old(synced + unsynced);
      segments, synced, unsynced := segments + [synced], HEADER, [];
      segmentBytes := |HEADER|;
      return true;
    }

    /** Append every report of a batch, without a durability barrier. */
    method RecordBatch(b: Entry)
      requires Valid()
      modifies this
      ensures Valid() && proofFile == old(proofFile) && segments == old(segments) && synced == old(synced)
      ensures unsynced == old(unsynced) + BatchBytes(group, b, 0)
    {
      hide RecordBytes, BatchBytes, FrameOf;
      for k := 0 to |b.out|
        invariant Valid() && proofFile == old(proofFile) && segments == old(segments) && synced == old(synced)
        invariant unsynced + BatchBytes(group, b, k) == old(unsynced) + BatchBytes(group, b, 0)
      {
        BatchStep(group, b, k, unsynced);
        AppendDeferred(b.index, Ordinal(k), FrameOf(b.out[k]));
      }
      BatchEnd(group, b, unsynced);
    }

    /** Append a proof to the proof file, with a header in front of the first, and sync it. */
    method MarkApplied(p: Proof)
      requires Valid()
      modifies this
      ensures Valid() && segments == old(segments) && synced == old(synced) && unsynced == old(unsynced)
      ensures proofFile == Some((if old(proofFile).None? then PROOF_HEADER else old(proofFile).value) + ProofBytes(p))
    {
      var file := if proofFile.None? then PROOF_HEADER else proofFile.value;
      proofFile := Some(file + ProofBytes(p));
    }

    /**
     Record the reports of a batch, make them durable, only then persist the proof, and rotate only
     behind the proof.
     */
    method WriteBatch(e: Entry, ghost cfg: Config, ghost log: seq<Batch>, ghost x: Outbox) returns (ghost x': Outbox)
      requires Valid() && Ordered(log) && Inv(cfg, group, log, x) && Holds(x) && !Misread(x.proofs)
      requires OutboxRuns.Handled(cfg, log, x, e.out) && e.index == log[x.at].index && Proven(x.known, e.index).None?
      modifies this
      ensures Valid() && Inv(cfg, group, log, x') && Holds(x')
      ensures x'.phase.Idle? && x'.done == x.done + [e] && x'.at == x.at + 1
      ensures x'.desk == After(cfg, x.desk, log[x.at].commands)
    {
      hide Files, DesksOk, BatchBytes, FileBytes, Marked, ProofBytes, Misread, Ordered, FrameOf, OutboxRuns.Handled,
        Takes, After, Proven, MarkBytes, MemoryOk, Numbered;
      OutboxRuns.HandledIs(cfg, log, x, e.out);
      IdleIs(group, log, x);
      RecordBatch(e);
      ghost var bytes := BatchBytes(group, e, 0);
      assert [] + bytes == bytes;
      ghost var x1 :=
        x.(unsynced := bytes, phase := Written(e.out), desk := After(cfg, x.desk, log[x.at].commands));
      NextKeeps(cfg, group, log, x, Apply(e.out), x1);
      SyncData();
      ghost var x2 := x1.(synced := x1.synced + bytes, unsynced := [], phase := Synced(e.out));
      NextKeeps(cfg, group, log, x1, Sync, x2);
      var mark := ProofOf(e.index, e.out);
      MarkApplied(mark);
      MarkIsAppend(x.proofs, mark);
      ghost var x3 := x2.(proofs := Marked(x.proofs, mark, |MarkBytes(x.proofs, mark)|), done := x.done + [e],
                          at := x.at + 1, phase := Proved);
      assert Next(cfg, group, log, x2, Mark, x3);
      NextKeeps(cfg, group, log, x2, Mark, x3);
      var rotated := MaybeRotate();
      assert x3.synced + [] == x3.synced;
      x' := Finish(cfg, group, log, x3, rotated);
    }

    /**
     Handle one committed batch. With a proof it was applied before: process it again and compare, the
     outbox is left alone. Without one: process it, record its reports, make them durable, only then
     persist the proof, and rotate only behind the proof.
     */
    method HandleCommitted(p: Processor, b: Batch, proof: Option<Proof>, ghost log: seq<Batch>, ghost x: Outbox)
      returns (ok: bool, out: seq<ExecReport>, ghost x': Outbox)
      requires Valid() && Ordered(log) && Inv(p.cfg, group, log, x) && Holds(x) && !Misread(x.proofs)
      requires p.Valid() && p.State() == x.desk && this !in p.repr
      requires x.phase.Idle? && x.at < |log| && log[x.at] == b && proof == Proven(x.known, b.index)
      requires Takes(p.cfg, x.desk, b.commands) && CanTake(p.cfg, x.desk, b.commands)
      modifies this, p, p.repr
      ensures Valid() && p.Valid() && Inv(p.cfg, group, log, x') && Holds(x')
      ensures Renders(Tell(p.cfg, x.desk, b.commands), out)
      ensures ok <==> proof.Some? ==> Passes(proof.value, out)
      ensures x'.done == if proof.Some? then x.done else x.done + [Entry(b.index, out)]
      ensures ok ==> x'.phase.Idle? && x'.at == x.at + 1 && x'.desk == p.State()
      ensures !ok ==> x'.phase.Closed?
    {
      hide Inv, Renders, Misread, Ordered, Processor.Valid, Processor.State, Takes, Tell, After, CanTake, Passes,
        Proven, FileBytes, BatchBytes;
      out := ProcessAll(p, b.commands);
      TellsHandled(p.cfg, log, x, out);
      if proof.Some? {
        ok := Passes(proof.value, out);
        x' := Checked(p.cfg, log, x, out);
        assert Next(p.cfg, group, log, x, Replay(out), x');
        NextKeeps(p.cfg, group, log, x, Replay(out), x');
      } else {
        ok := true;
        x' := WriteBatch(Entry(b.index, out), p.cfg, log, x);
      }
    }
  }

  /** Rotating or not behind the mark. */
  lemma Finish(cfg: Config, group: u32, log: seq<Batch>, x: Outbox, rotated: bool) returns (x': Outbox)
    requires Ordered(log) && Inv(cfg, group, log, x) && x.phase.Proved?
    ensures Inv(cfg, group, log, x')
    ensures x' == if rotated
                  then x.(segments := x.segments + [x.synced], synced := HEADER, sealed := |x.done|, phase := Idle)
                  else x.(phase := Idle)
  {
    hide Files, DesksOk, Ordered;
    if rotated {
      x' := x.(segments := x.segments + [x.synced], synced := HEADER, sealed := |x.done|, phase := Idle);
      RotateKeeps(cfg, group, log, x, Rotate, x');
      DesksKeep(cfg, group, log, x, Rotate, x');
    } else {
      x' := x.(phase := Idle);
      StepKeeps(cfg, group, log, x, Stay, x');
      DesksKeep(cfg, group, log, x, Stay, x');
    }
  }

  lemma MarkIsAppend(p: ProofFile, proof: Proof)
    requires !p.TornHeader?
    ensures FileBytes(Marked(p, proof, |MarkBytes(p, proof)|)) ==
              Some((if p.NoFile? then PROOF_HEADER else FileBytes(p).value) + ProofBytes(proof))
    ensures p.NoFile? <==> FileBytes(p).None?
  {
    hide ProofBytes, Marked;
    MarkAppends(p, proof, |MarkBytes(p, proof)|);
    var bytes := MarkBytes(p, proof);
    assert bytes[..|bytes|] == bytes;
    if !p.NoFile? {
      assert bytes == ProofBytes(proof);
    } else {
      assert [] + bytes == bytes;
    }
  }

  lemma BatchStep(group: u32, b: Entry, k: nat, before: seq<byte>)
    requires k < |b.out|
    ensures before + BatchBytes(group, b, k) ==
              before + RecordBytes(group, b.index, Ordinal(k), FrameOf(b.out[k])) + BatchBytes(group, b, k + 1)
  {
    hide RecordBytes, FrameOf;
  }

  lemma BatchEnd(group: u32, b: Entry, before: seq<byte>)
    ensures before + BatchBytes(group, b, |b.out|) == before
  {}
}
