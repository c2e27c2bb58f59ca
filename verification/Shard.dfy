/** The journal writer and the recovery loop of a standalone shard, on objects. */
module Shards {
  import opened Types
  import opened Strategies
  import opened Bytes
  import opened RecordFiles
  import opened Processing
  import opened Desks
  import opened Restores
  import opened Wire
  import opened JournalFiles
  import opened Journals
  import opened ShardRuns
  import opened MatchingEngines
  import opened Processors
  import opened Recoveries

  const FLUSH_AFTER: nat := 8192

  /** Appends numbered records: a buffer in user space, bytes the system has not synced, bytes on disk. */
  class JournalWriter {
    var disk: seq<byte>
    var cache: seq<byte>
    var buffer: seq<byte>
    var number: u64
    var writtenSinceFlush: nat

    /** The bytes are those of a journal file with some records pending. */
    ghost predicate Holds(f: JournalFile, pending: seq<Stamped>)
      reads this
    {
      f.Journal? && disk == FileBytes(f) && cache + buffer == Flat(Images(pending))
    }

    /** Open a journal that can be opened and resume its numbering from recovery. */
    constructor (file: seq<byte>, last: u64)
      requires OpenJournal(file).Some?
      ensures disk == OpenJournal(file).value && cache == buffer == [] && number == last
    {
      disk, cache, buffer := if file == [] then JOURNAL_HEADER else file, [], [];
      number, writtenSinceFlush := last, 0;
    }

    /** Append one record; `due` says that the flush interval is over. */
    method Append(stamp: u64, frame: CommandFrame, due: bool, ghost f: JournalFile, ghost pending: seq<Stamped>)
      returns (n: u64)
      requires Holds(f, pending) && number < U64_MAX
      modifies this
      ensures n == number == old(number) + 1 && Holds(f, pending + [Stamped(Rec(n, frame), stamp)])
      ensures due || old(writtenSinceFlush) + 1 >= FLUSH_AFTER ==> buffer == []
      ensures !due && old(writtenSinceFlush) + 1 < FLUSH_AFTER ==> cache == old(cache)
    {
      hide FileBytes, Flat, Images, StampedBytes;
      number := number + 1;
      n := number;
      var x := Stamped(Rec(n, frame), stamp);
      ImagesConcat(pending, [x]);
      OneImage(x);
      assert cache + (buffer + StampedBytes(x)) == cache + buffer + StampedBytes(x);
      buffer := buffer + StampedBytes(x);
      writtenSinceFlush := writtenSinceFlush + 1;
      if writtenSinceFlush >= FLUSH_AFTER || due {
        Flush();
      }
    }

    /** Hand the buffer to the system. */
    method Flush()
      modifies this`cache, this`buffer, this`writtenSinceFlush
      ensures cache == old(cache + buffer) && buffer == [] && cache + buffer == old(cache + buffer)
    {
      cache, buffer, writtenSinceFlush := cache + buffer, [], 0;
    }

    /** Make everything appended durable. */
    method SyncData(ghost f: JournalFile, ghost pending: seq<Stamped>)
      requires Holds(f, pending)
      modifies this
      ensures Holds(Reached(f, pending, JOURNAL_LEN * |pending|), []) && number == old(number)
      ensures cache == [] && buffer == []
    {
      hide FileBytes, Images, StampedBytes;
      Flush();
      ReachedAppends(f, pending, JOURNAL_LEN * |pending|);
      ReachedHeld(f, pending, JOURNAL_LEN * |pending|);
      ghost var bytes := Flat(Images(pending));
      assert bytes[..|bytes|] == bytes;
      disk, cache := disk + cache, [];
      assert Images([]) == [];
    }

    /** Empty the file, stamp its header again and sync it; the counter keeps counting. */
    method Truncate()
      modifies this
      ensures Holds(NEW_JOURNAL, []) && number == old(number)
    {
      Flush();
      disk, cache := [], [];
      disk := disk + JOURNAL_HEADER;
      writtenSinceFlush := 0;
      assert Images([]) == [];
      assert FileBytes(NEW_JOURNAL) == JOURNAL_HEADER;
    }
  }

  /** Machine limits hold for every command a replay applies. */
  ghost predicate CanReplay(cfg: Config, d: Desk, known: map<u64, seq<byte>>, file: seq<Rec>)
    decreases |file|
  {
    file != [] ==>
      match Decode(file[0].frame)
      case None => CanReplay(cfg, d, known, file[1..])
      case Some(cmd) =>
        var id := cmd.Id();
        if id != 0 && id in known then known[id] == file[0].frame ==> CanReplay(cfg, d, known, file[1..])
        else
          && CanHandle(cfg, d, Input(cmd, 0))
          && CanReplay(cfg, Applied(cfg, d, cmd), if id == 0 then known else known[id := file[0].frame], file[1..])
  }

  lemma HandledIsApplied(cfg: Config, d: Desk, cmd: Command)
    ensures Handled(cfg, d, Input(cmd, 0)).0 == Applied(cfg, d, cmd)
  {
    hide Process, DeskSound, Lawful, Processing.Fits;
  }

  /** Replay the records beyond a snapshot into a processor; false when an id comes back with another payload. */
  method ReplayTail(p: Processor, file: seq<Rec>) returns (ok: bool)
    requires p.Valid() && CanReplay(p.cfg, p.State(), map[], file)
    modifies p, p.repr
    ensures p.Valid() && fresh(p.repr - old(p.repr))
    ensures Replayed(p.cfg, old(p.State()), map[], file) == if ok then Some(p.State()) else None
  {
    hide Processor.Valid, Processor.State, CanHandle, Applied, Handled, Decode;
    ghost var d := p.State();
    var known: map<u64, seq<byte>> := map[];
    for k := 0 to |file|
      invariant p.Valid() && fresh(p.repr - old(p.repr))
      invariant CanReplay(p.cfg, p.State(), known, file[k..])
      invariant Replayed(p.cfg, d, map[], file) == Replayed(p.cfg, p.State(), known, file[k..])
    {
      var frame := file[k].frame;
      assert file[k..][0] == file[k] && file[k..][1..] == file[k + 1..];
      var parsed := Decode(frame);
      if parsed.Some? {
        var cmd := parsed.value;
        var id := cmd.Id();
        if id != 0 && id in known {
          if known[id] != frame {
            return false;
          }
        } else {
          HandledIsApplied(p.cfg, p.State(), cmd);
          var reports := p.Process(Input(cmd, 0));
          if id != 0 {
            known := known[id := frame];
          }
        }
      }
    }
    assert file[|file|..] == [];
    return true;
  }

  /** Skip what the snapshot covers and remember the highest number seen. */
  method SkipCovered(file: seq<Rec>, base: u64) returns (beyond: seq<Rec>, last: u64)
    ensures beyond == Beyond(file, base) && last == LastNumber(file, base)
  {
    beyond, last := [], base;
    for k := 0 to |file|
      invariant beyond == Beyond(file[..k], base) && last == LastNumber(file[..k], base)
    {
      assert file[..k + 1][..k] == file[..k];
      if file[k].number > last {
        last := file[k].number;
      }
      if file[k].number > base {
        beyond := beyond + [file[k]];
      }
    }
    assert file[..|file|] == file;
  }

  /**
   Recover a new processor from a snapshot and a journal: the last number seen, or nothing on
   conflicting payloads.
   */
  method RecoverStats(p: Processor, snapshot: Option<Snapshot>, file: seq<Rec>) returns (r: Option<u64>)
    requires p.Valid() && p.State() == NEW_DESK && (snapshot.Some? ==> Installable(snapshot.value.engines))
    requires CanReplay(p.cfg, Journals.Start(snapshot), map[], Beyond(file, Base(snapshot)))
    modifies p, p.repr
    ensures p.Valid()
    ensures Recovered(p.cfg, snapshot, file) == if r.Some? then Some((p.State(), r.value)) else None
  {
    hide Processor.Valid, Processor.State, CanReplay, Replayed, Restored, Installable;
    if snapshot.Some? {
      RestoreState(p, snapshot.value);
    }
    var beyond, last := SkipCovered(file, Base(snapshot));
    var ok := ReplayTail(p, beyond);
    r := if ok then Some(last) else None;
  }
}
