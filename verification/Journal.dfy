/** Replaying a command journal over a snapshot. */
module Journals {
  import opened Types
  import opened Books
  import opened Strategies
  import opened Bytes
  import opened Submissions
  import opened Processing
  import opened Desks
  import opened Restores
  import opened Histories
  import opened Wire
  import opened JournalFiles

  // --- journal files ----------------------------------------------------------------------------------

  ghost predicate Increasing(file: seq<Rec>) {
    forall i, j :: 0 <= i < j < |file| ==> file[i].number < file[j].number
  }

  /** Records past a snapshot's number, in file order. */
  function Beyond(file: seq<Rec>, base: u64): seq<Rec> {
    if file == [] then []
    else
      var last := file[|file| - 1];
      Beyond(file[..|file| - 1], base) + if last.number > base then [last] else []
  }

  /** The records of a history after its first `base` commands. */
  function RecordsFrom(h: seq<Command>, base: nat): (r: seq<Rec>)
    requires base <= |h| <= U64_MAX
    ensures |r| == |h| - base && forall j :: 0 <= j < |r| ==> r[j] == Rec(base + 1 + j, Encode(h[base + j]))
  {
    seq(|h| - base, j requires 0 <= j < |h| - base => Rec(base + 1 + j, Encode(h[base + j])))
  }

  lemma {:induction false} BeyondConcat(a: seq<Rec>, b: seq<Rec>, base: u64)
    ensures Beyond(a + b, base) == Beyond(a, base) + Beyond(b, base)
    decreases |b|
  {
    if b == [] {
      assert a + b == a;
    } else {
      var n := |a + b|;
      assert (a + b)[..n - 1] == a + b[..|b| - 1] && (a + b)[n - 1] == b[|b| - 1];
      BeyondConcat(a, b[..|b| - 1], base);
    }
  }

  lemma {:induction false} BeyondAll(file: seq<Rec>, base: u64)
    requires forall k :: 0 <= k < |file| ==> file[k].number <= base
    ensures Beyond(file, base) == []
  {
    if file != [] {
      BeyondAll(file[..|file| - 1], base);
    }
  }

  /** The highest number on file, or `base`. */
  function LastNumber(file: seq<Rec>, base: u64): u64 {
    if file == [] then base
    else
      var n := LastNumber(file[..|file| - 1], base);
      if file[|file| - 1].number > n then file[|file| - 1].number else n
  }

  /** Where the surviving records run up to. */
  lemma {:induction false} LastOfRun(file: seq<Rec>, base: u64, h: seq<Command>)
    requires base <= |h| <= U64_MAX && Beyond(file, base) == RecordsFrom(h, base) && Increasing(file)
    ensures LastNumber(file, base) == |h|
    decreases |h|, |file|
  {
    hide Encode;
    if file == [] {
      assert RecordsFrom(h, base) == [];
    } else {
      var rest, last := file[..|file| - 1], file[|file| - 1];
      if last.number > base {
        var r := RecordsFrom(h, base);
        assert r[|r| - 1] == last;
        assert Beyond(rest, base) == r[..|r| - 1];
        assert RecordsFrom(h[..|h| - 1], base) == r[..|r| - 1];
        LastOfRun(rest, base, h[..|h| - 1]);
      } else {
        assert Beyond(file, base) == Beyond(rest, base);
        LastOfRun(rest, base, h);
      }
    }
  }

  // --- replay --------------------------------------------------------------------------------------------

  /** A command applied to the desk, reports dropped. */
  ghost function Applied(cfg: Config, d: Desk, cmd: Command): Desk {
    if DeskSound(d) && Lawful(cfg.setup.strategy) && Fits(d, cmd) then Process(cfg, d, Input(cmd, 0)).0 else d
  }

  /** Replay of the tail: an identical retry is skipped, a conflicting payload for a known id fails. */
  ghost function Replayed(cfg: Config, d: Desk, known: map<u64, seq<byte>>, file: seq<Rec>): Option<Desk>
    decreases |file|
  {
    if file == [] then Some(d)
    else
      var frame := file[0].frame;
      match Decode(frame)
      case None => Replayed(cfg, d, known, file[1..])
      case Some(cmd) =>
        var id := cmd.Id();
        if id != 0 && id in known then
          if known[id] == frame then Replayed(cfg, d, known, file[1..]) else None
        else Replayed(cfg, Applied(cfg, d, cmd), if id == 0 then known else known[id := frame], file[1..])
  }

  function Base(snapshot: Option<Snapshot>): u64 {
    if snapshot.Some? then snapshot.value.journalSeq else 0
  }

  function Start(snapshot: Option<Snapshot>): Desk {
    if snapshot.Some? then Restored(snapshot.value) else NEW_DESK
  }

  /** Recovery: load the snapshot, replay what lies beyond it, resume the numbering. */
  ghost function Recovered(cfg: Config, snapshot: Option<Snapshot>, file: seq<Rec>): Option<(Desk, u64)> {
    var d := Replayed(cfg, Start(snapshot), map[], Beyond(file, Base(snapshot)));
    if d.None? then None else Some((d.value, LastNumber(file, Base(snapshot))))
  }

  /** No two commands of the stretch share a nonzero id with different frames. */
  ghost predicate NoConflict(h: seq<Command>) {
    forall j, k :: 0 <= j < k < |h| && h[j].Id() == h[k].Id() && h[j].Id() != 0 ==> Encode(h[j]) == Encode(h[k])
  }

  /** What replay has noted so far agrees with the commands still to come. */
  ghost predicate Agrees(known: map<u64, seq<byte>>, h: seq<Command>) {
    forall k :: 0 <= k < |h| && h[k].Id() in known ==> known[h[k].Id()] == Encode(h[k])
  }

  lemma DecodesBack(h: seq<Command>, base: nat, j: nat)
    requires base <= |h| <= U64_MAX && j < |h| - base && Sendable(h[base + j])
    ensures Decode(RecordsFrom(h, base)[j].frame) == Some(h[base + j])
  {
    hide Encode, Decode;
    WireRoundTrip(h[base + j]);
  }

  /** Replaying the records of a conflict-free stretch is running its commands: the skipped retries change nothing. */
  lemma {:induction false} ReplayIsRun(cfg: Config, d: Desk, known: map<u64, seq<byte>>, h: seq<Command>, base: nat)
    requires DeskInv(cfg, d) && Lawful(cfg.setup.strategy) && base <= |h| <= U64_MAX
             && Handles(cfg, d, Inputs(h[base..]))
    requires forall k :: base <= k < |h| ==> Sendable(h[k])
    requires NoConflict(h[base..]) && Agrees(known, h[base..]) && forall id :: id in known ==> id in d.seen && id != 0
    ensures Replayed(cfg, d, known, RecordsFrom(h, base)) == Some(DeskAfter(cfg, d, Inputs(h[base..])))
    decreases |h| - base
  {
    hide DeskInv, Lawful, Process, Fits, Encode, Decode, DeskSound;
    var file := RecordsFrom(h, base);
    if base < |h| {
      var cmd := h[base];
      DecodesBack(h, base, 0);
      assert file[1..] == RecordsFrom(h, base + 1);
      assert h[base..][1..] == h[base + 1..];
      assert Inputs(h[base..])[1..] == Inputs(h[base + 1..]) && Inputs(h[base..])[0] == Input(cmd, 0);
      ProcessKeeps(cfg, d, Input(cmd, 0));
      ProcessSeen(cfg, d, Input(cmd, 0));
      TailAgrees(known, h, base);
      if cmd.Id() != 0 && cmd.Id() in known {
        assert h[base..][0] == cmd;
        RepeatChangesNothing(cfg, d, Input(cmd, 0));
        ReplayIsRun(cfg, d, known, h, base + 1);
      } else {
        var known' := if cmd.Id() == 0 then known else known[cmd.Id() := Encode(cmd)];
        ReplayIsRun(cfg, Applied(cfg, d, cmd), known', h, base + 1);
      }
    } else {
      assert h[base..] == [];
    }
  }

  lemma TailAgrees(known: map<u64, seq<byte>>, h: seq<Command>, base: nat)
    requires base < |h| && NoConflict(h[base..]) && Agrees(known, h[base..])
    ensures NoConflict(h[base + 1..]) && Agrees(known, h[base + 1..])
    ensures h[base].Id() != 0 ==> Agrees(known[h[base].Id() := Encode(h[base])], h[base + 1..])
  {
    hide Encode;
    var tail, rest := h[base..], h[base + 1..];
    assert forall k :: 0 <= k < |rest| ==> rest[k] == tail[k + 1];
    assert tail[0] == h[base];
  }

  // --- a history, its snapshot and its journal ------------------------------------------------------------------

  /** The command's id was not used up to the snapshot, or the snapshot makes the gates refuse it all the same. */
  ghost predicate Known(cfg: Config, snapshot: Option<Snapshot>, h: seq<Command>, cmd: Command)
    requires Base(snapshot) <= |h|
  {
    var d := Start(snapshot);
    !Carries(h[..Base(snapshot)], cmd.Id()) || cmd.Id() in d.seen || (cfg.dedup && cmd.Id() <= Cursor(d, cmd))
  }

  ghost predicate TailKnown(cfg: Config, snapshot: Option<Snapshot>, h: seq<Command>)
    requires Base(snapshot) <= |h|
  {
    forall k :: Base(snapshot) <= k < |h| ==> Known(cfg, snapshot, h, h[k])
  }

  ghost predicate HistoryOk(cfg: Config, h: seq<Command>) {
    && cfg.bandBps.None? && Lawful(cfg.setup.strategy) && DeskInv(cfg, NEW_DESK) && |h| <= U64_MAX
    && Handles(cfg, NEW_DESK, Inputs(h)) && (forall k :: 0 <= k < |h| ==> Sendable(h[k]))
  }

  /** The journal file: increasing numbers, and past the snapshot exactly the history. */
  ghost predicate FileOk(file: seq<Rec>, base: u64, h: seq<Command>)
    requires base <= |h| <= U64_MAX
  {
    && Increasing(file) && (forall k :: 0 <= k < |file| ==> file[k].number <= |h|)
    && Beyond(file, base) == RecordsFrom(h, base)
  }

  /** The desk in memory is alike the ideal one and knows what the snapshot knows and the ids past it. */
  ghost predicate DeskOk(cfg: Config, d: Desk, snapshot: Option<Snapshot>, h: seq<Command>)
    requires HistoryOk(cfg, h) && Base(snapshot) <= |h|
  {
    && DeskInv(cfg, d) && Alike(Ideal(cfg, h), d) && d.seen <= Ideal(cfg, h).seen && Above(d, Start(snapshot))
    && forall id :: Carries(h[Base(snapshot)..], id) ==> id in d.seen
  }

  /** The duplicate gates of one desk catch whatever those of the other catch. */
  predicate Above(d: Desk, d': Desk) {
    d'.seen <= d.seen && d'.maxNew <= d.maxNew && d'.maxAdmin <= d.maxAdmin
  }

  /** The snapshot captures the ideal desk at its number. */
  ghost predicate SnapshotOk(cfg: Config, snapshot: Option<Snapshot>, h: seq<Command>)
    requires HistoryOk(cfg, h) && Base(snapshot) <= |h|
  {
    && TailKnown(cfg, snapshot, h)
    && (snapshot.Some? ==>
          && Handles(cfg, NEW_DESK, Inputs(h[..Base(snapshot)]))
          && Captures(Ideal(cfg, h[..Base(snapshot)]), snapshot.value))
  }

  // --- taking a command ------------------------------------------------------------------------------------------

  lemma CarriesConcat(a: seq<Command>, b: seq<Command>, id: u64)
    ensures Carries(a + b, id) <==> Carries(a, id) || Carries(b, id)
  {
    if k :| 0 <= k < |a| && a[k].Id() == id {
      assert (a + b)[k] == a[k];
    }
    if k :| 0 <= k < |b| && b[k].Id() == id {
      assert (a + b)[|a| + k] == b[k];
    }
  }

  /** The ideal desk after one more command. */
  lemma IdealNext(cfg: Config, h: seq<Command>, d: Desk, cmd: Command)
    requires HistoryOk(cfg, h) && |h| < U64_MAX && Sendable(cmd) && (cmd.New? ==> cmd.order.id != 0)
    requires Fits(d, cmd) && Ideal(cfg, h).engines == d.engines
    ensures HistoryOk(cfg, h + [cmd]) && DeskInv(cfg, Ideal(cfg, h)) && DeskSound(Ideal(cfg, h))
            && Fits(Ideal(cfg, h), cmd)
    ensures Ideal(cfg, h + [cmd]) == Process(cfg, Ideal(cfg, h), Input(cmd, 0)).0
  {
    hide DeskInv, Lawful, Process, DeskSound, Enabled, RoomFor;
    HandlingKeeps(cfg, NEW_DESK, Inputs(h));
    OkSound(cfg, Ideal(cfg, h));
    var one := [Input(cmd, 0)];
    assert Inputs(h + [cmd]) == Inputs(h) + one;
    ProcessKeeps(cfg, Ideal(cfg, h), one[0]);
    assert one[1..] == [];
    assert Handles(cfg, Ideal(cfg, h), one);
    RunSplits(cfg, NEW_DESK, Inputs(h), one);
  }

  lemma TakeDesk(cfg: Config, d: Desk, snapshot: Option<Snapshot>, h: seq<Command>, cmd: Command)
    requires HistoryOk(cfg, h) && Base(snapshot) <= |h| < U64_MAX && DeskOk(cfg, d, snapshot, h)
    requires Sendable(cmd) && Fits(d, cmd) && (cmd.New? ==> cmd.order.id != 0) && Known(cfg, snapshot, h, cmd)
    ensures HistoryOk(cfg, h + [cmd]) && DeskOk(cfg, Applied(cfg, d, cmd), snapshot, h + [cmd])
  {
    hide DeskInv, Handles, Fits, Ideal, HistoryOk, Alike, Carries, Start, Known, Applied;
    TakeAlike(cfg, d, snapshot, h, cmd);
    forall id | Carries((h + [cmd])[Base(snapshot)..], id) ensures id in Applied(cfg, d, cmd).seen {
      CarriesMore(h, Base(snapshot), cmd, id);
    }
  }

  lemma TakeAlike(cfg: Config, d: Desk, snapshot: Option<Snapshot>, h: seq<Command>, cmd: Command)
    requires HistoryOk(cfg, h) && Base(snapshot) <= |h| < U64_MAX && DeskOk(cfg, d, snapshot, h)
    requires Sendable(cmd) && Fits(d, cmd) && (cmd.New? ==> cmd.order.id != 0) && Known(cfg, snapshot, h, cmd)
    ensures HistoryOk(cfg, h + [cmd])
    ensures var n, d', ids := Ideal(cfg, h + [cmd]), Applied(cfg, d, cmd), if cmd.Id() == 0 then {} else {cmd.Id()};
            && DeskInv(cfg, d') && Alike(n, d') && Above(d', d)
            && d'.seen == d.seen + ids && n.seen == Ideal(cfg, h).seen + ids
  {
    hide DeskInv, Lawful, Process, DeskSound, Handles, Fits, Ideal, HistoryOk, Alike, Carries, Start, SameGate, Known;
    HistoryParts(cfg, h);
    var i := Ideal(cfg, h);
    AlikeEngines(i, d);
    IdealNext(cfg, h, d, cmd);
    OkSound(cfg, d);
    TakeGate(cfg, d, snapshot, h, cmd);
    ProcessAlike(cfg, i, d, Input(cmd, 0));
    ProcessKeeps(cfg, d, Input(cmd, 0));
    ProcessSeen(cfg, d, Input(cmd, 0));
    ProcessSeen(cfg, i, Input(cmd, 0));
  }

  lemma CarriesMore(h: seq<Command>, base: nat, cmd: Command, id: u64)
    requires base <= |h|
    ensures Carries((h + [cmd])[base..], id) <==> Carries(h[base..], id) || (id != 0 && cmd.Id() == id)
  {
    hide Carries;
    assert (h + [cmd])[base..] == h[base..] + [cmd];
    CarriesConcat(h[base..], [cmd], id);
    CarriesOne(cmd, id);
  }

  lemma TakeGate(cfg: Config, d: Desk, snapshot: Option<Snapshot>, h: seq<Command>, cmd: Command)
    requires HistoryOk(cfg, h) && Base(snapshot) <= |h| && DeskOk(cfg, d, snapshot, h) && Known(cfg, snapshot, h, cmd)
    ensures SameGate(cfg, Ideal(cfg, h), d, cmd)
  {
    hide DeskInv, Ideal, HistoryOk, Carries, Start;
    var base := Base(snapshot);
    IdealSeen(cfg, h, cmd.Id());
    CarriesConcat(h[..base], h[base..], cmd.Id());
    assert h[..base] + h[base..] == h;
    IdZero(h[..base]);
  }

  lemma CarriesOne(cmd: Command, id: u64)
    ensures Carries([cmd], id) <==> id != 0 && cmd.Id() == id
  {
    assert [cmd][0] == cmd;
  }

  lemma IdZero(h: seq<Command>)
    ensures !Carries(h, 0)
  {}

  lemma HistoryParts(cfg: Config, h: seq<Command>)
    requires HistoryOk(cfg, h)
    ensures Lawful(cfg.setup.strategy) && |h| <= U64_MAX && DeskInv(cfg, NEW_DESK) && Handles(cfg, NEW_DESK, Inputs(h))
  {}

  lemma IdealSeen(cfg: Config, h: seq<Command>, id: u64)
    requires HistoryOk(cfg, h)
    ensures id in Ideal(cfg, h).seen <==> Carries(h, id)
  {
    hide DeskInv, Lawful, Handles, DeskAfter;
    RunSeen(cfg, NEW_DESK, h, id);
  }

  lemma {:induction false} AppendedFile(file: seq<Rec>, base: u64, h: seq<Command>, cmd: Command)
    requires base <= |h| < U64_MAX && FileOk(file, base, h)
    ensures FileOk(file + [Rec(|h| + 1, Encode(cmd))], base, h + [cmd])
  {
    hide Encode, Beyond;
    var r := Rec(|h| + 1, Encode(cmd));
    BeyondConcat(file, [r], base);
    BeyondOne(r, base);
    assert RecordsFrom(h + [cmd], base) == RecordsFrom(h, base) + [r];
  }

  lemma BeyondOne(r: Rec, base: u64)
    ensures Beyond([r], base) == if r.number > base then [r] else []
  {
    assert [r][..0] == [];
  }

  lemma TailStaysKnown(cfg: Config, snapshot: Option<Snapshot>, h: seq<Command>, cmd: Command)
    requires Base(snapshot) <= |h| && TailKnown(cfg, snapshot, h) && Known(cfg, snapshot, h, cmd)
    ensures TailKnown(cfg, snapshot, h + [cmd])
  {
    hide Carries, Start;
    assert (h + [cmd])[..Base(snapshot)] == h[..Base(snapshot)];
  }

  // --- what survives -------------------------------------------------------------------------------------------

  /** A front of the file holds, past the snapshot, a front of the history. */
  lemma FrontOfFile(front: seq<Rec>, rest: seq<Rec>, base: u64, h: seq<Command>) returns (n: nat)
    requires base <= |h| <= U64_MAX && FileOk(front + rest, base, h)
    ensures base <= n <= |h| && FileOk(front, base, h[..n]) && n == LastNumber(front, base)
  {
    hide Encode, Beyond, LastNumber;
    BeyondConcat(front, rest, base);
    var t := Beyond(front, base);
    n := base + |t|;
    assert RecordsFrom(h, base) == t + Beyond(rest, base);
    assert t == RecordsFrom(h, base)[..|t|];
    assert RecordsFrom(h[..n], base) == t;
    forall i, j | 0 <= i < j < |front| ensures front[i].number < front[j].number {
      assert (front + rest)[i] == front[i] && (front + rest)[j] == front[j];
    }
    LastOfRun(front, base, h[..n]);
    NumbersBelow(front, base);
  }

  lemma {:induction false} NumbersBelow(file: seq<Rec>, base: u64)
    ensures forall k :: 0 <= k < |file| ==> file[k].number <= LastNumber(file, base)
    ensures base <= LastNumber(file, base)
  {
    if file != [] {
      NumbersBelow(file[..|file| - 1], base);
    }
  }

  lemma {:induction false} LastNumberGrows(a: seq<Rec>, b: seq<Rec>, base: u64)
    ensures LastNumber(a, base) <= LastNumber(a + b, base)
    decreases |b|
  {
    if b == [] {
      assert a + b == a;
    } else {
      assert (a + b)[..|a + b| - 1] == a + b[..|b| - 1];
      LastNumberGrows(a, b[..|b| - 1], base);
    }
  }

  /** The desk recovered from a snapshot and a surviving tail is alike the ideal desk of the surviving history. */
  lemma RecoveredDesk(cfg: Config, snapshot: Option<Snapshot>, h: seq<Command>)
    requires HistoryOk(cfg, h) && Base(snapshot) <= |h| && SnapshotOk(cfg, snapshot, h)
             && NoConflict(h[Base(snapshot)..])
    ensures var d := Replayed(cfg, Start(snapshot), map[], RecordsFrom(h, Base(snapshot)));
            d.Some? && DeskOk(cfg, d.value, snapshot, h)
  {
    hide DeskInv, Lawful, Handles, DeskAfter, Captures, Restored, Alike, Replayed, Carries, Start, SameGate, Known;
    var base := Base(snapshot);
    IdealSplits(cfg, h, base);
    var i, d := Ideal(cfg, h[..base]), Start(snapshot);
    StartAlike(cfg, snapshot, h);
    var tail := h[base..];
    forall k | 0 <= k < |tail| ensures SameGate(cfg, i, d, Inputs(tail)[k].cmd) {
      StartGate(cfg, snapshot, h, h[base + k]);
    }
    RunAlike(cfg, i, d, Inputs(tail));
    ReplayIsRun(cfg, d, map[], h, base);
    HandlingKeeps(cfg, d, Inputs(tail));
    forall id ensures id in DeskAfter(cfg, d, Inputs(tail)).seen <==> id in d.seen || Carries(tail, id)
              ensures id in Ideal(cfg, h).seen <==> id in i.seen || Carries(tail, id)
              ensures var n := DeskAfter(cfg, d, Inputs(tail)); d.maxNew <= n.maxNew && d.maxAdmin <= n.maxAdmin
    {
      RunSeen(cfg, d, tail, id);
      RunSeen(cfg, i, tail, id);
    }
    RunSeen(cfg, d, tail, 0);
  }

  /** The gates of the desk recovery starts from treat a known command as those of the ideal desk. */
  lemma StartGate(cfg: Config, snapshot: Option<Snapshot>, h: seq<Command>, cmd: Command)
    requires Base(snapshot) <= |h| && HistoryOk(cfg, h[..Base(snapshot)]) && Known(cfg, snapshot, h, cmd)
    requires Alike(Ideal(cfg, h[..Base(snapshot)]), Start(snapshot))
    requires Start(snapshot).seen <= Ideal(cfg, h[..Base(snapshot)]).seen
    ensures SameGate(cfg, Ideal(cfg, h[..Base(snapshot)]), Start(snapshot), cmd)
  {
    hide Ideal, HistoryOk, Carries, Start;
    IdealSeen(cfg, h[..Base(snapshot)], cmd.Id());
  }

  lemma StartAlike(cfg: Config, snapshot: Option<Snapshot>, h: seq<Command>)
    requires HistoryOk(cfg, h) && Base(snapshot) <= |h| && SnapshotOk(cfg, snapshot, h)
    requires HistoryOk(cfg, h[..Base(snapshot)]) && DeskInv(cfg, Ideal(cfg, h[..Base(snapshot)]))
    ensures DeskInv(cfg, Start(snapshot)) && Alike(Ideal(cfg, h[..Base(snapshot)]), Start(snapshot))
    ensures Start(snapshot).seen <= Ideal(cfg, h[..Base(snapshot)]).seen
  {
    hide DeskInv, Lawful, Handles, Captures, Restored, RestsOn, TailKnown;
    if snapshot.Some? {
      RestoredIsAlike(cfg, Ideal(cfg, h[..Base(snapshot)]), snapshot.value);
    } else {
      assert Inputs(h[..0]) == [];
    }
  }

  /** Replay fails exactly when some id comes back with another payload. */
  lemma {:induction false} ReplayFailsOnConflict(cfg: Config, d: Desk, known: map<u64, seq<byte>>, h: seq<Command>,
    base: nat)
    requires base <= |h| <= U64_MAX && (forall k :: base <= k < |h| ==> Sendable(h[k])) && 0 !in known
    ensures Replayed(cfg, d, known, RecordsFrom(h, base)).Some? <==> NoConflict(h[base..]) && Agrees(known, h[base..])
    decreases |h| - base
  {
    hide Encode, Decode, Applied, NoConflict, Agrees;
    if base < |h| {
      var cmd := h[base];
      DecodesBack(h, base, 0);
      assert RecordsFrom(h, base)[1..] == RecordsFrom(h, base + 1);
      ConflictUnfolds(known, h, base);
      if cmd.Id() != 0 && cmd.Id() in known {
        ReplayFailsOnConflict(cfg, d, known, h, base + 1);
      } else {
        var known' := if cmd.Id() == 0 then known else known[cmd.Id() := Encode(cmd)];
        ReplayFailsOnConflict(cfg, Applied(cfg, d, cmd), known', h, base + 1);
      }
    } else {
      NoConflictInNothing(known, h, base);
    }
  }

  lemma NoConflictInNothing(known: map<u64, seq<byte>>, h: seq<Command>, base: nat)
    requires base == |h|
    ensures NoConflict(h[base..]) && Agrees(known, h[base..])
  {}

  lemma ConflictUnfolds(known: map<u64, seq<byte>>, h: seq<Command>, base: nat)
    requires base < |h| && 0 !in known
    ensures var cmd, id := h[base], h[base].Id();
            var known' := if id == 0 || id in known then known else known[id := Encode(cmd)];
            NoConflict(h[base..]) && Agrees(known, h[base..]) <==>
              (id in known ==> known[id] == Encode(cmd)) && NoConflict(h[base + 1..]) && Agrees(known', h[base + 1..])
  {
    hide Encode;
    var tail, rest := h[base..], h[base + 1..];
    assert tail[0] == h[base] && forall k :: 0 <= k < |rest| ==> rest[k] == tail[k + 1];
    assert forall k :: 0 < k < |tail| ==> tail[k] == rest[k - 1];
  }

  /**
   Recovery from a snapshot and the records of a history past it: it succeeds exactly when no id was
   journaled with two payloads, and then it yields a desk alike the ideal one, and its number.
   */
  lemma RecoveredExact(cfg: Config, snapshot: Option<Snapshot>, file: seq<Rec>, h: seq<Command>)
    requires HistoryOk(cfg, h) && Base(snapshot) <= |h| && SnapshotOk(cfg, snapshot, h)
             && FileOk(file, Base(snapshot), h)
    ensures var r := Recovered(cfg, snapshot, file);
            && (r.Some? <==> NoConflict(h[Base(snapshot)..]))
            && (r.Some? ==> r.value.1 == |h| && DeskOk(cfg, r.value.0, snapshot, h))
  {
    hide DeskInv, Lawful, Handles, DeskAfter, Captures, Replayed, LastNumber, Beyond, NoConflict, Ideal, RecordsFrom,
      Restored;
    var base := Base(snapshot);
    LastOfRun(file, base, h);
    ReplayFailsOnConflict(cfg, Start(snapshot), map[], h, base);
    if NoConflict(h[base..]) {
      RecoveredDesk(cfg, snapshot, h);
    }
  }

  lemma FrontHistory(cfg: Config, snapshot: Option<Snapshot>, h: seq<Command>, n: nat)
    requires HistoryOk(cfg, h) && Base(snapshot) <= n <= |h| && SnapshotOk(cfg, snapshot, h)
    ensures HistoryOk(cfg, h[..n]) && SnapshotOk(cfg, snapshot, h[..n])
  {
    hide DeskInv, Lawful, Handles, Captures, Carries, Ideal;
    IdealSplits(cfg, h, n);
    assert h[..n][..Base(snapshot)] == h[..Base(snapshot)];
  }
}
