/** The durable Raft log: records, torn tails, replay of the record stream, compaction. */
module RaftLogs {
  import opened Types
  import opened Bytes
  import opened Checksums

  /** "TCRF" and the format version */
  const HEADER: seq<byte> := [84, 67, 82, 70, 1, 0, 0, 0]
  const MAX_PAYLOAD: nat := 16 * 1024 * 1024

  datatype HardState = HardState(term: u64, vote: u64, commit: u64)

  const NO_STATE: HardState := HardState(0, 0, 0)

  /** A log entry; `normal` entries carry application data, the others change membership. */
  datatype Entry = Entry(index: u64, term: u64, normal: bool, data: seq<byte>)

  datatype Snap = Snap(index: u64, data: seq<byte>)

  datatype Item = Hard(state: HardState) | Ent(entry: Entry) | Shot(snap: Snap)

  function Kind(x: Item): byte {
    match x
    case Hard(_) => 1
    case Ent(_) => 2
    case Shot(_) => 3
  }

  /** The message codec of the records' payloads. */
  datatype Codec = Codec(encode: Item -> seq<byte>, decode: (byte, seq<byte>) -> Option<Item>)

  ghost predicate Faithful(c: Codec) {
    forall x: Item :: c.decode(Kind(x), c.encode(x)) == Some(x)
  }

  /** Every record is within the size the reader accepts. */
  ghost predicate Small(c: Codec, xs: seq<Item>) {
    forall k :: 0 <= k < |xs| ==> |c.encode(xs[k])| <= MAX_PAYLOAD
  }

  // --- bytes ---------------------------------------------------------------------------------------------

  function RecordBytes(kind: byte, payload: seq<byte>): seq<byte>
    requires |payload| <= 0xFFFF_FFFF
  {
    Sealed([kind] + Le32(|payload|) + payload)
  }

  /** A payload whose length has no 32-bit form is refused before anything is written. */
  function ItemBytes(c: Codec, x: Item): seq<byte> {
    var payload := c.encode(x);
    if |payload| <= 0xFFFF_FFFF then RecordBytes(Kind(x), payload) else []
  }

  function StreamBytes(c: Codec, xs: seq<Item>): seq<byte>
    decreases |xs|
  {
    if xs == [] then [] else ItemBytes(c, xs[0]) + StreamBytes(c, xs[1..])
  }

  /** What reading a record stream gives: the whole records and how many bytes they take. */
  datatype Scan = Corrupt | Scan(items: seq<Item>, bytes: nat)

  /** The record a stretch of bytes starts with: not all there, unreadable, or whole. */
  datatype Piece = Short | Bad | Piece(item: Item, bytes: nat)

  function PieceAt(c: Codec, b: seq<byte>): (r: Piece)
    ensures r.Piece? ==> 0 < r.bytes <= |b|
  {
    if |b| < 5 then Short
    else
      var length := FromLe32(b[1..5]);
      if length > MAX_PAYLOAD then Bad
      else if |b| < length + 13 then Short
      else if !Intact(b[..length + 13]) then Bad
      else
        var x := c.decode(b[0], b[5..length + 5]);
        if x.None? then Bad else Piece(x.value, length + 13)
  }

  function Scanned(c: Codec, b: seq<byte>): (r: Scan)
    ensures r.Scan? ==> r.bytes <= |b|
    decreases |b|
  {
    match PieceAt(c, b)
    case Short => Scan([], 0)
    case Bad => Corrupt
    case Piece(x, n) =>
      var rest := Scanned(c, b[n..]);
      if rest.Corrupt? then Corrupt else Scan([x] + rest.items, n + rest.bytes)
  }

  lemma ItemReads(c: Codec, x: Item, rest: seq<byte>)
    requires Faithful(c) && |c.encode(x)| <= MAX_PAYLOAD
    ensures var b := ItemBytes(c, x) + rest; var n := |c.encode(x)|;
            && |ItemBytes(c, x)| == n + 13 && b[0] == Kind(x) && FromLe32(b[1..5]) == n && b[5..n + 5] == c.encode(x)
            && Intact(b[..n + 13]) && b[n + 13..] == rest && c.decode(Kind(x), b[5..n + 5]) == Some(x)
  {
    hide Intact, Le32, FromLe32, Fnv;
    var payload := c.encode(x);
    var body := [Kind(x)] + Le32(|payload|) + payload;
    SealedIsIntact(body);
    var s, n := Sealed(body), |payload|;
    var b := s + rest;
    assert b[..n + 13] == s && b[n + 13..] == rest;
    RoundTrip32(n);
    assert b[1..5] == s[..|body|][1..5] == Le32(n);
    assert b[5..n + 5] == s[..|body|][5..n + 5] == payload;
  }

  /** A record cut short is never taken for a record. */
  lemma TornReads(c: Codec, x: Item, cut: nat)
    requires Faithful(c) && |c.encode(x)| <= MAX_PAYLOAD && cut < |ItemBytes(c, x)|
    ensures Scanned(c, ItemBytes(c, x)[..cut]) == Scan([], 0)
  {
    hide Intact, FromLe32, ItemBytes, Scanned;
    ItemReads(c, x, []);
    var whole := ItemBytes(c, x);
    assert whole + [] == whole;
    var b := whole[..cut];
    if cut >= 5 {
      assert b[1..5] == whole[1..5];
    }
    TooShort(c, b);
  }

  /** A whole record in front is read first. */
  lemma ScanStep(c: Codec, x: Item, rest: seq<byte>)
    requires Faithful(c) && |c.encode(x)| <= MAX_PAYLOAD
    ensures var r := Scanned(c, rest);
            Scanned(c, ItemBytes(c, x) + rest) ==
              if r.Corrupt? then Corrupt else Scan([x] + r.items, |ItemBytes(c, x)| + r.bytes)
  {
    hide Intact, FromLe32, ItemBytes, Faithful;
    ItemReads(c, x, rest);
  }

  lemma TooShort(c: Codec, b: seq<byte>)
    requires |b| < 5 || (FromLe32(b[1..5]) <= MAX_PAYLOAD && |b| < FromLe32(b[1..5]) + 13)
    ensures Scanned(c, b) == Scan([], 0)
  {}

  /** How many records of a stream are whole when it is cut. */
  function Whole(c: Codec, xs: seq<Item>, cut: nat): (k: nat)
    ensures k <= |xs|
    decreases |xs|
  {
    if xs == [] || cut < |ItemBytes(c, xs[0])| then 0
    else 1 + Whole(c, xs[1..], cut - |ItemBytes(c, xs[0])|)
  }

  /** Reading a stream cut anywhere gives exactly its whole records. */
  lemma {:induction false} CutScan(c: Codec, xs: seq<Item>, cut: nat)
    requires Faithful(c) && Small(c, xs) && cut <= |StreamBytes(c, xs)|
    ensures var k := Whole(c, xs, cut);
            && |StreamBytes(c, xs[..k])| <= cut
            && Scanned(c, StreamBytes(c, xs)[..cut]) == Scan(xs[..k], |StreamBytes(c, xs[..k])|)
            && StreamBytes(c, xs)[..|StreamBytes(c, xs[..k])|] == StreamBytes(c, xs[..k])
            && (cut == |StreamBytes(c, xs)| ==> k == |xs|)
    decreases |xs|
  {
    hide ItemBytes, Scanned, Faithful;
    if xs == [] {
      assert xs[..0] == [];
      TooShort(c, []);
    } else {
      var first, n := ItemBytes(c, xs[0]), |ItemBytes(c, xs[0])|;
      var all := StreamBytes(c, xs);
      if cut < n {
        assert all[..cut] == first[..cut];
        TornReads(c, xs[0], cut);
        assert xs[..0] == [];
      } else {
        var k := Whole(c, xs[1..], cut - n);
        CutScan(c, xs[1..], cut - n);
        assert all[..cut] == first + StreamBytes(c, xs[1..])[..cut - n];
        ScanStep(c, xs[0], StreamBytes(c, xs[1..])[..cut - n]);
        assert xs[..k + 1][0] == xs[0] && xs[..k + 1][1..] == xs[1..][..k];
        assert xs[..k + 1] == [xs[0]] + xs[1..][..k];
      }
    }
  }

  lemma {:induction false} StreamConcat(c: Codec, xs: seq<Item>, ys: seq<Item>)
    ensures StreamBytes(c, xs + ys) == StreamBytes(c, xs) + StreamBytes(c, ys)
    decreases |xs|
  {
    hide ItemBytes;
    if xs == [] {
      assert xs + ys == ys;
    } else {
      assert (xs + ys)[1..] == xs[1..] + ys;
      StreamConcat(c, xs[1..], ys);
    }
  }

  // --- replaying the record stream ---------------------------------------------------------------------------

  datatype Log = Log(entries: seq<Entry>, hard: HardState, snap: Option<Snap>)

  const EMPTY: Log := Log([], NO_STATE, None)

  function SnapIndex(l: Log): u64 {
    if l.snap.Some? then l.snap.value.index else 0
  }

  /** The entries below the first one at or above `index`. */
  function Below(es: seq<Entry>, index: u64): seq<Entry> {
    if es == [] || es[0].index >= index then [] else [es[0]] + Below(es[1..], index)
  }

  function Above(es: seq<Entry>, index: u64): seq<Entry> {
    if es == [] then []
    else if es[0].index > index then [es[0]] + Above(es[1..], index)
    else Above(es[1..], index)
  }

  /** A recovered entry replaces any suffix it overlaps and must not leave a gap. */
  function Appended(es: seq<Entry>, e: Entry): Option<seq<Entry>> {
    var front := Below(es, e.index);
    if e.index == 0 then None
    else if front != [] && e.index != front[|front| - 1].index + 1 then None
    else Some(front + [e])
  }

  function Folded(l: Log, x: Item): Option<Log> {
    match x
    case Hard(h) => Some(l.(hard := h))
    case Ent(e) =>
      var es := Appended(l.entries, e);
      if es.None? then None else Some(l.(entries := es.value))
    case Shot(s) => Some(l.(entries := Above(l.entries, s.index), snap := Some(s)))
  }

  function FoldedAll(l: Log, xs: seq<Item>): Option<Log>
    decreases |xs|
  {
    if xs == [] then Some(l)
    else
      var l' := Folded(l, xs[0]);
      if l'.None? then None else FoldedAll(l'.value, xs[1..])
  }

  function LastIndex(l: Log): u64 {
    if l.entries == [] then SnapIndex(l) else l.entries[|l.entries| - 1].index
  }

  /** The closing checks: covered entries dropped, commit not past the end. */
  function Closed(l: Log): Option<Log> {
    var l' := if l.snap.Some? then l.(entries := Above(l.entries, l.snap.value.index)) else l;
    if l'.hard.commit > LastIndex(l') then None else Some(l')
  }

  datatype Reopened = Failed | Reopened(log: Log, file: seq<byte>)

  /** Opening the state file: header, whole records, torn tail cut off. */
  function Reopen(c: Codec, file: seq<byte>): Reopened {
    if |file| < |HEADER| then Reopened(EMPTY, HEADER)
    else if file[..|HEADER|] != HEADER then Failed
    else
      match Scanned(c, file[|HEADER|..])
      case Corrupt => Failed
      case Scan(xs, n) =>
        var l := FoldedAll(EMPTY, xs);
        if l.None? || Closed(l.value).None? then Failed
        else Reopened(Closed(l.value).value, file[..|HEADER| + n])
  }

  // --- Raft's append discipline ----------------------------------------------------------------------------------

  ghost predicate Contiguous(es: seq<Entry>, base: nat) {
    forall j :: 0 <= j < |es| ==> es[j].index == base + 1 + j
  }

  /** Contiguous indices from the snapshot on, and the commit index within the log. */
  ghost predicate Good(l: Log) {
    Contiguous(l.entries, SnapIndex(l)) && SnapIndex(l) <= l.hard.commit <= SnapIndex(l) + |l.entries|
  }

  /** New entries continue or overwrite only what is not committed; the hard state follows its entries. */
  ghost predicate Disciplined(l: Log, es: seq<Entry>, hard: Option<HardState>) {
    && (es != [] ==> l.hard.commit < es[0].index <= SnapIndex(l) + |l.entries| + 1 && Contiguous(es, es[0].index - 1))
    && (hard.Some? ==>
          l.hard.commit <= hard.value.commit <= if es == [] then SnapIndex(l) + |l.entries| else es[|es| - 1].index)
  }

  function Items(es: seq<Entry>): (r: seq<Item>)
    ensures |r| == |es| && forall k :: 0 <= k < |es| ==> r[k] == Ent(es[k])
  {
    seq(|es|, k requires 0 <= k < |es| => Ent(es[k]))
  }

  /** The records one Ready is persisted as: entries first, then the hard state. */
  function Records(es: seq<Entry>, hard: Option<HardState>): seq<Item> {
    Items(es) + if hard.Some? then [Hard(hard.value)] else []
  }

  lemma {:induction false} BelowIs(es: seq<Entry>, base: nat, index: u64)
    requires Contiguous(es, base) && base < index <= base + |es| + 1
    ensures Below(es, index) == es[..index - base - 1]
    decreases |es|
  {
    if es != [] && es[0].index < index {
      assert Contiguous(es[1..], base + 1) by {
        assert forall j :: 0 <= j < |es| - 1 ==> es[1..][j] == es[j + 1];
      }
      BelowIs(es[1..], base + 1, index);
    }
  }

  lemma {:induction false} AboveIs(es: seq<Entry>, base: nat, index: u64)
    requires Contiguous(es, base) && base <= index <= base + |es|
    ensures Above(es, index) == es[index - base..]
    decreases |es|
  {
    if es != [] {
      assert Contiguous(es[1..], base + 1) by {
        assert forall j :: 0 <= j < |es| - 1 ==> es[1..][j] == es[j + 1];
      }
      if es[0].index <= index {
        AboveIs(es[1..], base + 1, index);
      } else {
        AboveAll(es[1..], base + 1, index);
      }
    }
  }

  lemma {:induction false} AboveAll(es: seq<Entry>, base: nat, index: u64)
    requires Contiguous(es, base) && index <= base
    ensures Above(es, index) == es
    decreases |es|
  {
    if es != [] {
      assert Contiguous(es[1..], base + 1) by {
        assert forall j :: 0 <= j < |es| - 1 ==> es[1..][j] == es[j + 1];
      }
      AboveAll(es[1..], base + 1, index);
    }
  }

  /** A good log with entries written over its uncommitted suffix. */
  function Overwritten(l: Log, es: seq<Entry>): Log
    requires es != [] ==> SnapIndex(l) < es[0].index <= SnapIndex(l) + |l.entries| + 1
  {
    if es == [] then l else l.(entries := l.entries[..es[0].index - SnapIndex(l) - 1] + es)
  }

  lemma OverwrittenGood(l: Log, es: seq<Entry>)
    requires Good(l) && Disciplined(l, es, None)
    ensures Good(Overwritten(l, es))
  {}

  /** Entries that continue the log or overwrite a suffix of it. */
  ghost predicate Attaches(l: Log, es: seq<Entry>) {
    && Contiguous(l.entries, SnapIndex(l))
    && (es != [] ==> SnapIndex(l) < es[0].index <= SnapIndex(l) + |l.entries| + 1 && Contiguous(es, es[0].index - 1))
  }

  lemma FoldEntry(l: Log, e: Entry)
    requires Attaches(l, [e])
    ensures Folded(l, Ent(e)) == Some(Overwritten(l, [e]))
  {
    assert [e][0] == e;
    BelowIs(l.entries, SnapIndex(l), e.index);
  }

  /** Replaying entries overwrites the suffix they overlap. */
  lemma {:induction false} FoldEntries(l: Log, es: seq<Entry>)
    requires Attaches(l, es)
    ensures FoldedAll(l, Items(es)) == Some(Overwritten(l, es))
    decreases |es|
  {
    hide Folded, Attaches;
    if es != [] {
      OneAttaches(l, es);
      FoldEntry(l, es[0]);
      assert Items(es)[1..] == Items(es[1..]);
      FoldEntries(Overwritten(l, [es[0]]), es[1..]);
      OverwrittenTwice(l, es);
    } else {
      assert Items(es) == [];
    }
  }

  lemma OneAttaches(l: Log, es: seq<Entry>)
    requires Attaches(l, es) && es != []
    ensures Attaches(l, [es[0]]) && Attaches(Overwritten(l, [es[0]]), es[1..])
  {
    assert forall j :: 0 <= j < |es| - 1 ==> es[1..][j] == es[j + 1];
  }

  lemma OverwrittenTwice(l: Log, es: seq<Entry>)
    requires Attaches(l, es) && es != [] && Attaches(Overwritten(l, [es[0]]), es[1..])
    ensures Overwritten(Overwritten(l, [es[0]]), es[1..]) == Overwritten(l, es)
  {
    var l' := Overwritten(l, [es[0]]);
    var n := es[0].index - SnapIndex(l) - 1;
    if |es| > 1 {
      assert es[1..][0].index == es[0].index + 1;
      assert l'.entries[..n + 1] == l'.entries;
      assert l'.entries + es[1..] == l.entries[..n] + es;
    } else {
      assert es == [es[0]];
    }
  }

  lemma {:induction false} FoldConcat(l: Log, xs: seq<Item>, ys: seq<Item>)
    ensures FoldedAll(l, xs + ys) == (var m := FoldedAll(l, xs); if m.None? then None else FoldedAll(m.value, ys))
    decreases |xs|
  {
    hide Folded;
    if xs == [] {
      assert xs + ys == ys;
    } else {
      assert (xs + ys)[1..] == xs[1..] + ys;
      var l' := Folded(l, xs[0]);
      if l'.Some? {
        FoldConcat(l'.value, xs[1..], ys);
      }
    }
  }

  /** The log a batch leads to. */
  function Persisted(l: Log, es: seq<Entry>, hard: Option<HardState>): Log
    requires es != [] ==> SnapIndex(l) < es[0].index <= SnapIndex(l) + |l.entries| + 1
  {
    var l' := Overwritten(l, es);
    if hard.Some? then l'.(hard := hard.value) else l'
  }

  /** Any front of a disciplined batch replays to a good log. */
  lemma FoldBatch(l: Log, es: seq<Entry>, hard: Option<HardState>, k: nat)
    requires Good(l) && Disciplined(l, es, hard) && k <= |Records(es, hard)|
    ensures var es' := if k <= |es| then es[..k] else es;
            var hard' := if k <= |es| then None else hard;
            && Disciplined(l, es', hard')
            && FoldedAll(l, Records(es, hard)[..k]) == Some(Persisted(l, es', hard')) && Good(Persisted(l, es', hard'))
  {
    hide Folded, Overwritten;
    var es', hard' := if k <= |es| then es[..k] else es, if k <= |es| then None else hard;
    assert Disciplined(l, es', None);
    FoldEntries(l, es');
    OverwrittenGood(l, es');
    if k <= |es| {
      assert Records(es, hard)[..k] == Items(es');
    } else {
      assert Records(es, hard)[..k] == Items(es) + [Hard(hard.value)];
      FoldConcat(l, Items(es), [Hard(hard.value)]);
      FoldHard(Overwritten(l, es), hard.value);
      HardGood(l, es, hard.value);
    }
  }

  lemma DisciplinedFits(l: Log, es: seq<Entry>, hard: Option<HardState>)
    requires Good(l) && Disciplined(l, es, hard)
    ensures es != [] ==> SnapIndex(l) < es[0].index <= SnapIndex(l) + |l.entries| + 1
  {}

  lemma FoldHard(l: Log, h: HardState)
    ensures FoldedAll(l, [Hard(h)]) == Some(l.(hard := h))
  {
    assert [Hard(h)][1..] == [];
  }

  lemma HardGood(l: Log, es: seq<Entry>, h: HardState)
    requires Good(l) && Disciplined(l, es, Some(h))
    ensures Good(Overwritten(l, es).(hard := h))
  {}

  lemma GoodCloses(l: Log)
    requires Good(l)
    ensures Closed(l) == Some(l)
  {
    AboveAll(l.entries, SnapIndex(l), SnapIndex(l));
  }

  // --- crashes -----------------------------------------------------------------------------------

  /**
   For any cut of an unsynced append, reopening recovers exactly the whole records: overwritten
   suffixes are dropped, indices are contiguous, the commit index is within the log, and the file
   is cut behind the last whole record.
   */
  lemma CutRecovers(c: Codec, xs: seq<Item>, l: Log, es: seq<Entry>, hard: Option<HardState>, cut: nat)
    requires Faithful(c) && Small(c, xs) && Small(c, Records(es, hard))
    requires FoldedAll(EMPTY, xs) == Some(l) && Good(l) && Disciplined(l, es, hard)
    requires cut <= |StreamBytes(c, Records(es, hard))|
    ensures var ys := Records(es, hard);
            var k := Whole(c, ys, cut);
            var es' := if k <= |es| then es[..k] else es;
            var hard' := if k <= |es| then None else hard;
            && Disciplined(l, es', hard') && Good(Persisted(l, es', hard'))
            && Reopen(c, HEADER + StreamBytes(c, xs) + StreamBytes(c, ys)[..cut]) ==
                 Reopened(Persisted(l, es', hard'), HEADER + StreamBytes(c, xs + ys[..k]))
            && (cut == |StreamBytes(c, ys)| ==> k == |ys|)
  {
    hide Scanned, Whole, StreamBytes, Faithful, FoldedAll, Closed, Records, Good, Persisted;
    var ys := Records(es, hard);
    var k := Whole(c, ys, cut);
    var es', hard' := if k <= |es| then es[..k] else es, if k <= |es| then None else hard;
    CutScan(c, ys, cut);
    FoldBatch(l, es, hard, k);
    DisciplinedFits(l, es', hard');
    FoldConcat(EMPTY, xs, ys[..k]);
    GoodCloses(Persisted(l, es', hard'));
    StreamConcat(c, xs, ys[..k]);
    var file := HEADER + StreamBytes(c, xs) + StreamBytes(c, ys)[..cut];
    ScanBoth(c, xs, ys, cut);
    assert file[..|HEADER|] == HEADER;
    assert file[|HEADER|..] == StreamBytes(c, xs) + StreamBytes(c, ys)[..cut];
    var n := |StreamBytes(c, xs + ys[..k])|;
    assert StreamBytes(c, ys)[..cut][..n - |StreamBytes(c, xs)|] == StreamBytes(c, ys[..k]);
    assert file[..|HEADER| + n] == HEADER + (StreamBytes(c, xs) + StreamBytes(c, ys)[..cut])[..n];
    assert (StreamBytes(c, xs) + StreamBytes(c, ys)[..cut])[..n] == StreamBytes(c, xs) + StreamBytes(c, ys[..k]);
  }

  lemma {:induction false} ScanBoth(c: Codec, xs: seq<Item>, ys: seq<Item>, cut: nat)
    requires Faithful(c) && Small(c, xs) && Small(c, ys) && cut <= |StreamBytes(c, ys)|
    ensures var k := Whole(c, ys, cut);
            Scanned(c, StreamBytes(c, xs) + StreamBytes(c, ys)[..cut]) ==
              Scan(xs + ys[..k], |StreamBytes(c, xs + ys[..k])|)
    decreases |xs|
  {
    hide ItemBytes, Scanned, Faithful, Whole, StreamBytes;
    var k := Whole(c, ys, cut);
    var tail := StreamBytes(c, ys)[..cut];
    if xs == [] {
      CutScan(c, ys, cut);
      StreamNothing(c);
      assert [] + tail == tail && xs + ys[..k] == ys[..k];
    } else {
      ScanBoth(c, xs[1..], ys, cut);
      var rest := StreamBytes(c, xs[1..]) + tail;
      ScanStep(c, xs[0], rest);
      StreamFront(c, xs);
      assert ItemBytes(c, xs[0]) + StreamBytes(c, xs[1..]) + tail == ItemBytes(c, xs[0]) + rest;
      var all := xs + ys[..k];
      assert all[1..] == xs[1..] + ys[..k] && all == [xs[0]] + all[1..];
      StreamFront(c, all);
    }
  }

  lemma StreamNothing(c: Codec)
    ensures StreamBytes(c, []) == []
  {}

  lemma StreamFront(c: Codec, xs: seq<Item>)
    requires xs != []
    ensures StreamBytes(c, xs) == ItemBytes(c, xs[0]) + StreamBytes(c, xs[1..])
  {}

  // --- compaction --------------------------------------------------------------------------------

  /** The log with everything up to a snapshot folded into it. */
  function Compacted(l: Log, s: Snap): Log
    requires SnapIndex(l) <= s.index <= SnapIndex(l) + |l.entries|
  {
    l.(entries := l.entries[s.index - SnapIndex(l)..], snap := Some(s))
  }

  /** The records a compaction rewrites the file to: snapshot, surviving tail, hard state. */
  function CompactRecords(l: Log, s: Snap): seq<Item>
    requires SnapIndex(l) <= s.index <= SnapIndex(l) + |l.entries|
  {
    [Shot(s)] + Items(Compacted(l, s).entries) + if l.hard != NO_STATE then [Hard(l.hard)] else []
  }

  lemma CompactFolds(l: Log, s: Snap)
    requires Good(l) && SnapIndex(l) < s.index <= l.hard.commit
    ensures FoldedAll(EMPTY, CompactRecords(l, s)) == Some(Compacted(l, s)) && Good(Compacted(l, s))
  {
    hide FoldedAll, Overwritten;
    var tail := Compacted(l, s).entries;
    var l0 := Log([], NO_STATE, Some(s));
    FoldShot(s);
    assert forall j :: 0 <= j < |tail| ==> tail[j] == l.entries[s.index - SnapIndex(l) + j];
    assert Attaches(l0, tail);
    FoldEntries(l0, tail);
    OntoEmpty(l0, tail);
    var l1 := l0.(entries := tail);
    FoldConcat(EMPTY, [Shot(s)], Items(tail));
    FoldConcat(EMPTY, [Shot(s)] + Items(tail), [Hard(l.hard)]);
    FoldHard(l1, l.hard);
  }

  lemma FoldShot(s: Snap)
    ensures FoldedAll(EMPTY, [Shot(s)]) == Some(Log([], NO_STATE, Some(s)))
  {
    assert [Shot(s)][1..] == [];
  }

  lemma OntoEmpty(l: Log, es: seq<Entry>)
    requires l.entries == [] && Attaches(l, es)
    ensures Overwritten(l, es) == l.(entries := es)
  {
    assert es != [] ==> l.entries[..es[0].index - SnapIndex(l) - 1] + es == es;
  }

  /** Committed application entries above the snapshot, delivered again after a restart. */
  function Deliverable(es: seq<Entry>, above: u64, commit: u64): seq<Entry> {
    if es == [] then []
    else
      var rest := Deliverable(es[1..], above, commit);
      if above < es[0].index <= commit && es[0].normal && es[0].data != [] then [es[0]] + rest else rest
  }

  function Redelivered(l: Log): seq<Entry> {
    Deliverable(l.entries, SnapIndex(l), l.hard.commit)
  }

  lemma {:induction false} DeliverableAbove(es: seq<Entry>, base: nat, above: u64, k: u64, commit: u64)
    requires Contiguous(es, base) && above <= k
    ensures Above(Deliverable(es, above, commit), k) == Deliverable(es, k, commit)
    decreases |es|
  {
    if es != [] {
      assert Contiguous(es[1..], base + 1) by {
        assert forall j :: 0 <= j < |es| - 1 ==> es[1..][j] == es[j + 1];
      }
      DeliverableAbove(es[1..], base + 1, above, k, commit);
    }
  }

  lemma {:induction false} DeliverableDrops(es: seq<Entry>, base: nat, k: u64, commit: u64)
    requires Contiguous(es, base) && base <= k <= base + |es|
    ensures Deliverable(es, k, commit) == Deliverable(es[k - base..], k, commit)
    decreases |es|
  {
    if es != [] && base < k {
      assert Contiguous(es[1..], base + 1) by {
        assert forall j :: 0 <= j < |es| - 1 ==> es[1..][j] == es[j + 1];
      }
      DeliverableDrops(es[1..], base + 1, k, commit);
      assert es[1..][k - base - 1..] == es[k - base..];
    }
  }

  /** What is delivered again: the committed application entries above the snapshot that carry data, and no others. */
  lemma {:induction false} DeliveredExactly(es: seq<Entry>, above: u64, commit: u64, e: Entry)
    ensures e in Deliverable(es, above, commit) <==>
              e in es && above < e.index <= commit && e.normal && e.data != []
  {
    if es != [] {
      DeliveredExactly(es[1..], above, commit, e);
      assert e in es <==> e == es[0] || e in es[1..];
    }
  }

  ghost predicate IndexOrder(es: seq<Entry>) {
    forall j, k :: 0 <= j < k < |es| ==> es[j].index < es[k].index
  }

  /** From a log without gaps they come in the order of their indices, each once. */
  lemma {:induction false} DeliveredInOrder(es: seq<Entry>, base: nat, above: u64, commit: u64)
    requires Contiguous(es, base)
    ensures IndexOrder(Deliverable(es, above, commit))
    decreases |es|
  {
    hide IndexOrder;
    if es == [] {
      NothingInOrder();
    } else {
      assert forall j :: 0 <= j < |es| - 1 ==> es[1..][j] == es[j + 1];
      var rest := Deliverable(es[1..], above, commit);
      DeliveredInOrder(es[1..], base + 1, above, commit);
      forall k | 0 <= k < |rest| ensures rest[k].index > base + 1 {
        LaterIndex(es[1..], base + 1, above, commit, rest[k]);
      }
      FirstInOrder(es[0], rest);
    }
  }

  lemma LaterIndex(es: seq<Entry>, base: nat, above: u64, commit: u64, e: Entry)
    requires Contiguous(es, base) && e in Deliverable(es, above, commit)
    ensures e.index > base
  {
    hide Deliverable;
    DeliveredExactly(es, above, commit, e);
  }

  lemma NothingInOrder()
    ensures IndexOrder([])
  {}

  lemma FirstInOrder(e: Entry, rest: seq<Entry>)
    requires IndexOrder(rest) && forall k :: 0 <= k < |rest| ==> rest[k].index > e.index
    ensures IndexOrder([e] + rest)
  {}

  // --- whatever the file holds ------------------------------------------------------------------------------

  /** Each entry follows the one before it. */
  ghost predicate Gapless(es: seq<Entry>) {
    forall j :: 0 <= j < |es| - 1 ==> es[j + 1].index == es[j].index + 1
  }

  lemma {:induction false} BelowIsFront(es: seq<Entry>, index: u64)
    ensures var n := |Below(es, index)|; n <= |es| && Below(es, index) == es[..n]
  {
    if es != [] && es[0].index < index {
      BelowIsFront(es[1..], index);
      var n := |Below(es[1..], index)|;
      assert es[..n + 1] == [es[0]] + es[1..][..n];
    } else {
      assert es[..0] == [];
    }
  }

  lemma AppendedGapless(es: seq<Entry>, e: Entry)
    requires Gapless(es)
    ensures Appended(es, e).Some? ==> Gapless(Appended(es, e).value)
  {
    hide Below;
    BelowIsFront(es, e.index);
  }

  /** Behind an entry above the index there are only more of them. */
  lemma {:induction false} FollowersAbove(es: seq<Entry>, index: u64)
    requires Gapless(es) && es != [] && es[0].index > index
    ensures Above(es, index) == es
  {
    if |es| > 1 {
      assert forall j :: 0 <= j < |es| - 1 ==> es[1..][j] == es[j + 1];
      assert es[1].index == es[0].index + 1;
      FollowersAbove(es[1..], index);
    }
  }

  lemma {:induction false} AboveGapless(es: seq<Entry>, index: u64)
    requires Gapless(es)
    ensures Gapless(Above(es, index))
  {
    if es != [] {
      if es[0].index > index {
        FollowersAbove(es, index);
      } else {
        assert forall j :: 0 <= j < |es| - 1 ==> es[1..][j] == es[j + 1];
        AboveGapless(es[1..], index);
      }
    }
  }

  lemma {:induction false} AboveAre(es: seq<Entry>, index: u64)
    ensures forall k :: 0 <= k < |Above(es, index)| ==> Above(es, index)[k].index > index
  {
    if es != [] {
      AboveAre(es[1..], index);
    }
  }

  lemma {:induction false} FoldedGapless(l: Log, xs: seq<Item>)
    requires Gapless(l.entries)
    ensures FoldedAll(l, xs).Some? ==> Gapless(FoldedAll(l, xs).value.entries)
    decreases |xs|
  {
    hide Appended, Above, Gapless;
    if xs != [] {
      if xs[0].Ent? {
        AppendedGapless(l.entries, xs[0].entry);
      } else if xs[0].Shot? {
        AboveGapless(l.entries, xs[0].snap.index);
      }
      var l' := Folded(l, xs[0]);
      if l'.Some? {
        FoldedGapless(l'.value, xs[1..]);
      }
    }
  }

  /**
   Whatever bytes a file holds: a log that reopens has no gap between its entries, none of them at or
   below its snapshot, and its commit index is within it.
   */
  lemma ReopenedIsFit(c: Codec, file: seq<byte>)
    ensures var r := Reopen(c, file);
            r.Reopened? ==>
              && Gapless(r.log.entries) && r.log.hard.commit <= LastIndex(r.log)
              && (r.log.snap.Some? ==>
                    forall k :: 0 <= k < |r.log.entries| ==> r.log.entries[k].index > r.log.snap.value.index)
  {
    hide FoldedAll, Scanned, Above, Gapless;
    NothingGapless();
    if |file| >= |HEADER| && Scanned(c, file[|HEADER|..]).Scan? {
      var xs := Scanned(c, file[|HEADER|..]).items;
      FoldedGapless(EMPTY, xs);
      var l := FoldedAll(EMPTY, xs);
      if l.Some? && l.value.snap.Some? {
        AboveGapless(l.value.entries, l.value.snap.value.index);
        AboveAre(l.value.entries, l.value.snap.value.index);
      }
    }
  }

  lemma NothingGapless()
    ensures Gapless([])
  {}

  /**
   Compacting at `k` and reopening recovers the same hard state, the snapshot, and exactly the
   committed commands above `k` that would have been delivered again before.
   */
  lemma CompactionRecovers(c: Codec, l: Log, s: Snap)
    requires Faithful(c) && Good(l) && SnapIndex(l) < s.index <= l.hard.commit && Small(c, CompactRecords(l, s))
    ensures var file := HEADER + StreamBytes(c, CompactRecords(l, s));
            && Reopen(c, file) == Reopened(Compacted(l, s), file)
            && Compacted(l, s).hard == l.hard && Compacted(l, s).snap == Some(s)
            && Redelivered(Compacted(l, s)) == Above(Redelivered(l), s.index)
  {
    hide FoldedAll, Closed, StreamBytes, Scanned, Faithful, CompactRecords, Deliverable;
    var xs, l' := CompactRecords(l, s), Compacted(l, s);
    CompactFolds(l, s);
    WholeFile(c, xs, l');
    DeliverableAbove(l.entries, SnapIndex(l), SnapIndex(l), s.index, l.hard.commit);
    DeliverableDrops(l.entries, SnapIndex(l), s.index, l.hard.commit);
  }

  /** A file of whole records reopens to what they replay to. */
  lemma WholeFile(c: Codec, xs: seq<Item>, l: Log)
    requires Faithful(c) && Small(c, xs) && FoldedAll(EMPTY, xs) == Some(l) && Good(l)
    ensures Reopen(c, HEADER + StreamBytes(c, xs)) == Reopened(l, HEADER + StreamBytes(c, xs))
  {
    hide FoldedAll, StreamBytes, Scanned, Faithful, Good, Closed, Whole;
    var body := StreamBytes(c, xs);
    CutScan(c, xs, |body|);
    GoodCloses(l);
    assert body[..|body|] == body && xs[..|xs|] == xs;
    assert (HEADER + body)[..|HEADER|] == HEADER && (HEADER + body)[|HEADER|..] == body;
    assert (HEADER + body)[..|HEADER| + |body|] == HEADER + body;
  }

  // --- a member over time ------------------------------------------------------------------------

  /** The log in memory, whose commit index may run ahead, and the records in the synced file. */
  datatype Member = Member(mem: Log, items: seq<Item>)

  datatype Act =
    | Persist(entries: seq<Entry>, hard: Option<HardState>)
    | Advance(commit: u64)
    | Compact(snap: Snap)
    | Crash(lost: seq<Entry>, lostHard: Option<HardState>, cut: nat)

  /** One step; a crash strikes while a batch is being appended and is followed by a reopen. */
  ghost predicate Next(c: Codec, m: Member, act: Act, m': Member) {
    match act
    case Persist(es, hard) =>
      && Good(m.mem) && Disciplined(m.mem, es, hard) && Small(c, Records(es, hard))
      && m' == Member(Persisted(m.mem, es, hard), m.items + Records(es, hard))
    case Advance(commit) =>
      && m.mem.hard.commit <= commit <= SnapIndex(m.mem) + |m.mem.entries|
      && m' == m.(mem := m.mem.(hard := m.mem.hard.(commit := commit)))
    case Compact(s) =>
      && Good(m.mem) && SnapIndex(m.mem) < s.index <= m.mem.hard.commit && Small(c, CompactRecords(m.mem, s))
      && m' == Member(Compacted(m.mem, s), CompactRecords(m.mem, s))
    case Crash(es, hard, cut) =>
      var ys := Records(es, hard);
      && Disciplined(m.mem, es, hard) && Small(c, ys) && cut <= |StreamBytes(c, ys)|
      && var r := Reopen(c, HEADER + StreamBytes(c, m.items) + StreamBytes(c, ys)[..cut]);
         r.Reopened? && m'.mem == r.log && r.file == HEADER + StreamBytes(c, m'.items)
           && m'.items == m.items + ys[..Whole(c, ys, cut)]
  }

  /** Memory and file agree, but for a commit index that is ahead in memory. */
  ghost predicate Agree(mem: Log, d: Log) {
    && mem.entries == d.entries && mem.snap == d.snap && d.hard.commit <= mem.hard.commit
    && mem.hard == d.hard.(commit := mem.hard.commit)
  }

  ghost predicate Inv(c: Codec, m: Member) {
    && Small(c, m.items) && Good(m.mem)
    && FoldedAll(EMPTY, m.items).Some? && Good(FoldedAll(EMPTY, m.items).value)
    && Agree(m.mem, FoldedAll(EMPTY, m.items).value)
  }

  lemma AgreeDisciplined(mem: Log, d: Log, es: seq<Entry>, hard: Option<HardState>)
    requires Good(mem) && Good(d) && Agree(mem, d) && Disciplined(mem, es, hard)
    ensures Disciplined(d, es, hard) && Agree(Persisted(mem, es, hard), Persisted(d, es, hard))
  {}

  lemma PersistKeeps(c: Codec, m: Member, es: seq<Entry>, hard: Option<HardState>, m': Member)
    requires Inv(c, m) && Next(c, m, Persist(es, hard), m')
    ensures Inv(c, m')
  {
    hide FoldedAll, Persisted, Disciplined, Good, Records, Agree;
    var d := FoldedAll(EMPTY, m.items).value;
    var ys := Records(es, hard);
    AgreeDisciplined(m.mem, d, es, hard);
    BatchFolds(m.mem, es, hard);
    BatchFolds(d, es, hard);
    FoldConcat(EMPTY, m.items, ys);
  }

  lemma BatchFolds(l: Log, es: seq<Entry>, hard: Option<HardState>)
    requires Good(l) && Disciplined(l, es, hard)
    ensures es != [] ==> SnapIndex(l) < es[0].index <= SnapIndex(l) + |l.entries| + 1
    ensures FoldedAll(l, Records(es, hard)) == Some(Persisted(l, es, hard)) && Good(Persisted(l, es, hard))
  {
    hide FoldedAll, Persisted, Good;
    var n := |Records(es, hard)|;
    DisciplinedFits(l, es, hard);
    FoldBatch(l, es, hard, n);
    assert Records(es, hard)[..n] == Records(es, hard);
    assert es[..|es|] == es;
  }

  lemma CrashKeeps(c: Codec, m: Member, es: seq<Entry>, hard: Option<HardState>, cut: nat, m': Member)
    requires Faithful(c) && Inv(c, m) && Next(c, m, Crash(es, hard, cut), m')
    ensures Inv(c, m')
  {
    hide FoldedAll, Persisted, Disciplined, Good, Records, StreamBytes, Reopen, Whole, Faithful;
    var d := FoldedAll(EMPTY, m.items).value;
    AgreeDisciplined(m.mem, d, es, hard);
    CutRecovers(c, m.items, d, es, hard, cut);
    var ys := Records(es, hard);
    var k := Whole(c, ys, cut);
    FoldBatch(d, es, hard, k);
    FoldConcat(EMPTY, m.items, ys[..k]);
  }

  lemma NextKeeps(c: Codec, m: Member, act: Act, m': Member)
    requires Faithful(c) && Inv(c, m) && Next(c, m, act, m')
    ensures Inv(c, m')
  {
    hide FoldedAll, Persisted, Disciplined, Records, StreamBytes, Reopen, Whole, Faithful, CompactRecords;
    match act
    case Persist(es, hard) =>
      PersistKeeps(c, m, es, hard, m');
    case Advance(commit) =>
    case Compact(s) =>
      CompactFolds(m.mem, s);
    case Crash(es, hard, cut) =>
      CrashKeeps(c, m, es, hard, cut, m');
  }

  ghost predicate Run(c: Codec, acts: seq<Act>, states: seq<Member>) {
    && |states| == |acts| + 1
    && states[0] == Member(EMPTY, [])
    && forall k :: 0 <= k < |acts| ==> Next(c, states[k], acts[k], states[k + 1])
  }

  lemma {:induction false} RunInv(c: Codec, acts: seq<Act>, states: seq<Member>, k: nat)
    requires Faithful(c) && Run(c, acts, states) && k < |states|
    ensures Inv(c, states[k])
    decreases k
  {
    hide Inv, Next, Faithful;
    if k == 0 {
      InitialInv(c);
    } else {
      RunInv(c, acts, states, k - 1);
      NextKeeps(c, states[k - 1], acts[k - 1], states[k]);
    }
  }

  lemma InitialInv(c: Codec)
    ensures Inv(c, Member(EMPTY, []))
  {}

  /**
   In every state of every run of appends, commit advances, compactions and crashes, the file
   reopens to the entries and the snapshot held in memory, with the same term and vote and a
   commit index not past the one in memory, indices contiguous and the commit within the log.
   */
  lemma EveryRunReopens(c: Codec, acts: seq<Act>, states: seq<Member>, k: nat)
    requires Faithful(c) && Run(c, acts, states) && k < |states|
    ensures var m := states[k];
            var r := Reopen(c, HEADER + StreamBytes(c, m.items));
            && r.Reopened? && r.file == HEADER + StreamBytes(c, m.items)
            && Good(r.log) && Agree(m.mem, r.log)
  {
    hide Reopen, StreamBytes, FoldedAll, Good, Faithful, Run;
    RunInv(c, acts, states, k);
    var m := states[k];
    WholeFile(c, m.items, FoldedAll(EMPTY, m.items).value);
  }

  // --- the recovery loop -------------------------------------------------------------------------

  /** Reading the file record by record, cutting a torn tail. */
  method Open(c: Codec, file: seq<byte>) returns (r: Reopened)
    ensures r == Reopen(c, file)
  {
    hide PieceAt, Folded, FoldedAll, Closed, Scanned, ReadSoFar;
    if |file| < |HEADER| {
      return Reopened(EMPTY, HEADER);
    }
    if file[..|HEADER|] != HEADER {
      return Failed;
    }
    var pos, log := |HEADER|, EMPTY;
    ghost var body, items := file[|HEADER|..], [];
    ReadNothing(c, body);
    while true
      invariant |HEADER| <= pos <= |file| && FoldedAll(EMPTY, items) == Some(log)
      invariant ReadSoFar(c, body, items, pos - |HEADER|)
      decreases |file| - pos
    {
      var piece := PieceAt(c, file[pos..]);
      assert file[pos..] == body[pos - |HEADER|..];
      ReadPiece(c, body, items, pos - |HEADER|, piece);
      match piece
      case Short =>
        break;
      case Bad =>
        return Failed;
      case Piece(x, n) =>
        var log' := Folded(log, x);
        FoldOne(items, log, x);
        items := items + [x];
        if log'.None? {
          ReadGap(c, body, items, pos - |HEADER| + n);
          return Failed;
        }
        pos, log := pos + n, log'.value;
    }
    var closed := Closed(log);
    return if closed.None? then Failed else Reopened(closed.value, file[..pos]);
  }

  /** The scan of a body is the items read so far followed by the scan from here. */
  ghost predicate ReadSoFar(c: Codec, body: seq<byte>, items: seq<Item>, n: nat) {
    && n <= |body|
    && var r := Scanned(c, body[n..]);
       Scanned(c, body) == if r.Corrupt? then Corrupt else Scan(items + r.items, n + r.bytes)
  }

  lemma ReadNothing(c: Codec, body: seq<byte>)
    ensures ReadSoFar(c, body, [], 0) && FoldedAll(EMPTY, []) == Some(EMPTY)
  {
    hide Scanned;
    assert body[0..] == body;
    var r := Scanned(c, body);
    assert r.Scan? ==> [] + r.items == r.items;
  }

  /** What one more piece means for the scan of the whole body. */
  lemma ReadPiece(c: Codec, body: seq<byte>, items: seq<Item>, n: nat, piece: Piece)
    requires ReadSoFar(c, body, items, n) && piece == PieceAt(c, body[n..])
    ensures match piece
            case Short => Scanned(c, body) == Scan(items, n)
            case Bad => Scanned(c, body).Corrupt?
            case Piece(x, k) => ReadSoFar(c, body, items + [x], n + k)
  {
    hide PieceAt;
    match piece
    case Short =>
      assert items + [] == items;
    case Bad =>
    case Piece(x, k) =>
      assert body[n + k..] == body[n..][k..];
      Appending(items, x, Scanned(c, body[n + k..]));
  }

  lemma Appending(items: seq<Item>, x: Item, r: Scan)
    ensures r.Scan? ==> items + ([x] + r.items) == items + [x] + r.items
  {}

  lemma FoldOne(items: seq<Item>, l: Log, x: Item)
    requires FoldedAll(EMPTY, items) == Some(l)
    ensures FoldedAll(EMPTY, items + [x]) == Folded(l, x)
  {
    hide Folded;
    FoldConcat(EMPTY, items, [x]);
    assert [x][1..] == [];
  }

  lemma ReadGap(c: Codec, body: seq<byte>, items: seq<Item>, n: nat)
    requires ReadSoFar(c, body, items, n) && FoldedAll(EMPTY, items).None?
    ensures var r := Scanned(c, body); r.Corrupt? || FoldedAll(EMPTY, r.items).None?
  {
    hide FoldedAll, Scanned;
    var r := Scanned(c, body[n..]);
    if r.Scan? {
      FoldConcat(EMPTY, items, r.items);
    }
  }

  // --- records that are too large --------------------------------------------------------------------------------

  /** Every record can be written. */
  ghost predicate Writable(c: Codec, xs: seq<Item>) {
    forall k :: 0 <= k < |xs| ==> |c.encode(xs[k])| <= 0xFFFF_FFFF
  }

  lemma LargeIsBad(c: Codec, x: Item, rest: seq<byte>)
    requires MAX_PAYLOAD < |c.encode(x)| <= 0xFFFF_FFFF
    ensures PieceAt(c, ItemBytes(c, x) + rest).Bad?
  {
    hide Le32, FromLe32, Fnv, Intact;
    var payload := c.encode(x);
    var body := [Kind(x)] + Le32(|payload|) + payload;
    var b := Sealed(body) + rest;
    assert Sealed(body)[..|body|] == body;
    assert b[1..5] == body[1..5] == Le32(|payload|);
    RoundTrip32(|payload|);
  }

  /** A written stream is read back exactly when no payload is above what the reader accepts. */
  lemma {:induction false} ReadsBackExactly(c: Codec, xs: seq<Item>)
    requires Faithful(c) && Writable(c, xs)
    ensures Scanned(c, StreamBytes(c, xs)).Scan? <==> Small(c, xs)
    ensures Small(c, xs) ==> Scanned(c, StreamBytes(c, xs)) == Scan(xs, |StreamBytes(c, xs)|)
    decreases |xs|
  {
    hide ItemBytes, PieceAt, Faithful;
    if xs == [] {
      EmptyScan(c);
    } else {
      var x, rest := xs[0], StreamBytes(c, xs[1..]);
      ReadsBackExactly(c, xs[1..]);
      if |c.encode(x)| <= MAX_PAYLOAD {
        ScanStep(c, x, rest);
        assert Small(c, xs) <==> Small(c, xs[1..]) by {
          assert forall k :: 1 <= k < |xs| ==> xs[k] == xs[1..][k - 1];
        }
        assert [x] + xs[1..] == xs;
      } else {
        LargeIsBad(c, x, rest);
      }
    }
  }

  lemma EmptyScan(c: Codec)
    ensures Scanned(c, []) == Scan([], 0)
  {}

  /** The file of a good log reopens exactly when every payload is within the reader's limit. */
  lemma ReopensExactly(c: Codec, xs: seq<Item>, l: Log)
    requires Faithful(c) && Writable(c, xs) && FoldedAll(EMPTY, xs) == Some(l) && Good(l)
    ensures Reopen(c, HEADER + StreamBytes(c, xs)).Reopened? <==> Small(c, xs)
  {
    hide Scanned, StreamBytes, Faithful, Small, Writable, FoldedAll, Good, Closed;
    var file := HEADER + StreamBytes(c, xs);
    assert file[..|HEADER|] == HEADER && file[|HEADER|..] == StreamBytes(c, xs);
    ReadsBackExactly(c, xs);
    if Small(c, xs) {
      WholeFile(c, xs, l);
    }
  }
}
