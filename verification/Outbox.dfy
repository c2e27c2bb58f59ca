/** The segment files of the execution outbox: records, trimming, opening. */
module Outboxes {
  import opened Types
  import opened Bytes
  import opened Checksums
  import opened Processing
  import opened ReportFrames

  const RECORD_LEN: nat := 80
  /** "TCEX" and the format version */
  const HEADER: seq<byte> := [84, 67, 69, 88, 1, 0, 0, 0]

  /** A batch as it was rendered when it was applied. */
  datatype Entry = Entry(index: u64, out: seq<ExecReport>)

  // --- records ----------------------------------------------------------------------------------------

  function RecordBytes(group: u32, index: u64, ordinal: u32, frame: Frame): (s: seq<byte>)
    ensures |s| == RECORD_LEN
  {
    Sealed(Le32(group) + Le64(index) + Le32(ordinal) + frame)
  }

  function IndexOf(record: seq<byte>): u64
    requires |record| == RECORD_LEN
  {
    FromLe64(record[4..12])
  }

  lemma RecordReads(group: u32, index: u64, ordinal: u32, frame: Frame)
    ensures var s := RecordBytes(group, index, ordinal, frame); Intact(s) && IndexOf(s) == index
  {
    hide Le32, Le64, FromLe64, Intact, Fnv;
    var body := Le32(group) + Le64(index) + Le32(ordinal) + frame;
    SealedIsIntact(body);
    var s := Sealed(body);
    assert s[4..12] == s[..|body|][4..12] == Le64(index);
    RoundTrip64(index);
  }

  function Ordinal(k: nat): u32 {
    if k <= 0xFFFF_FFFF then k else 0xFFFF_FFFF
  }

  /** The records of a batch from its `k`-th report on. */
  function BatchBytes(group: u32, b: Entry, k: nat): seq<byte>
    requires k <= |b.out|
    decreases |b.out| - k
  {
    if k == |b.out| then []
    else RecordBytes(group, b.index, Ordinal(k), FrameOf(b.out[k])) + BatchBytes(group, b, k + 1)
  }

  /** The records of a list of applied batches. */
  function LogBytes(group: u32, log: seq<Entry>): seq<byte> {
    if log == [] then [] else LogBytes(group, log[..|log| - 1]) + BatchBytes(group, log[|log| - 1], 0)
  }

  // --- trimming ------------------------------------------------------------------------------------------

  /** How many bytes of whole, intact records with an index up to `limit` a body starts with. */
  function Kept(body: seq<byte>, limit: Option<u64>): (n: nat)
    ensures n <= |body|
    decreases |body|
  {
    if |body| < RECORD_LEN then 0
    else
      var record := body[..RECORD_LEN];
      if !Intact(record) || limit.None? || IndexOf(record) > limit.value then 0
      else RECORD_LEN + Kept(body[RECORD_LEN..], limit)
  }

  datatype Trimmed = Bad | Trimmed(file: seq<byte>)

  /** What recovery makes of the newest segment file. */
  function Trim(file: seq<byte>, limit: Option<u64>): Trimmed {
    if |file| < |HEADER| then Trimmed(file)
    else if file[..|HEADER|] != HEADER then Bad
    else Trimmed(file[..|HEADER| + Kept(file[|HEADER|..], limit)])
  }

  /** The trimming loop: read record by record, then cut the file. */
  method TruncateAfterApplied(file: seq<byte>, limit: Option<u64>) returns (r: Trimmed)
    ensures r == Trim(file, limit)
  {
    hide Intact, IndexOf;
    if |file| < |HEADER| {
      return Trimmed(file);
    }
    if file[..|HEADER|] != HEADER {
      return Bad;
    }
    var keep := |HEADER|;
    ghost var body := file[|HEADER|..];
    while keep + RECORD_LEN <= |file|
      invariant |HEADER| <= keep <= |file|
      invariant |HEADER| + Kept(body, limit) == keep + Kept(file[keep..], limit)
    {
      var record := file[keep..keep + RECORD_LEN];
      assert file[keep..][..RECORD_LEN] == record;
      if !Intact(record) || limit.None? || IndexOf(record) > limit.value {
        break;
      }
      assert file[keep..][RECORD_LEN..] == file[keep + RECORD_LEN..];
      keep := keep + RECORD_LEN;
    }
    return Trimmed(file[..keep]);
  }

  /** Whole records within the limit are kept, and trimming goes on behind them. */
  lemma {:induction false} KeptBatch(group: u32, b: Entry, k: nat, rest: seq<byte>, limit: u64)
    requires k <= |b.out| && b.index <= limit
    ensures Kept(BatchBytes(group, b, k) + rest, Some(limit)) == |BatchBytes(group, b, k)| + Kept(rest, Some(limit))
    decreases |b.out| - k
  {
    hide Intact, IndexOf, RecordBytes, FrameOf;
    if k == |b.out| {
      assert BatchBytes(group, b, k) + rest == rest;
    } else {
      var record := RecordBytes(group, b.index, Ordinal(k), FrameOf(b.out[k]));
      var body := BatchBytes(group, b, k) + rest;
      RecordReads(group, b.index, Ordinal(k), FrameOf(b.out[k]));
      assert body[..RECORD_LEN] == record && body[RECORD_LEN..] == BatchBytes(group, b, k + 1) + rest;
      KeptBatch(group, b, k + 1, rest, limit);
    }
  }

  lemma {:induction false} KeptLog(group: u32, log: seq<Entry>, rest: seq<byte>, limit: u64)
    requires forall k :: 0 <= k < |log| ==> log[k].index <= limit
    ensures Kept(LogBytes(group, log) + rest, Some(limit)) == |LogBytes(group, log)| + Kept(rest, Some(limit))
    decreases |log|
  {
    hide Kept, BatchBytes;
    if log == [] {
      assert LogBytes(group, log) + rest == rest;
    } else {
      var front, last := log[..|log| - 1], log[|log| - 1];
      assert LogBytes(group, log) + rest == LogBytes(group, front) + (BatchBytes(group, last, 0) + rest);
      KeptLog(group, front, BatchBytes(group, last, 0) + rest, limit);
      KeptBatch(group, last, 0, rest, limit);
    }
  }

  /** Nothing is kept of a batch past the limit, wherever its bytes are cut. */
  lemma KeptNothing(group: u32, b: Entry, cut: nat, limit: Option<u64>)
    requires cut <= |BatchBytes(group, b, 0)| && (limit.Some? ==> limit.value < b.index)
    ensures Kept(BatchBytes(group, b, 0)[..cut], limit) == 0
  {
    hide Intact, IndexOf, RecordBytes, FrameOf;
    var body := BatchBytes(group, b, 0)[..cut];
    if cut >= RECORD_LEN {
      RecordReads(group, b.index, Ordinal(0), FrameOf(b.out[0]));
      assert body[..RECORD_LEN] == BatchBytes(group, b, 0)[..RECORD_LEN] ==
             RecordBytes(group, b.index, Ordinal(0), FrameOf(b.out[0]));
    }
  }

  // --- opening a segment ------------------------------------------------------------------------------------

  /** Opening a segment for appending: an empty file gets its header, a present header must match. */
  function OpenSegment(file: seq<byte>): Option<seq<byte>> {
    if file == [] then Some(HEADER)
    else if |file| < |HEADER| || file[..|HEADER|] != HEADER then None
    else Some(file)
  }

  /** A header cut short reopens exactly when none or all of it is there. */
  lemma HeaderReopens(cut: nat)
    requires cut <= |HEADER|
    ensures OpenSegment(HEADER[..cut]) == if 0 < cut < |HEADER| then None else Some(HEADER)
  {
    assert cut == |HEADER| ==> HEADER[..cut] == HEADER;
  }
}
