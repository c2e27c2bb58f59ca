/** Reading the outbox back: records, report frames, and the reports they stand for. */
module OutboxReaders {
  import opened Types
  import opened Bytes
  import opened Checksums
  import opened Processing
  import opened ReportFrames
  import opened Outboxes

  // --- frames ---------------------------------------------------------------------------------------------

  datatype DecodedReport = DecodedReport(
    kind: byte, makerFee: u64, takerFee: u64, side: Side, instrument: u32, orderId: u64, aux: u64, price: u64, qty: u64)

  function Decode(buf: seq<byte>): Option<DecodedReport> {
    if |buf| < 56 then None
    else Some(DecodedReport(buf[0], FromLe64(buf[40..48]), FromLe64(buf[48..56]), if buf[1] == 0 then Buy else Sell,
                            FromLe32(buf[4..8]), FromLe64(buf[8..16]), FromLe64(buf[16..24]), FromLe64(buf[24..32]),
                            FromLe64(buf[32..40])))
  }

  lemma LaidWords(kind: byte, side: byte, i: u32, id: u64, aux: u64, price: u64, qty: u64, fees: (u64, u64))
    ensures var f := Laid(kind, side, i, id, aux, price, qty, fees);
            && f[0] == kind && f[1] == side && f[4..8] == Le32(i) && f[8..16] == Le64(id) && f[16..24] == Le64(aux)
            && f[24..32] == Le64(price) && f[32..40] == Le64(qty) && f[40..48] == Le64(fees.0)
              && f[48..56] == Le64(fees.1)
  {
    hide Le32, Le64;
  }

  lemma LaidReads(kind: byte, side: byte, i: u32, id: u64, aux: u64, price: u64, qty: u64, fees: (u64, u64),
    rest: seq<byte>)
    ensures Decode(Laid(kind, side, i, id, aux, price, qty, fees) + rest) ==
            Some(DecodedReport(kind, fees.0, fees.1, if side == 0 then Buy else Sell, i, id, aux, price, qty))
  {
    hide Le32, Le64, FromLe32, FromLe64, Laid;
    var f := Laid(kind, side, i, id, aux, price, qty, fees);
    LaidWords(kind, side, i, id, aux, price, qty, fees);
    RoundTrip32(i);
    RoundTrip64(id);
    RoundTrip64(aux);
    RoundTrip64(price);
    RoundTrip64(qty);
    RoundTrip64(fees.0);
    RoundTrip64(fees.1);
    assert forall a, b :: 0 <= a <= b <= 56 ==> (f + rest)[a..b] == f[a..b];
  }

  /** The report a decoded frame stands for, by its type code; a rejection comes back without its reason. */
  function Named(d: DecodedReport): Option<ExecReport> {
    match d.kind
    case 1 => Some(Accepted(d.instrument, d.orderId))
    case 2 => Some(TradeReport(d.instrument, d.orderId, d.aux, d.side, d.price, d.qty, (d.makerFee, d.takerFee)))
    case 3 => Some(FilledReport(d.instrument, d.orderId))
    case 4 => Some(PartialReport(d.instrument, d.orderId, d.qty))
    case 5 => Some(RestingReport(d.instrument, d.orderId))
    case 6 => Some(CancelledReport(d.instrument, d.orderId))
    case 7 => Some(Unreasoned(RejectedReport(d.instrument, d.orderId, Duplicate)))
    case 8 => Some(ModifiedReport(d.instrument, d.orderId, d.qty))
    case 9 => Some(NotFoundReport(d.instrument, d.orderId))
    case 12 => Some(HaltedReport(d.instrument))
    case 13 => Some(ResumedReport(d.instrument))
    case 14 => Some(UserHaltedReport(d.instrument, d.aux))
    case 15 => Some(UserResumedReport(d.instrument, d.aux))
    case _ => None
  }

  /** Reports up to the reason of a rejection. */
  function Unreasoned(r: ExecReport): ExecReport {
    if r.RejectedReport? then r.(reason := Duplicate) else r
  }

  /** Every report is read back from its frame, but for the reason of a rejection. */
  lemma ReportRoundTrip(r: ExecReport, rest: seq<byte>)
    ensures Decode(FrameOf(r) + rest).Some? && Named(Decode(FrameOf(r) + rest).value) == Some(Unreasoned(r))
  {
    hide Decode, Laid;
    match r
    case TradeReport(i, taker, maker, aggressor, price, qty, fees) =>
      LaidReads(2, if aggressor.Buy? then 0 else 1, i, taker, maker, price, qty, fees, rest);
    case Accepted(i, id) => LaidReads(1, 0, i, id, 0, 0, 0, (0, 0), rest);
    case FilledReport(i, id) => LaidReads(3, 0, i, id, 0, 0, 0, (0, 0), rest);
    case PartialReport(i, id, filled) => LaidReads(4, 0, i, id, 0, 0, filled, (0, 0), rest);
    case RestingReport(i, id) => LaidReads(5, 0, i, id, 0, 0, 0, (0, 0), rest);
    case CancelledReport(i, id) => LaidReads(6, 0, i, id, 0, 0, 0, (0, 0), rest);
    case RejectedReport(i, id, _) => LaidReads(7, 0, i, id, 0, 0, 0, (0, 0), rest);
    case ModifiedReport(i, id, remaining) => LaidReads(8, 0, i, id, 0, 0, remaining, (0, 0), rest);
    case NotFoundReport(i, id) => LaidReads(9, 0, i, id, 0, 0, 0, (0, 0), rest);
    case HaltedReport(i) => LaidReads(12, 0, i, 0, 0, 0, 0, (0, 0), rest);
    case ResumedReport(i) => LaidReads(13, 0, i, 0, 0, 0, 0, (0, 0), rest);
    case UserHaltedReport(i, user) => LaidReads(14, 0, i, 0, user, 0, 0, (0, 0), rest);
    case UserResumedReport(i, user) => LaidReads(15, 0, i, 0, user, 0, 0, (0, 0), rest);
  }

  /** Frames tell reports apart, but for the reasons of rejections. */
  lemma FramesTellApart(r: ExecReport, s: ExecReport)
    ensures FrameOf(r) == FrameOf(s) <==> Unreasoned(r) == Unreasoned(s)
  {
    hide Decode, Laid, Named;
    ReportRoundTrip(r, []);
    ReportRoundTrip(s, []);
  }

  // --- records --------------------------------------------------------------------------------------------

  datatype OutboxRecord = OutboxRecord(group: u32, index: u64, ordinal: u32, frame: Frame)

  function RecordOf(record: seq<byte>): OutboxRecord
    requires |record| == RECORD_LEN
  {
    OutboxRecord(FromLe32(record[0..4]), IndexOf(record), FromLe32(record[12..16]), record[16..72])
  }

  lemma RecordReadsBack(group: u32, index: u64, ordinal: u32, frame: Frame)
    ensures RecordOf(RecordBytes(group, index, ordinal, frame)) == OutboxRecord(group, index, ordinal, frame)
  {
    hide Le32, Le64, FromLe32, FromLe64, Intact, Fnv;
    RecordReads(group, index, ordinal, frame);
    var body := Le32(group) + Le64(index) + Le32(ordinal) + frame;
    SealedIsIntact(body);
    var s := Sealed(body);
    assert s[0..4] == s[..|body|][0..4] == Le32(group);
    assert s[12..16] == s[..|body|][12..16] == Le32(ordinal);
    assert s[16..72] == s[..|body|][16..72] == frame;
    RoundTrip32(group);
    RoundTrip32(ordinal);
  }

  /** The records a body starts with, up to the first that is cut or spoilt. */
  function Scan(body: seq<byte>): seq<OutboxRecord>
    decreases |body|
  {
    if |body| < RECORD_LEN || !Intact(body[..RECORD_LEN]) then []
    else [RecordOf(body[..RECORD_LEN])] + Scan(body[RECORD_LEN..])
  }

  function BatchRecords(group: u32, b: Entry, k: nat): (rs: seq<OutboxRecord>)
    requires k <= |b.out|
  {
    seq(|b.out| - k, n requires 0 <= n < |b.out| - k =>
      OutboxRecord(group, b.index, if k + n <= 0xFFFF_FFFF then k + n else 0xFFFF_FFFF, FrameOf(b.out[k + n])))
  }

  function LogRecords(group: u32, log: seq<Entry>): seq<OutboxRecord> {
    if log == [] then [] else LogRecords(group, log[..|log| - 1]) + BatchRecords(group, log[|log| - 1], 0)
  }

  lemma NoRecords(group: u32, b: Entry)
    ensures BatchRecords(group, b, |b.out|) == []
  {}

  lemma FirstRecord(group: u32, b: Entry, k: nat)
    requires k < |b.out|
    ensures BatchRecords(group, b, k) ==
            [OutboxRecord(group, b.index, Ordinal(k), FrameOf(b.out[k]))] + BatchRecords(group, b, k + 1)
  {
    hide FrameOf;
  }

  /** A batch is read back record by record: its group, its index, the ordinals in order, and its frames. */
  lemma {:induction false} ScanBatch(group: u32, b: Entry, k: nat, rest: seq<byte>)
    requires k <= |b.out|
    ensures Scan(BatchBytes(group, b, k) + rest) == BatchRecords(group, b, k) + Scan(rest)
    decreases |b.out| - k
  {
    hide Intact, IndexOf, RecordBytes, FrameOf, RecordOf, BatchRecords;
    if k == |b.out| {
      assert BatchBytes(group, b, k) + rest == rest;
      NoRecords(group, b);
    } else {
      var record := RecordBytes(group, b.index, Ordinal(k), FrameOf(b.out[k]));
      var body := BatchBytes(group, b, k) + rest;
      RecordReads(group, b.index, Ordinal(k), FrameOf(b.out[k]));
      RecordReadsBack(group, b.index, Ordinal(k), FrameOf(b.out[k]));
      assert body[..RECORD_LEN] == record && body[RECORD_LEN..] == BatchBytes(group, b, k + 1) + rest;
      ScanBatch(group, b, k + 1, rest);
      FirstRecord(group, b, k);
      InThree([RecordOf(record)], BatchRecords(group, b, k + 1), Scan(rest));
    }
  }

  lemma InThree<T>(a: seq<T>, b: seq<T>, c: seq<T>)
    ensures a + (b + c) == (a + b) + c
  {}

  lemma LastApart(group: u32, log: seq<Entry>)
    requires log != []
    ensures var front, last := log[..|log| - 1], log[|log| - 1];
            && LogBytes(group, log) == LogBytes(group, front) + BatchBytes(group, last, 0)
            && LogRecords(group, log) == LogRecords(group, front) + BatchRecords(group, last, 0)
  {
    hide BatchBytes, BatchRecords;
  }

  lemma {:induction false} ScanLog(group: u32, log: seq<Entry>, rest: seq<byte>)
    ensures Scan(LogBytes(group, log) + rest) == LogRecords(group, log) + Scan(rest)
    decreases |log|
  {
    hide Scan, BatchBytes, BatchRecords;
    if log == [] {
      assert LogBytes(group, log) + rest == rest;
    } else {
      hide LogBytes, LogRecords;
      var front, last := log[..|log| - 1], log[|log| - 1];
      var bytes, records := BatchBytes(group, last, 0), BatchRecords(group, last, 0);
      LastApart(group, log);
      InThree(LogBytes(group, front), bytes, rest);
      ScanLog(group, front, bytes + rest);
      ScanBatch(group, last, 0, rest);
      InThree(LogRecords(group, front), records, Scan(rest));
    }
  }

  // --- back to reports --------------------------------------------------------------------------------------

  /** The report of a record, with the index of its batch. */
  function Heard(r: OutboxRecord): Option<(u64, ExecReport)> {
    var d := Decode(r.frame);
    if d.None? then None
    else
      var n := Named(d.value);
      if n.None? then None else Some((r.index, n.value))
  }

  function HeardAll(rs: seq<OutboxRecord>): seq<Option<(u64, ExecReport)>> {
    seq(|rs|, k requires 0 <= k < |rs| => Heard(rs[k]))
  }

  /** The reports of applied batches, in order, each with its batch's index. */
  function Applied(log: seq<Entry>): seq<Option<(u64, ExecReport)>> {
    if log == [] then []
    else
      var last := log[|log| - 1];
      Applied(log[..|log| - 1])
      + seq(|last.out|, k requires 0 <= k < |last.out| => Some((last.index, Unreasoned(last.out[k]))))
  }

  /** What the outbox holds of applied batches reads back as exactly their reports, in order. */
  lemma {:induction false} OutboxTells(group: u32, log: seq<Entry>)
    ensures HeardAll(LogRecords(group, log)) == Applied(log) && Scan(LogBytes(group, log)) == LogRecords(group, log)
    decreases |log|
  {
    hide Scan, LogBytes, Heard, FrameOf;
    ScanLog(group, log, []);
    NothingScanned();
    assert LogBytes(group, log) + [] == LogBytes(group, log);
    if log != [] {
      var front, last := log[..|log| - 1], log[|log| - 1];
      OutboxTells(group, front);
      var rs := BatchRecords(group, last, 0);
      forall k | 0 <= k < |rs| ensures Heard(rs[k]) == Some((last.index, Unreasoned(last.out[k]))) {
        HeardBack(group, last.index, Ordinal(k), last.out[k]);
      }
      assert HeardAll(LogRecords(group, front) + rs) == HeardAll(LogRecords(group, front)) + HeardAll(rs);
    }
  }

  lemma NothingScanned()
    ensures Scan([]) == []
  {}

  lemma HeardBack(group: u32, index: u64, ordinal: u32, r: ExecReport)
    ensures Heard(OutboxRecord(group, index, ordinal, FrameOf(r))) == Some((index, Unreasoned(r)))
  {
    hide FrameOf, Decode, Named;
    ReportRoundTrip(r, []);
    assert FrameOf(r) + [] == FrameOf(r);
  }

  // --- the reader ---------------------------------------------------------------------------------------------

  /** Up to `max` records from a file offset on. */
  method ReadBatch(file: seq<byte>, offset: nat, max: nat) returns (rs: seq<OutboxRecord>)
    requires offset <= |file|
    ensures var all := Scan(file[offset..]); rs == if max <= |all| then all[..max] else all
  {
    hide Intact, RecordOf;
    rs := [];
    var at := offset;
    ghost var all := Scan(file[offset..]);
    while |rs| < max
      invariant offset <= at <= |file| && |rs| <= max
      invariant all == rs + Scan(file[at..])
      decreases |file| - at
    {
      if |file| - at < RECORD_LEN {
        break;
      }
      var record := file[at..at + RECORD_LEN];
      assert file[at..][..RECORD_LEN] == record && file[at..][RECORD_LEN..] == file[at + RECORD_LEN..];
      if !Intact(record) {
        break;
      }
      rs := rs + [RecordOf(record)];
      at := at + RECORD_LEN;
    }
  }

  lemma SliceBehind(body: seq<byte>, at: nat)
    requires RECORD_LEN <= at <= |body|
    ensures body[RECORD_LEN..][at - RECORD_LEN..] == body[at..]
  {}

  lemma ScanOne(body: seq<byte>)
    requires Scan(body) != []
    ensures |body| >= RECORD_LEN && Scan(body[RECORD_LEN..]) == Scan(body)[1..]
  {
    hide Intact, RecordOf;
  }

  /** Reading on behind the records already taken skips none and repeats none. */
  lemma {:induction false} ScanBehind(body: seq<byte>, n: nat, at: nat)
    requires n <= |Scan(body)| && at == 80 * n
    ensures at <= |body| && Scan(body[at..]) == Scan(body)[n..]
    decreases n
  {
    hide Scan;
    if n == 0 {
      assert body[at..] == body;
    } else {
      ScanOne(body);
      ScanBehind(body[RECORD_LEN..], n - 1, at - RECORD_LEN);
      SliceBehind(body, at);
      assert Scan(body)[1..][n - 1..] == Scan(body)[n..];
    }
  }
}
