/** Journal files byte by byte: numbered records, a header, and what a crash can cut off. */
module JournalFiles {
  import opened Types
  import opened Bytes
  import opened Checksums
  import opened RecordFiles

  const JOURNAL_LEN: nat := 64
  /** "TCJR" and the format version */
  const JOURNAL_HEADER: seq<byte> := [84, 67, 74, 82, 2, 0, 0, 0]

  type CommandFrame = s: seq<byte> | |s| == 40 witness seq(40, _ => 0)

  /** One journal record: its number in the shard's total order, and a command frame. */
  datatype Rec = Rec(number: u64, frame: CommandFrame)

  /** A record with the clock reading it was written with. */
  datatype Stamped = Stamped(rec: Rec, stamp: u64)

  // --- records -----------------------------------------------------------------------------------------

  function StampedBytes(x: Stamped): (s: seq<byte>)
    ensures |s| == JOURNAL_LEN
  {
    Sealed(Le64(x.rec.number) + Le64(x.stamp) + x.rec.frame)
  }

  function RecFrom(s: seq<byte>): Rec
    requires |s| == JOURNAL_LEN
  {
    Rec(FromLe64(s[0..8]), s[16..56])
  }

  lemma RecReads(x: Stamped)
    ensures Intact(StampedBytes(x)) && RecFrom(StampedBytes(x)) == x.rec
  {
    hide Le64, FromLe64, Intact, Fnv;
    var body := Le64(x.rec.number) + Le64(x.stamp) + x.rec.frame;
    SealedIsIntact(body);
    var s := StampedBytes(x);
    assert s[0..8] == s[..56][0..8] == Le64(x.rec.number);
    assert s[16..56] == s[..56][16..56] == x.rec.frame;
    RoundTrip64(x.rec.number);
  }

  function Images(xs: seq<Stamped>): (bs: seq<seq<byte>>)
    ensures |bs| == |xs| && forall k :: 0 <= k < |xs| ==> bs[k] == StampedBytes(xs[k])
  {
    seq(|xs|, k requires 0 <= k < |xs| => StampedBytes(xs[k]))
  }

  function Recs(xs: seq<Stamped>): (rs: seq<Rec>)
    ensures |rs| == |xs| && forall k :: 0 <= k < |xs| ==> rs[k] == xs[k].rec
  {
    seq(|xs|, k requires 0 <= k < |xs| => xs[k].rec)
  }

  function RecsFrom(bs: seq<seq<byte>>): (rs: seq<Rec>)
    requires forall k :: 0 <= k < |bs| ==> |bs[k]| == JOURNAL_LEN
    ensures |rs| == |bs| && forall k :: 0 <= k < |bs| ==> rs[k] == RecFrom(bs[k])
  {
    seq(|bs|, k requires 0 <= k < |bs| => RecFrom(bs[k]))
  }

  lemma ImagesRead(xs: seq<Stamped>)
    ensures Records(Images(xs), JOURNAL_LEN) && RecsFrom(Images(xs)) == Recs(xs)
  {
    hide StampedBytes, RecFrom, Intact;
    forall k | 0 <= k < |xs| ensures Intact(StampedBytes(xs[k])) && RecFrom(StampedBytes(xs[k])) == xs[k].rec {
      RecReads(xs[k]);
    }
  }

  // --- reading and opening -----------------------------------------------------------------------------

  /** Reading a journal: the records up to the first that is short or broken; an error on a foreign header. */
  function ReadJournal(file: seq<byte>): Option<seq<Rec>> {
    if |file| < |JOURNAL_HEADER| then Some([])
    else if file[..|JOURNAL_HEADER|] != JOURNAL_HEADER then None
    else Some(RecsFrom(Whole(file[|JOURNAL_HEADER|..], JOURNAL_LEN)))
  }

  /** Opening a journal for appending: an empty file gets its header, a present header must match. */
  function OpenJournal(file: seq<byte>): Option<seq<byte>> {
    if file == [] then Some(JOURNAL_HEADER)
    else if |file| < |JOURNAL_HEADER| || file[..|JOURNAL_HEADER|] != JOURNAL_HEADER then None
    else Some(file)
  }

  /** The reading loop. */
  method ReadAll(file: seq<byte>) returns (r: Option<seq<Rec>>)
    ensures r == ReadJournal(file)
  {
    hide Intact, RecFrom, Whole;
    if |file| < |JOURNAL_HEADER| {
      return Some([]);
    }
    if file[..|JOURNAL_HEADER|] != JOURNAL_HEADER {
      return None;
    }
    var body := file[|JOURNAL_HEADER|..];
    var at := 0;
    var out: seq<Rec> := [];
    assert body[0..] == body;
    while at + JOURNAL_LEN <= |body|
      invariant at <= |body|
      invariant RecsFrom(Whole(body, JOURNAL_LEN)) == out + RecsFrom(Whole(body[at..], JOURNAL_LEN))
    {
      var record := body[at..at + JOURNAL_LEN];
      ReadsNext(body, at, out);
      if !Intact(record) {
        return Some(out);
      }
      out := out + [RecFrom(record)];
      at := at + JOURNAL_LEN;
    }
    ReadsNoMore(body[at..], out);
    return Some(out);
  }

  lemma ReadsNext(body: seq<byte>, at: nat, out: seq<Rec>)
    requires at + JOURNAL_LEN <= |body|
    ensures var record, rest := body[at..at + JOURNAL_LEN], RecsFrom(Whole(body[at..], JOURNAL_LEN));
            out + rest == if Intact(record) then
              out + [RecFrom(record)] + RecsFrom(Whole(body[at + JOURNAL_LEN..], JOURNAL_LEN))
                          else out
  {
    hide Intact, RecFrom, Whole;
    var record, b := body[at..at + JOURNAL_LEN], body[at..];
    assert b[..JOURNAL_LEN] == record && b[JOURNAL_LEN..] == body[at + JOURNAL_LEN..];
    ReadsOne(b, JOURNAL_LEN);
    if Intact(record) {
      var more := Whole(b[JOURNAL_LEN..], JOURNAL_LEN);
      assert RecsFrom([record] + more) == [RecFrom(record)] + RecsFrom(more);
    }
  }

  lemma ReadsNoMore(b: seq<byte>, out: seq<Rec>)
    requires |b| < JOURNAL_LEN
    ensures out + RecsFrom(Whole(b, JOURNAL_LEN)) == out
  {}

  // --- files by what was written to them -----------------------------------------------------------------

  /** A header cut short (or no byte yet), or whole records and what follows the first that was cut. */
  datatype JournalFile = TornHeader(bytes: nat) | Journal(whole: seq<Stamped>, stray: seq<byte>)

  const NEW_JOURNAL: JournalFile := Journal([], [])

  ghost predicate FileFits(f: JournalFile) {
    f.TornHeader? ==> f.bytes < |JOURNAL_HEADER|
  }

  function FileBytes(f: JournalFile): seq<byte>
    requires FileFits(f)
  {
    match f
    case TornHeader(n) => JOURNAL_HEADER[..n]
    case Journal(whole, stray) => JOURNAL_HEADER + Flat(Images(whole)) + stray
  }

  /** The records a reader gets. */
  function Held(f: JournalFile): seq<Rec> {
    if f.TornHeader? then [] else Recs(f.whole)
  }

  predicate Cut(f: JournalFile) {
    f.Journal? && f.stray != []
  }

  /** The bytes across a cut record happen to carry a fitting checksum. */
  predicate Misread(f: JournalFile) {
    f.Journal? && |f.stray| >= JOURNAL_LEN && Intact(f.stray[..JOURNAL_LEN])
  }

  lemma ReadsHeld(f: JournalFile)
    requires FileFits(f) && !Misread(f)
    ensures ReadJournal(FileBytes(f)) == Some(Held(f))
    ensures OpenJournal(FileBytes(f)) == match f
              case TornHeader(n) => if n == 0 then Some(JOURNAL_HEADER) else None
              case Journal(_, _) => Some(FileBytes(f))
  {
    hide Intact, Images, Recs;
    if f.Journal? {
      var b, xs := FileBytes(f), Images(f.whole);
      ImagesRead(f.whole);
      assert b[..|JOURNAL_HEADER|] == JOURNAL_HEADER && b[|JOURNAL_HEADER|..] == Flat(xs) + f.stray;
      FlatReads(xs, JOURNAL_LEN, f.stray);
      assert Whole(f.stray, JOURNAL_LEN) == [];
      assert xs + [] == xs;
    }
  }

  // --- appending ---------------------------------------------------------------------------------------------

  /** The file after the first `cut` bytes of some records reached it. */
  function Reached(f: JournalFile, xs: seq<Stamped>, cut: nat): JournalFile
    requires f.Journal? && cut <= JOURNAL_LEN * |xs|
  {
    if f.stray != [] then
      ImagesLength(xs);
      Journal(f.whole, f.stray + Flat(Images(xs))[..cut])
    else
      var k := cut / JOURNAL_LEN;
      Journal(f.whole + xs[..k], if cut % JOURNAL_LEN == 0 then [] else StampedBytes(xs[k])[..cut % JOURNAL_LEN])
  }

  lemma {:induction false} ImagesLength(xs: seq<Stamped>)
    ensures |Flat(Images(xs))| == JOURNAL_LEN * |xs|
  {
    hide StampedBytes;
    if xs != [] {
      assert Images(xs)[1..] == Images(xs[1..]);
      ImagesLength(xs[1..]);
    }
  }

  lemma ImagesConcat(a: seq<Stamped>, b: seq<Stamped>)
    ensures Flat(Images(a + b)) == Flat(Images(a)) + Flat(Images(b)) && Recs(a + b) == Recs(a) + Recs(b)
  {
    hide StampedBytes;
    assert Images(a + b) == Images(a) + Images(b);
    FlatConcat(Images(a), Images(b));
  }

  /** Whatever part of the records reaches the file, its bytes are that part appended. */
  lemma ReachedAppends(f: JournalFile, xs: seq<Stamped>, cut: nat)
    requires f.Journal? && cut <= JOURNAL_LEN * |xs|
    ensures |Flat(Images(xs))| == JOURNAL_LEN * |xs|
    ensures FileBytes(Reached(f, xs, cut)) == FileBytes(f) + Flat(Images(xs))[..cut]
  {
    hide StampedBytes, Images, Flat;
    ImagesLength(xs);
    var bytes := Flat(Images(xs));
    var front := JOURNAL_HEADER + Flat(Images(f.whole));
    if f.stray != [] {
      assert front + (f.stray + bytes[..cut]) == front + f.stray + bytes[..cut];
    } else {
      var k, r := cut / JOURNAL_LEN, cut % JOURNAL_LEN;
      ImagesConcat(f.whole, xs[..k]);
      CutBytes(xs, cut);
      Appended(JOURNAL_HEADER, Flat(Images(f.whole)), Flat(Images(xs[..k])),
               if r == 0 then [] else StampedBytes(xs[k])[..r]);
    }
  }

  lemma Appended(h: seq<byte>, a: seq<byte>, b: seq<byte>, c: seq<byte>)
    ensures h + (a + b) + c == h + a + [] + (b + c)
  {}

  lemma CutBytes(xs: seq<Stamped>, cut: nat)
    requires cut <= JOURNAL_LEN * |xs|
    ensures |Flat(Images(xs))| == JOURNAL_LEN * |xs|
    ensures var k, r := cut / JOURNAL_LEN, cut % JOURNAL_LEN;
            Flat(Images(xs))[..cut] == Flat(Images(xs[..k])) + if r == 0 then [] else StampedBytes(xs[k])[..r]
  {
    hide StampedBytes, Images, Flat;
    var k, r := cut / JOURNAL_LEN, cut % JOURNAL_LEN;
    ImagesLength(xs);
    ImagesLength(xs[..k]);
    assert xs == xs[..k] + xs[k..];
    ImagesConcat(xs[..k], xs[k..]);
    if r != 0 {
      assert xs[k..] == [xs[k]] + xs[k + 1..];
      ImagesConcat([xs[k]], xs[k + 1..]);
      OneImage(xs[k]);
    }
  }

  lemma OneImage(x: Stamped)
    ensures Flat(Images([x])) == StampedBytes(x)
  {
    hide StampedBytes;
    FlatOne(StampedBytes(x));
    assert Images([x]) == [StampedBytes(x)];
  }

  /** The nine bytes left of a record cut behind the first byte of its stamp, and 64 more. */
  function Across(r: Rec, stamp: u64, b: seq<byte>): (s: seq<byte>)
    requires |b| == JOURNAL_LEN
    ensures |s| == JOURNAL_LEN
  {
    (StampedBytes(Stamped(r, stamp))[..9] + b)[..JOURNAL_LEN]
  }

  lemma AcrossIs(r: Rec, stamp: u64, b: seq<byte>)
    requires |b| == JOURNAL_LEN && stamp < 256
    ensures var s := Across(r, stamp, b); s[..56] == Le64(r.number) + [stamp] + b[..47] && s[56..] == b[47..55]
  {
    hide Le64, Fnv;
    var x := StampedBytes(Stamped(r, stamp));
    LowByte(stamp);
    assert x[..9] == Le64(r.number) + [Le64(stamp)[0]];
  }

  lemma LowByte(n: byte)
    ensures Le64(n)[0] == n
  {}

  /** Of two stamps, one at least leaves bytes that do not pass for a record. */
  lemma SomeStampShows(r: Rec, b: seq<byte>) returns (stamp: u64)
    requires |b| == JOURNAL_LEN
    ensures stamp < 256 && !Intact(Across(r, stamp, b))
  {
    hide Le64, Fnv, FromLe64, Across;
    AcrossIs(r, 0, b);
    AcrossIs(r, 1, b);
    OneByteDiffers(Le64(r.number), 0, 1, b[..47]);
    stamp := if Intact(Across(r, 0, b)) then 1 else 0;
  }
}
