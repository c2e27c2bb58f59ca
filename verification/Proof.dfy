/** The file of application proofs: one checksummed record per applied batch, appended and synced. */
module Proofs {
  import opened Types
  import opened Bytes
  import opened Checksums
  import opened RecordFiles
  import opened Processing
  import opened Renderings
  import opened ReportFrames

  const PROOF_LEN: nat := 32
  /** "TCAP" and the format version */
  const PROOF_HEADER: seq<byte> := [84, 67, 65, 80, 1, 0, 0, 0]

  /** What applying a batch produced: how many reports, and their fingerprint. */
  datatype Proof = Proof(index: u64, count: u32, hash: u64)

  function ProofOf(index: u64, out: seq<ExecReport>): Proof {
    Proof(index, |out| % 0x1_0000_0000, Fingerprint(out))
  }

  /** The test a replayed batch has to pass. */
  predicate Passes(p: Proof, out: seq<ExecReport>) {
    p.count == |out| % 0x1_0000_0000 && p.hash == Fingerprint(out)
  }

  /** Replaying a marked batch passes exactly when its reports have the fingerprint of the first run. */
  lemma PassesExact(index: u64, told: seq<Emission>, out: seq<ExecReport>, again: seq<ExecReport>)
    requires Renders(told, out) && Renders(told, again)
    ensures Passes(ProofOf(index, out), again) <==> Fingerprint(out) == Fingerprint(again)
    ensures Settled(told) ==> Passes(ProofOf(index, out), again)
  {
    hide Fingerprint;
    RenderingsAreEven(told, out);
    RenderingsAreEven(told, again);
    if Settled(told) {
      SettledIsUnique(told, out, again);
    }
  }

  /** A batch that cancels two orders in one block can fail its own proof. */
  lemma ReplayCanFail(index: u64) returns (told: seq<Emission>, out: seq<ExecReport>, again: seq<ExecReport>)
    ensures told == [CancelBlock(0, {1, 2})] && Renders(told, out) && Renders(told, again)
    ensures !Passes(ProofOf(index, out), again)
  {
    hide Fingerprint;
    var ids := {1, 2};
    told, out, again := [CancelBlock(0, ids)], Cancels(0, [1, 2]), Cancels(0, [2, 1]);
    TwoListings();
    hide Lists, Renders, Cancels;
    RendersBlock(0, [1, 2], ids, [], []);
    RendersBlock(0, [2, 1], ids, [], []);
    assert [CancelBlock(0, ids)] + [] == told && out + [] == out && again + [] == again;
    CancelOrderShows();
  }

  lemma TwoListings()
    ensures Lists([1, 2], {1, 2}) && Lists([2, 1], {1, 2}) && Renders([], [])
  {
    assert forall id :: id in [1, 2] <==> id in {1, 2};
    assert forall id :: id in [2, 1] <==> id in {1, 2};
  }

  // --- records -----------------------------------------------------------------------------------------

  function ProofBytes(p: Proof): (s: seq<byte>)
    ensures |s| == PROOF_LEN
  {
    Sealed(Le64(p.index) + Le32(p.count) + [0, 0, 0, 0] + Le64(p.hash))
  }

  function ProofFrom(s: seq<byte>): Proof
    requires |s| == PROOF_LEN
  {
    Proof(FromLe64(s[0..8]), FromLe32(s[8..12]), FromLe64(s[16..24]))
  }

  lemma ProofReads(p: Proof)
    ensures Intact(ProofBytes(p)) && ProofFrom(ProofBytes(p)) == p
  {
    hide Le32, Le64, FromLe32, FromLe64, Intact, Fnv;
    var body := Le64(p.index) + Le32(p.count) + [0, 0, 0, 0] + Le64(p.hash);
    SealedIsIntact(body);
    var s := ProofBytes(p);
    assert s[0..8] == s[..24][0..8] == Le64(p.index);
    assert s[8..12] == s[..24][8..12] == Le32(p.count);
    assert s[16..24] == s[..24][16..24] == Le64(p.hash);
    RoundTrip64(p.index);
    RoundTrip32(p.count);
    RoundTrip64(p.hash);
  }

  function RecordsOf(ps: seq<Proof>): (xs: seq<seq<byte>>)
    ensures |xs| == |ps| && forall k :: 0 <= k < |ps| ==> xs[k] == ProofBytes(ps[k])
  {
    seq(|ps|, k requires 0 <= k < |ps| => ProofBytes(ps[k]))
  }

  function ProofsFrom(xs: seq<seq<byte>>): (ps: seq<Proof>)
    requires forall k :: 0 <= k < |xs| ==> |xs[k]| == PROOF_LEN
    ensures |ps| == |xs| && forall k :: 0 <= k < |xs| ==> ps[k] == ProofFrom(xs[k])
  {
    seq(|xs|, k requires 0 <= k < |xs| => ProofFrom(xs[k]))
  }

  lemma RecordsRead(ps: seq<Proof>)
    ensures Records(RecordsOf(ps), PROOF_LEN) && ProofsFrom(RecordsOf(ps)) == ps
  {
    hide ProofBytes, ProofFrom, Intact;
    forall k | 0 <= k < |ps| ensures Intact(ProofBytes(ps[k])) && ProofFrom(ProofBytes(ps[k])) == ps[k] {
      ProofReads(ps[k]);
    }
  }

  /** The bytes of a proof cut after its index, and of the same proof written again behind it. */
  lemma CutProofIsBroken()
    ensures var p := ProofOf(1, []);
            var across := (ProofBytes(p)[..8] + ProofBytes(p))[..PROOF_LEN];
            !Intact(across)
  {
    hide Le32, Le64, FromLe64, Fnv, Zeros;
    var p := ProofOf(1, []);
    var s := ProofBytes(p);
    var across := (s[..8] + s)[..PROOF_LEN];
    EmptyHash();
    OneWords();
    assert s[..8] == Le64(1) && s[..16] == Le64(1) + Le32(0) + [0, 0, 0, 0] && s[16..24] == Le64(SEED);
    assert across[..24] == Le64(1) + (Le64(1) + Le32(0) + [0, 0, 0, 0]);
    assert across[24..] == s[16..24];
    RoundTrip64(SEED);
    OnesShow();
  }

  lemma OneWords()
    ensures Le64(1) + (Le64(1) + Le32(0) + [0, 0, 0, 0]) == [1] + Zeros(7) + [1] + Zeros(15)
  {
    hide Le32, Le64, Zeros;
    LeByte(1);
    LeZero(4);
    ZeroWordsAre();
    ZerosConcat(7, 4);
    ZerosConcat(11, 4);
    var a, b, c, d := [1] + Zeros(7), [1], Zeros(7), Zeros(4);
    assert a + (b + c + d + d) == a + b + (c + d + d);
  }

  lemma EmptyHash()
    ensures Fingerprint([]) == SEED
  {}

  lemma ZeroWordsAre()
    ensures Le32(0) == Le(0, 4) && Zeros(4) == [0, 0, 0, 0]
  {}

  // --- the file ----------------------------------------------------------------------------------------

  /** Two different proofs of one index. */
  ghost predicate Contradict(ps: seq<Proof>) {
    exists i, j :: 0 <= i < j < |ps| && ps[i].index == ps[j].index && ps[i] != ps[j]
  }

  /**
   Loading the file: a missing file holds no proofs, a short tail is ignored; a short or foreign
   header, a broken record and contradicting proofs are errors.
   */
  ghost function Loaded(file: Option<seq<byte>>): Option<seq<Proof>> {
    if file.None? then Some([])
    else
      var f := file.value;
      if |f| < |PROOF_HEADER| || f[..|PROOF_HEADER|] != PROOF_HEADER then None
      else
        var body := f[|PROOF_HEADER|..];
        var ps := ProofsFrom(Whole(body, PROOF_LEN));
        if !NoneBroken(body, PROOF_LEN) || Contradict(ps) then None else Some(ps)
  }

  /**
   A proof file by what was written to it: nothing yet, a header cut short, or whole proofs and
   what follows the first one that was cut.
   */
  datatype ProofFile = NoFile | TornHeader(bytes: nat) | Proofs(whole: seq<Proof>, stray: seq<byte>)

  function FileBytes(p: ProofFile): Option<seq<byte>>
    requires p.TornHeader? ==> p.bytes < |PROOF_HEADER|
  {
    match p
    case NoFile => None
    case TornHeader(n) => Some(PROOF_HEADER[..n])
    case Proofs(whole, stray) => Some(PROOF_HEADER + Flat(RecordsOf(whole)) + stray)
  }

  /** What marking a batch writes. */
  function MarkBytes(p: ProofFile, proof: Proof): seq<byte> {
    (if p.NoFile? then PROOF_HEADER else []) + ProofBytes(proof)
  }

  /** The file after the first `cut` bytes of a mark were written. */
  function Marked(p: ProofFile, proof: Proof, cut: nat): (r: ProofFile)
    requires cut <= |MarkBytes(p, proof)| && !p.TornHeader?
    ensures r.TornHeader? ==> r.bytes < |PROOF_HEADER|
  {
    match p
    case NoFile =>
      if cut < |PROOF_HEADER| then TornHeader(cut)
      else if cut == |PROOF_HEADER| + PROOF_LEN then Proofs([proof], [])
      else Proofs([], ProofBytes(proof)[..cut - |PROOF_HEADER|])
    case Proofs(whole, stray) =>
      if stray == [] && cut == PROOF_LEN then Proofs(whole + [proof], [])
      else Proofs(whole, stray + ProofBytes(proof)[..cut])
  }

  lemma FirstMark(proof: Proof, cut: nat)
    requires cut <= |MarkBytes(NoFile, proof)|
    ensures FileBytes(Marked(NoFile, proof, cut)) == Some(MarkBytes(NoFile, proof)[..cut])
  {
    hide ProofBytes, RecordsOf;
    var bytes := MarkBytes(NoFile, proof);
    if cut < |PROOF_HEADER| {
      assert bytes[..cut] == PROOF_HEADER[..cut];
    } else if cut == |PROOF_HEADER| + PROOF_LEN {
      assert RecordsOf([proof]) == [ProofBytes(proof)];
      FlatOne(ProofBytes(proof));
      assert bytes[..cut] == bytes + [];
    } else {
      assert RecordsOf([]) == [];
      assert bytes[..cut] == PROOF_HEADER + [] + ProofBytes(proof)[..cut - |PROOF_HEADER|];
    }
  }

  lemma Regrouped(h: seq<byte>, flat: seq<byte>, stray: seq<byte>, bytes: seq<byte>)
    ensures h + flat + (stray + bytes) == h + flat + stray + bytes
    ensures h + (flat + bytes) + [] == h + flat + [] + bytes
  {}

  lemma RecordsMore(ps: seq<Proof>, p: Proof)
    ensures Flat(RecordsOf(ps + [p])) == Flat(RecordsOf(ps)) + ProofBytes(p)
  {
    hide ProofBytes, Flat;
    assert RecordsOf(ps + [p]) == RecordsOf(ps) + [ProofBytes(p)];
    FlatConcat(RecordsOf(ps), [ProofBytes(p)]);
    FlatOne(ProofBytes(p));
  }

  lemma NextMark(p: ProofFile, proof: Proof, cut: nat)
    requires p.Proofs? && cut <= |MarkBytes(p, proof)|
    ensures FileBytes(Marked(p, proof, cut)) == Some(FileBytes(p).value + MarkBytes(p, proof)[..cut])
  {
    hide ProofBytes, RecordsOf, Flat;
    var bytes := MarkBytes(p, proof);
    assert bytes == ProofBytes(proof) && (cut == PROOF_LEN ==> bytes[..cut] == bytes);
    RecordsMore(p.whole, proof);
    Regrouped(PROOF_HEADER, Flat(RecordsOf(p.whole)), p.stray, bytes[..cut]);
  }

  /** Marking appends its bytes to the file. */
  lemma MarkAppends(p: ProofFile, proof: Proof, cut: nat)
    requires cut <= |MarkBytes(p, proof)| && !p.TornHeader?
    ensures FileBytes(Marked(p, proof, cut)) ==
              Some((if p.NoFile? then [] else FileBytes(p).value) + MarkBytes(p, proof)[..cut])
  {
    hide FileBytes;
    if p.NoFile? {
      FirstMark(proof, cut);
      assert [] + MarkBytes(p, proof)[..cut] == MarkBytes(p, proof)[..cut];
    } else {
      NextMark(p, proof, cut);
    }
  }

  /** A file that can be read: not cut in its header, and at most the rest of one cut proof at its end. */
  predicate Readable(p: ProofFile) {
    p.NoFile? || (p.Proofs? && |p.stray| < PROOF_LEN)
  }

  /** The bytes across a cut proof happen to carry a fitting checksum. */
  predicate Misread(p: ProofFile) {
    p.Proofs? && |p.stray| >= PROOF_LEN && Intact(p.stray[..PROOF_LEN])
  }

  ghost predicate DistinctProofs(ps: seq<Proof>) {
    forall i, j :: 0 <= i < j < |ps| ==> ps[i].index != ps[j].index
  }

  /** Loading succeeds exactly on a readable file, and then yields the whole proofs. */
  lemma LoadedExact(p: ProofFile)
    requires (p.TornHeader? ==> p.bytes < |PROOF_HEADER|) && (p.Proofs? ==> DistinctProofs(p.whole)) && !Misread(p)
    ensures Loaded(FileBytes(p)) == if p.NoFile? then Some([]) else if Readable(p) then Some(p.whole) else None
  {
    hide Intact, RecordsOf;
    if p.Proofs? {
      var xs := RecordsOf(p.whole);
      RecordsRead(p.whole);
      var f := FileBytes(p).value;
      assert f[..|PROOF_HEADER|] == PROOF_HEADER && f[|PROOF_HEADER|..] == Flat(xs) + p.stray;
      FlatReads(xs, PROOF_LEN, p.stray);
      assert Whole(p.stray, PROOF_LEN) == [];
      assert xs + [] == xs;
    }
  }

  /** What the loop has read and what it still has to read. */
  ghost predicate HalfLoaded(body: seq<byte>, at: nat, ps: seq<Proof>)
    requires at <= |body|
  {
    && (NoneBroken(body, PROOF_LEN) <==> NoneBroken(body[at..], PROOF_LEN))
    && ProofsFrom(Whole(body, PROOF_LEN)) == ps + ProofsFrom(Whole(body[at..], PROOF_LEN))
  }

  lemma LoadsNext(body: seq<byte>, at: nat, ps: seq<Proof>)
    requires at + PROOF_LEN <= |body| && HalfLoaded(body, at, ps)
    ensures var record := body[at..at + PROOF_LEN];
            && (!Intact(record) ==> !NoneBroken(body, PROOF_LEN))
            && (Intact(record) ==>
                  && HalfLoaded(body, at + PROOF_LEN, ps + [ProofFrom(record)])
                  && ps + [ProofFrom(record)] <= ProofsFrom(Whole(body, PROOF_LEN)))
  {
    hide Intact, ProofFrom, Whole, NoneBroken, ProofsFrom;
    var record, b := body[at..at + PROOF_LEN], body[at..];
    assert b[..PROOF_LEN] == record && b[PROOF_LEN..] == body[at + PROOF_LEN..];
    ReadsOne(b, PROOF_LEN);
    if Intact(record) {
      ProofsCons(record, Whole(b[PROOF_LEN..], PROOF_LEN), ps);
    }
  }

  lemma ProofsCons(record: seq<byte>, rest: seq<seq<byte>>, ps: seq<Proof>)
    requires |record| == PROOF_LEN && forall k :: 0 <= k < |rest| ==> |rest[k]| == PROOF_LEN
    ensures ps + ProofsFrom([record] + rest) == ps + [ProofFrom(record)] + ProofsFrom(rest)
  {
    hide ProofFrom;
    assert ProofsFrom([record] + rest) == [ProofFrom(record)] + ProofsFrom(rest);
  }

  lemma LoadsLast(body: seq<byte>, at: nat, ps: seq<Proof>)
    requires at <= |body| < at + PROOF_LEN && HalfLoaded(body, at, ps)
    ensures NoneBroken(body, PROOF_LEN) && ProofsFrom(Whole(body, PROOF_LEN)) == ps
  {
    assert Whole(body[at..], PROOF_LEN) == [];
    assert ps + ProofsFrom([]) == ps;
  }

  /** The loading loop. */
  method LoadProofs(file: seq<byte>) returns (r: Option<seq<Proof>>)
    ensures r == Loaded(Some(file))
  {
    hide Intact, ProofFrom, Whole, NoneBroken, HalfLoaded;
    if |file| < |PROOF_HEADER| || file[..|PROOF_HEADER|] != PROOF_HEADER {
      return None;
    }
    var body := file[|PROOF_HEADER|..];
    var at := 0;
    var ps: seq<Proof> := [];
    var known: map<u64, Proof> := map[];
    LoadsFirst(body);
    while at + PROOF_LEN <= |body|
      invariant at <= |body| && HalfLoaded(body, at, ps)
      invariant forall k :: 0 <= k < |ps| ==> ps[k].index in known && known[ps[k].index] == ps[k]
      invariant forall i :: i in known ==> known[i].index == i && known[i] in ps
    {
      var record := body[at..at + PROOF_LEN];
      LoadsNext(body, at, ps);
      if !Intact(record) {
        return None;
      }
      var p := ProofFrom(record);
      if p.index in known && known[p.index] != p {
        Clash(ProofsFrom(Whole(body, PROOF_LEN)), ps, known[p.index], p);
        return None;
      }
      known := known[p.index := p];
      ps := ps + [p];
      at := at + PROOF_LEN;
    }
    LoadsLast(body, at, ps);
    return Some(ps);
  }

  lemma LoadsFirst(body: seq<byte>)
    ensures HalfLoaded(body, 0, [])
  {
    assert body[0..] == body;
    assert [] + ProofsFrom(Whole(body, PROOF_LEN)) == ProofsFrom(Whole(body, PROOF_LEN));
  }

  lemma Clash(all: seq<Proof>, ps: seq<Proof>, q: Proof, p: Proof)
    requires ps + [p] <= all && q in ps && q.index == p.index && q != p
    ensures Contradict(all)
  {
    var k :| 0 <= k < |ps| && ps[k] == q;
    assert all[k] == (ps + [p])[k] && all[|ps|] == (ps + [p])[|ps|];
  }
}
