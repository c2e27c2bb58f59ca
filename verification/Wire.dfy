/** The 40-byte command frame, and Raft entries built from frames. */
module Wire {
  import opened Types
  import opened Bytes
  import opened Processing

  const MSG_LEN: nat := 40
  const BATCH_HEADER_LEN: nat := 12
  const BATCH_MAX: nat := 10_000
  /** "RB01" */
  const BATCH_MAGIC: seq<byte> := [82, 66, 48, 49]

  function SideCode(s: Side): byte {
    if s.Buy? then 0 else 1
  }

  function TypeCode(t: OrderType): byte {
    if t.Limit? then 0 else 1
  }

  function TifCode(t: TimeInForce): byte {
    match t
    case Gtc => 0
    case Ioc => 1
    case Fok => 2
    case IocBudget => 3
    case FokBudget => 4
  }

  function CodeTif(b: byte): TimeInForce {
    if b == 1 then Ioc else if b == 2 then Fok else if b == 3 then IocBudget else if b == 4 then FokBudget else Gtc
  }

  /** Field values of a frame, in the order of their offsets 0, 1, 2, 3, 4, 8, 16, 24, 32. */
  datatype Fields = Fields(kind: byte, side: byte, orderType: byte, tif: byte, instrument: u32, id: u64, price: u64,
    qty: u64, user: u64)

  function Packed(f: Fields): (s: seq<byte>)
    ensures |s| == MSG_LEN
  {
    [f.kind, f.side, f.orderType, f.tif] + Le32(f.instrument) + Le64(f.id) + Le64(f.price) + Le64(f.qty) + Le64(f.user)
  }

  function Unpacked(s: seq<byte>): Fields
    requires |s| == MSG_LEN
  {
    Fields(s[0], s[1], s[2], s[3], FromLe32(s[4..8]), FromLe64(s[8..16]), FromLe64(s[16..24]), FromLe64(s[24..32]),
      FromLe64(s[32..40]))
  }

  function FieldsOf(cmd: Command): Fields {
    match cmd
    case New(o) => Fields(1, SideCode(o.side), TypeCode(o.orderType), TifCode(o.tif), o.instrument, o.id, o.price,
      o.quantity, o.user)
    case Cancel(i, id, cmdId) => Fields(2, 0, 0, 0, i, id, cmdId, 0, 0)
    case Modify(i, id, price, qty, cmdId) => Fields(3, 0, 0, 0, i, id, price, qty, cmdId)
    case ForceClose(i, user, id, side, qty) => Fields(4, SideCode(side), 0, 0, i, id, 0, qty, user)
    case Halt(i, cmdId) => Fields(5, 0, 0, 0, i, cmdId, 0, 0, 0)
    case Resume(i, cmdId) => Fields(6, 0, 0, 0, i, cmdId, 0, 0, 0)
    case HaltUser(i, user, cmdId) => Fields(7, 0, 0, 0, i, cmdId, 0, 0, user)
    case ResumeUser(i, user, cmdId) => Fields(8, 0, 0, 0, i, cmdId, 0, 0, user)
  }

  /** What a decoded market order carries as its price. */
  function Sentinel(side: Side): Price {
    if side.Buy? then U64_MAX else 0
  }

  function CommandOf(f: Fields): Option<Command> {
    var side := if f.side == 0 then Buy else Sell;
    if f.kind == 1 then
      var market := f.orderType == 1;
      Some(New(Order(f.id, f.instrument, f.user, side, if market then Market else Limit, CodeTif(f.tif),
                     if market then Sentinel(side) else f.price, f.qty, f.qty, 0)))
    else if f.kind == 2 then Some(Cancel(f.instrument, f.id, f.price))
    else if f.kind == 3 then Some(Modify(f.instrument, f.id, f.price, f.qty, f.user))
    else if f.kind == 4 then Some(ForceClose(f.instrument, f.user, f.id, side, f.qty))
    else if f.kind == 5 then Some(Halt(f.instrument, f.id))
    else if f.kind == 6 then Some(Resume(f.instrument, f.id))
    else if f.kind == 7 then Some(HaltUser(f.instrument, f.user, f.id))
    else if f.kind == 8 then Some(ResumeUser(f.instrument, f.user, f.id))
    else None
  }

  function Encode(cmd: Command): (s: seq<byte>)
    ensures |s| == MSG_LEN
  {
    Packed(FieldsOf(cmd))
  }

  /** Reads the first frame of a buffer; None when it is too short or of an unknown kind. */
  function Decode(s: seq<byte>): Option<Command> {
    if |s| < MSG_LEN then None else CommandOf(Unpacked(s[..MSG_LEN]))
  }

  // --- round trips ------------------------------------------------------------------------------------

  lemma UnpackPacked(f: Fields)
    ensures Unpacked(Packed(f)) == f
  {
    hide Le32, Le64, FromLe32, FromLe64;
    var s := Packed(f);
    assert s[4..8] == Le32(f.instrument);
    assert s[8..16] == Le64(f.id);
    assert s[16..24] == Le64(f.price);
    assert s[24..32] == Le64(f.qty);
    assert s[32..40] == Le64(f.user);
    RoundTrip32(f.instrument);
    RoundTrip64(f.id);
    RoundTrip64(f.price);
    RoundTrip64(f.qty);
    RoundTrip64(f.user);
  }

  /** An order not yet accepted by an engine; a market order carries the sentinel price. */
  predicate Unaccepted(o: Order) {
    o.remaining == o.quantity && o.timestamp == 0 && (o.orderType.Market? ==> o.price == Sentinel(o.side))
  }

  predicate Sendable(cmd: Command) {
    cmd.New? ==> Unaccepted(cmd.order)
  }

  /** A command survives the wire exactly when its order has not been accepted yet. */
  lemma WireRoundTrip(cmd: Command)
    ensures Decode(Encode(cmd)) == Some(cmd) <==> Sendable(cmd)
  {
    hide Packed, Unpacked;
    UnpackPacked(FieldsOf(cmd));
    assert Encode(cmd)[..MSG_LEN] == Encode(cmd);
  }

  /** What comes out of the wire can be sent again unchanged. */
  lemma DecodedIsSendable(s: seq<byte>)
    ensures Decode(s).Some? ==> Sendable(Decode(s).value) && Decode(Encode(Decode(s).value)) == Decode(s)
  {
    hide Packed, Unpacked, Encode;
    if Decode(s).Some? {
      WireRoundTrip(Decode(s).value);
    }
  }

  /** Two sendable commands with one frame are one command. */
  lemma EncodeInjective(a: Command, b: Command)
    requires Sendable(a) && Sendable(b) && Encode(a) == Encode(b)
    ensures a == b
  {
    hide Encode, Decode;
    WireRoundTrip(a);
    WireRoundTrip(b);
  }

  /** Fill a frame buffer with a command. */
  method EncodeCommand(cmd: Command, out: array<byte>)
    requires out.Length == MSG_LEN
    modifies out
    ensures out[..] == Encode(cmd)
  {
    hide Le32, Le64, FieldsOf;
    var f := FieldsOf(cmd);
    for k := 0 to MSG_LEN
      invariant forall j :: 0 <= j < k ==> out[j] == 0
    {
      out[k] := 0;
    }
    Put(out, 0, [f.kind, f.side, f.orderType, f.tif]);
    Put(out, 4, Le32(f.instrument));
    Put(out, 8, Le64(f.id));
    Put(out, 16, Le64(f.price));
    Put(out, 24, Le64(f.qty));
    Put(out, 32, Le64(f.user));
  }

  // --- Raft entries ----------------------------------------------------------------------------------------

  function Joined(frames: seq<seq<byte>>): seq<byte> {
    if frames == [] then [] else frames[0] + Joined(frames[1..])
  }

  function BatchHeader(count: u32): (s: seq<byte>)
    ensures |s| == BATCH_HEADER_LEN
  {
    BATCH_MAGIC + Le32(1) + Le32(count)
  }

  /** One entry for a group of frames; None for an empty or oversized group. */
  function EncodeBatch(frames: seq<seq<byte>>): Option<seq<byte>>
    requires forall k :: 0 <= k < |frames| ==> |frames[k]| == MSG_LEN
  {
    if frames == [] || |frames| > BATCH_MAX then None
    else Some(BatchHeader(|frames|) + Joined(frames))
  }

  /** Consecutive frames of a body, each decoded; None when one of them is unknown. */
  function DecodeFrames(body: seq<byte>): Option<seq<Command>>
    decreases |body|
  {
    if |body| < MSG_LEN then Some([])
    else
      var first, rest := Decode(body[..MSG_LEN]), DecodeFrames(body[MSG_LEN..]);
      if first.None? || rest.None? then None else Some([first.value] + rest.value)
  }

  /** The commands of a log entry, in either of its two forms. */
  function DecodeEntry(payload: seq<byte>): Option<seq<Command>> {
    if |payload| == MSG_LEN then
      var cmd := Decode(payload);
      if cmd.None? then None else Some([cmd.value])
    else if |payload| < BATCH_HEADER_LEN || payload[..4] != BATCH_MAGIC then None
    else
      var version, count := FromLe32(payload[4..8]), FromLe32(payload[8..12]);
      if version != 1 || count == 0 || count > BATCH_MAX || |payload| != BATCH_HEADER_LEN + count * MSG_LEN then None
      else DecodeFrames(payload[BATCH_HEADER_LEN..])
  }

  function Frames(cmds: seq<Command>): (r: seq<seq<byte>>)
    ensures |r| == |cmds| && forall k :: 0 <= k < |cmds| ==> r[k] == Encode(cmds[k])
  {
    seq(|cmds|, k requires 0 <= k < |cmds| => Encode(cmds[k]))
  }

  lemma {:induction false} JoinedLength(frames: seq<seq<byte>>)
    requires forall k :: 0 <= k < |frames| ==> |frames[k]| == MSG_LEN
    ensures |Joined(frames)| == |frames| * MSG_LEN
  {
    if frames != [] {
      JoinedLength(frames[1..]);
    }
  }

  lemma {:induction false} FramesDecode(cmds: seq<Command>)
    requires forall k :: 0 <= k < |cmds| ==> Sendable(cmds[k])
    ensures DecodeFrames(Joined(Frames(cmds))) == Some(cmds)
  {
    hide Encode, Decode;
    var body := Joined(Frames(cmds));
    if cmds == [] {
      assert body == [];
    } else {
      assert Frames(cmds)[1..] == Frames(cmds[1..]);
      assert body == Encode(cmds[0]) + Joined(Frames(cmds[1..]));
      assert body[..MSG_LEN] == Encode(cmds[0]) && body[MSG_LEN..] == Joined(Frames(cmds[1..]));
      WireRoundTrip(cmds[0]);
      FramesDecode(cmds[1..]);
      assert cmds == [cmds[0]] + cmds[1..];
    }
  }

  /** A batch of sendable commands decodes to exactly those commands, and is never taken for a single frame. */
  lemma BatchRoundTrip(cmds: seq<Command>)
    requires 0 < |cmds| <= BATCH_MAX && forall k :: 0 <= k < |cmds| ==> Sendable(cmds[k])
    ensures EncodeBatch(Frames(cmds)).Some?
    ensures var entry := EncodeBatch(Frames(cmds)).value; DecodeEntry(entry) == Some(cmds) && |entry| != MSG_LEN
  {
    hide Encode, Decode, Le32, FromLe32, DecodeFrames, Joined;
    var body, n := Joined(Frames(cmds)), |cmds|;
    var entry := BatchHeader(n) + body;
    JoinedLength(Frames(cmds));
    FramesDecode(cmds);
    RoundTrip32(1);
    RoundTrip32(n);
    assert entry[..4] == BATCH_MAGIC && entry[4..8] == Le32(1) && entry[8..12] == Le32(n)
           && entry[BATCH_HEADER_LEN..] == body;
  }

  /** A legacy entry decodes to its one command, and no batch entry has its length. */
  lemma LegacyRoundTrip(cmd: Command, frames: seq<seq<byte>>)
    requires Sendable(cmd) && forall k :: 0 <= k < |frames| ==> |frames[k]| == MSG_LEN
    ensures DecodeEntry(Encode(cmd)) == Some([cmd])
    ensures EncodeBatch(frames).Some? ==> EncodeBatch(frames).value != Encode(cmd)
  {
    hide Encode, Decode, Joined;
    WireRoundTrip(cmd);
    JoinedLength(frames);
  }

  // --- exactly the entries that decode -------------------------------------------------------------------

  /** Frames of the fixed length, each one a command. */
  predicate Framed(frames: seq<seq<byte>>) {
    forall k :: 0 <= k < |frames| ==> |frames[k]| == MSG_LEN && Decode(frames[k]).Some?
  }

  /** A body cut into frames. */
  function Sliced(body: seq<byte>): (frames: seq<seq<byte>>)
    ensures forall k :: 0 <= k < |frames| ==> |frames[k]| == MSG_LEN
    decreases |body|
  {
    if |body| < MSG_LEN then [] else [body[..MSG_LEN]] + Sliced(body[MSG_LEN..])
  }

  lemma {:induction false} SlicesJoin(body: seq<byte>, n: nat)
    requires |body| == 40 * n
    ensures |Sliced(body)| == n && Joined(Sliced(body)) == body
    decreases n
  {
    if n > 0 {
      SlicesJoin(body[MSG_LEN..], n - 1);
      assert Sliced(body)[1..] == Sliced(body[MSG_LEN..]);
      assert body == body[..MSG_LEN] + body[MSG_LEN..];
    }
  }

  lemma {:induction false} SlicesDecode(body: seq<byte>)
    ensures DecodeFrames(body).Some? <==> Framed(Sliced(body))
    ensures DecodeFrames(body).Some? ==>
              && |DecodeFrames(body).value| == |Sliced(body)|
              && forall k :: 0 <= k < |Sliced(body)| ==> Decode(Sliced(body)[k]) == Some(DecodeFrames(body).value[k])
    decreases |body|
  {
    hide Decode;
    if |body| >= MSG_LEN {
      SlicesDecode(body[MSG_LEN..]);
      var frames, rest := Sliced(body), Sliced(body[MSG_LEN..]);
      assert frames[0] == body[..MSG_LEN] && forall k :: 0 <= k < |rest| ==> frames[k + 1] == rest[k];
      assert Framed(frames) ==> Framed(rest) by {
        assert forall k :: 0 <= k < |rest| ==> frames[k + 1] == rest[k];
      }
    }
  }

  lemma {:induction false} JoinedSlices(frames: seq<seq<byte>>)
    requires forall k :: 0 <= k < |frames| ==> |frames[k]| == MSG_LEN
    ensures Sliced(Joined(frames)) == frames
  {
    if frames != [] {
      var body := Joined(frames);
      assert body[..MSG_LEN] == frames[0] && body[MSG_LEN..] == Joined(frames[1..]);
      JoinedSlices(frames[1..]);
      assert frames == [frames[0]] + frames[1..];
    }
  }

  lemma HeaderReads(count: u32, body: seq<byte>)
    ensures var p := BatchHeader(count) + body;
            && p[..4] == BATCH_MAGIC && FromLe32(p[4..8]) == 1 && FromLe32(p[8..12]) == count
            && p[BATCH_HEADER_LEN..] == body
  {
    hide Le32, FromLe32;
    var p := BatchHeader(count) + body;
    RoundTrip32(1);
    RoundTrip32(count);
    assert p[4..8] == Le32(1) && p[8..12] == Le32(count);
  }

  /** A header is determined by what is read of it. */
  lemma HeaderIs(p: seq<byte>, count: u32)
    requires |p| >= BATCH_HEADER_LEN && p[..4] == BATCH_MAGIC && FromLe32(p[4..8]) == 1 && FromLe32(p[8..12]) == count
    ensures p[..BATCH_HEADER_LEN] == BatchHeader(count)
  {
    FromLeRoundTrip(p[4..8]);
    FromLeRoundTrip(p[8..12]);
    hide Le, FromLe;
    assert p[..BATCH_HEADER_LEN] == p[..4] + p[4..8] + p[8..12];
  }

  /**
   An entry decodes exactly when it is one frame of a command, or the batch entry of a group of such
   frames; the commands are those of the frames, in order.
   */
  lemma EntriesExactly(p: seq<byte>, frames: seq<seq<byte>>)
    ensures |p| == MSG_LEN ==> (DecodeEntry(p).Some? <==> Decode(p).Some?)
    ensures |p| != MSG_LEN && DecodeEntry(p).Some? ==>
              var slices := Sliced(p[BATCH_HEADER_LEN..]); Framed(slices) && EncodeBatch(slices) == Some(p)
    ensures Framed(frames) && EncodeBatch(frames) == Some(p) ==>
              && |p| != MSG_LEN && DecodeEntry(p).Some? && |DecodeEntry(p).value| == |frames|
              && forall k :: 0 <= k < |frames| ==> Decode(frames[k]) == Some(DecodeEntry(p).value[k])
  {
    hide Decode, DecodeFrames, Joined, Sliced, BatchHeader, FromLe32;
    if |p| != MSG_LEN && DecodeEntry(p).Some? {
      var count := FromLe32(p[8..12]);
      var body := p[BATCH_HEADER_LEN..];
      HeaderIs(p, count);
      SlicesJoin(body, count);
      SlicesDecode(body);
      assert p == p[..BATCH_HEADER_LEN] + body;
    }
    if Framed(frames) && EncodeBatch(frames) == Some(p) {
      HeaderReads(|frames|, Joined(frames));
      JoinedLength(frames);
      JoinedSlices(frames);
      SlicesDecode(Joined(frames));
    }
  }
}
