/** The snapshot file: its bytes, and loading them back. */
module SnapshotFiles {
  import opened Types
  import opened Bytes
  import opened Checksums
  import opened Processing
  import opened Restores
  import Wire

  /** "TCS1" */
  const MAGIC: seq<byte> := [84, 67, 83, 49]
  const VERSION: u32 := 4
  const LEGACY_VERSION: u32 := 3
  const ORDER_LEN: nat := 56

  // --- reading from the front of a buffer -------------------------------------------------------------------

  /** A value read from the front of a buffer, and what is left. */
  datatype Parsed<T> = Bad | Parsed(value: T, rest: seq<byte>)

  function Take32(b: seq<byte>): Parsed<u32> {
    if |b| < 4 then Bad else Parsed(FromLe32(b[..4]), b[4..])
  }

  function Take64(b: seq<byte>): Parsed<u64> {
    if |b| < 8 then Bad else Parsed(FromLe64(b[..8]), b[8..])
  }

  function TakeMany<T>(take: seq<byte> -> Parsed<T>, n: nat, b: seq<byte>): Parsed<seq<T>>
    decreases n
  {
    if n == 0 then Parsed([], b)
    else
      match take(b)
      case Bad => Bad
      case Parsed(x, rest) =>
        match TakeMany(take, n - 1, rest)
        case Bad => Bad
        case Parsed(xs, rest') => Parsed([x] + xs, rest')
  }

  function Many<T>(put: T -> seq<byte>, xs: seq<T>): seq<byte> {
    if xs == [] then [] else put(xs[0]) + Many(put, xs[1..])
  }

  /** `take` reads back what `put` wrote, for one value in front of any bytes. */
  ghost predicate ReadsBack<T(!new)>(put: T -> seq<byte>, take: seq<byte> -> Parsed<T>, x: T) {
    forall rest: seq<byte> :: take(put(x) + rest) == Parsed(x, rest)
  }

  lemma Take32Reads(n: u32, rest: seq<byte>)
    ensures Take32(Le32(n) + rest) == Parsed(n, rest)
  {
    hide Le32, FromLe32;
    RoundTrip32(n);
    assert (Le32(n) + rest)[..4] == Le32(n) && (Le32(n) + rest)[4..] == rest;
  }

  lemma Take64Reads(n: u64, rest: seq<byte>)
    ensures Take64(Le64(n) + rest) == Parsed(n, rest)
  {
    hide Le64, FromLe64;
    RoundTrip64(n);
    assert (Le64(n) + rest)[..8] == Le64(n) && (Le64(n) + rest)[8..] == rest;
  }

  lemma {:induction false} ManyReads<T(!new)>(put: T -> seq<byte>, take: seq<byte> -> Parsed<T>, xs: seq<T>,
    rest: seq<byte>)
    requires forall k :: 0 <= k < |xs| ==> ReadsBack(put, take, xs[k])
    ensures TakeMany(take, |xs|, Many(put, xs) + rest) == Parsed(xs, rest)
    decreases |xs|
  {
    if xs == [] {
      assert Many(put, xs) + rest == rest;
    } else {
      var tail := Many(put, xs[1..]) + rest;
      assert Many(put, xs) + rest == put(xs[0]) + tail;
      assert ReadsBack(put, take, xs[0]);
      assert take(put(xs[0]) + tail) == Parsed(xs[0], tail);
      ManyReads(put, take, xs[1..], rest);
      assert xs == [xs[0]] + xs[1..];
    }
  }

  // --- orders ---------------------------------------------------------------------------------------------------

  function PutOrder(o: Order): (s: seq<byte>)
    ensures |s| == ORDER_LEN
  {
    Le64(o.id) + Le32(o.instrument) + Le64(o.user)
    + [Wire.SideCode(o.side), Wire.TypeCode(o.orderType), Wire.TifCode(o.tif), 0]
    + Le64(o.price) + Le64(o.quantity) + Le64(o.remaining) + Le64(o.timestamp)
  }

  function OrderOf(b: seq<byte>): Order
    requires |b| == ORDER_LEN
  {
    Order(FromLe64(b[0..8]), FromLe32(b[8..12]), FromLe64(b[12..20]), if b[20] == 0 then Buy else Sell,
          if b[21] == 1 then Market else Limit, Wire.CodeTif(b[22]),
          FromLe64(b[24..32]), FromLe64(b[32..40]), FromLe64(b[40..48]), FromLe64(b[48..56]))
  }

  function TakeOrder(b: seq<byte>): Parsed<Order> {
    if |b| < ORDER_LEN then Bad else Parsed(OrderOf(b[..ORDER_LEN]), b[ORDER_LEN..])
  }

  /** Every order survives its 56-byte encoding. */
  lemma OrderRoundTrip(o: Order)
    ensures OrderOf(PutOrder(o)) == o
  {
    hide Le32, Le64, FromLe32, FromLe64;
    var s := PutOrder(o);
    assert s[0..8] == Le64(o.id) && s[8..12] == Le32(o.instrument) && s[12..20] == Le64(o.user);
    assert s[24..32] == Le64(o.price) && s[32..40] == Le64(o.quantity);
    assert s[40..48] == Le64(o.remaining) && s[48..56] == Le64(o.timestamp);
    RoundTrip64(o.id);
    RoundTrip32(o.instrument);
    RoundTrip64(o.user);
    RoundTrip64(o.price);
    RoundTrip64(o.quantity);
    RoundTrip64(o.remaining);
    RoundTrip64(o.timestamp);
  }

  lemma OrderReads(o: Order)
    ensures ReadsBack(PutOrder, TakeOrder, o)
  {
    hide PutOrder, OrderOf;
    OrderRoundTrip(o);
    forall rest: seq<byte> ensures TakeOrder(PutOrder(o) + rest) == Parsed(o, rest) {
      assert (PutOrder(o) + rest)[..ORDER_LEN] == PutOrder(o) && (PutOrder(o) + rest)[ORDER_LEN..] == rest;
    }
  }

  // --- positions and engines ---------------------------------------------------------------------------------------

  /** Signed 64-bit range. */
  predicate IsI64(q: int) {
    -TWO64 / 2 <= q < TWO64 / 2
  }

  function PutPosition(p: (User, u32, int)): seq<byte> {
    Le64(p.0) + Le32(p.1) + Le64(p.2 % TWO64)
  }

  function TakePosition(b: seq<byte>): Parsed<(User, u32, int)> {
    if |b| < 20 then Bad
    else Parsed((FromLe64(b[0..8]), FromLe32(b[8..12]), AsI64(FromLe64(b[12..20]))), b[20..])
  }

  lemma SignedRoundTrip(q: int)
    requires IsI64(q)
    ensures 0 <= q % TWO64 < TWO64 && AsI64(q % TWO64) == q
  {}

  lemma PositionReads(p: (User, u32, int))
    requires IsI64(p.2)
    ensures ReadsBack(PutPosition, TakePosition, p)
  {
    hide Le32, Le64, FromLe32, FromLe64, AsI64;
    SignedRoundTrip(p.2);
    RoundTrip64(p.0);
    RoundTrip32(p.1);
    RoundTrip64(p.2 % TWO64);
    forall rest: seq<byte> ensures TakePosition(PutPosition(p) + rest) == Parsed(p, rest) {
      var b := PutPosition(p) + rest;
      assert b[0..8] == Le64(p.0) && b[8..12] == Le32(p.1) && b[12..20] == Le64(p.2 % TWO64) && b[20..] == rest;
    }
  }

  function PutEngine(e: EngineState): seq<byte> {
    Le32(e.instrument) + Le64(e.clock) + Le64(if |e.orders| <= U64_MAX then |e.orders| else 0)
      + Many(PutOrder, e.orders)
  }

  /** An engine header must leave room for the trailing checksum, and so must its orders. */
  function TakeEngine(b: seq<byte>): Parsed<EngineState> {
    if |b| < 28 then Bad
    else
      var n := FromLe64(b[12..20]);
      if |b| - 28 < n * ORDER_LEN then Bad
      else
        match TakeMany(TakeOrder, n, b[20..])
        case Bad => Bad
        case Parsed(orders, rest) => Parsed(EngineState(FromLe32(b[0..4]), FromLe64(b[4..12]), orders), rest)
  }

  lemma {:induction false} ManyLength(os: seq<Order>)
    ensures |Many(PutOrder, os)| == |os| * ORDER_LEN
  {
    if os != [] {
      ManyLength(os[1..]);
    }
  }

  /** Engines read back when at least the checksum follows them. */
  lemma EngineReads(e: EngineState, rest: seq<byte>)
    requires |e.orders| <= U64_MAX && |rest| >= 8
    ensures TakeEngine(PutEngine(e) + rest) == Parsed(e, rest)
  {
    hide Le32, Le64, FromLe32, FromLe64, Many, TakeMany;
    var n := |e.orders|;
    var orders := Many(PutOrder, e.orders);
    var b := PutEngine(e) + rest;
    ManyLength(e.orders);
    RoundTrip32(e.instrument);
    RoundTrip64(e.clock);
    RoundTrip64(n);
    assert b[0..4] == Le32(e.instrument) && b[4..12] == Le64(e.clock) && b[12..20] == Le64(n)
           && b[20..] == orders + rest;
    forall k | 0 <= k < n ensures ReadsBack(PutOrder, TakeOrder, e.orders[k]) {
      OrderReads(e.orders[k]);
    }
    ManyReads(PutOrder, TakeOrder, e.orders, rest);
  }

  lemma {:induction false} EnginesRead(es: seq<EngineState>, rest: seq<byte>)
    requires (forall k :: 0 <= k < |es| ==> |es[k].orders| <= U64_MAX) && |rest| >= 8
    ensures TakeMany(TakeEngine, |es|, Many(PutEngine, es) + rest) == Parsed(es, rest)
    decreases |es|
  {
    hide PutEngine, TakeEngine, Many, TakeMany;
    ManyParts(PutEngine, es);
    TakeManyParts(TakeEngine, |es|, Many(PutEngine, es) + rest);
    if es == [] {
      assert [] + rest == rest;
    } else {
      var tail := Many(PutEngine, es[1..]) + rest;
      assert PutEngine(es[0]) + Many(PutEngine, es[1..]) + rest == PutEngine(es[0]) + tail;
      EngineReads(es[0], tail);
      EnginesRead(es[1..], rest);
      assert es == [es[0]] + es[1..];
    }
  }

  lemma ManyParts<T>(put: T -> seq<byte>, xs: seq<T>)
    ensures Many(put, xs) == if xs == [] then [] else put(xs[0]) + Many(put, xs[1..])
  {}

  lemma TakeManyParts<T>(take: seq<byte> -> Parsed<T>, n: nat, b: seq<byte>)
    ensures n == 0 ==> TakeMany(take, n, b) == Parsed([], b)
    ensures n > 0 && take(b).Parsed? && TakeMany(take, n - 1, take(b).rest).Parsed? ==>
              var more := TakeMany(take, n - 1, take(b).rest);
              TakeMany(take, n, b) == Parsed([take(b).value] + more.value, more.rest)
  {}

  // --- the file -----------------------------------------------------------------------------------------------------

  /** Counts fit their fields and positions fit a signed word. */
  ghost predicate Writable(s: Snapshot) {
    && |s.halted| <= 0xFFFF_FFFF && |s.suspended| <= 0xFFFF_FFFF
    && |s.positions| <= 0xFFFF_FFFF && |s.engines| <= 0xFFFF_FFFF
    && (forall k :: 0 <= k < |s.positions| ==> IsI64(s.positions[k].2))
    && (forall k :: 0 <= k < |s.engines| ==> |s.engines[k].orders| <= U64_MAX)
  }

  function Put32(n: u32): seq<byte> {
    Le32(n)
  }

  function Put64(n: u64): seq<byte> {
    Le64(n)
  }

  function Counted<T>(put: T -> seq<byte>, xs: seq<T>): seq<byte>
    requires |xs| <= 0xFFFF_FFFF
  {
    Le32(|xs|) + Many(put, xs)
  }

  function TakeCounted<T>(take: seq<byte> -> Parsed<T>, b: seq<byte>): Parsed<seq<T>> {
    match Take32(b)
    case Bad => Bad
    case Parsed(n, rest) => TakeMany(take, n, rest)
  }

  function Body(s: Snapshot): seq<byte>
    requires Writable(s)
  {
    MAGIC + Le32(VERSION) + Le64(s.journalSeq) + Le64(s.raftIndex) + Le64(s.maxNew) + Le64(s.maxAdmin)
    + Counted(Put32, s.halted) + Counted(Put64, s.suspended) + Counted(PutPosition, s.positions)
      + Counted(PutEngine, s.engines)
  }

  function FileBytes(s: Snapshot): seq<byte>
    requires Writable(s)
  {
    Sealed(Body(s))
  }

  /** The part behind the fixed header: cursors, lists, engines. */
  function LoadRest(journalSeq: u64, raftIndex: u64, b: seq<byte>): Option<Snapshot> {
    match Take64(b)
    case Bad => None
    case Parsed(maxNew, b1) =>
      match Take64(b1)
      case Bad => None
      case Parsed(maxAdmin, b2) =>
        match TakeCounted(Take32, b2)
        case Bad => None
        case Parsed(halted, b3) =>
          match TakeCounted(Take64, b3)
          case Bad => None
          case Parsed(suspended, b4) =>
            match TakeCounted(TakePosition, b4)
            case Bad => None
            case Parsed(positions, b5) =>
              match TakeCounted(TakeEngine, b5)
              case Bad => None
              case Parsed(engines, _) =>
                Some(Snapshot(journalSeq, raftIndex, maxNew, maxAdmin, halted, suspended, positions, engines))
  }

  /** Loading: size, magic, checksum, version, then the fields in order. */
  function Load(buf: seq<byte>): Option<Snapshot> {
    if |buf| < 28 || buf[..4] != MAGIC || !Intact(buf) then None
    else
      var version := FromLe32(buf[4..8]);
      if version == VERSION then LoadRest(FromLe64(buf[8..16]), FromLe64(buf[16..24]), buf[24..])
      else if version == LEGACY_VERSION then LoadRest(FromLe64(buf[8..16]), 0, buf[16..])
      else None
  }

  lemma CountedReads<T(!new)>(put: T -> seq<byte>, take: seq<byte> -> Parsed<T>, xs: seq<T>, rest: seq<byte>)
    requires |xs| <= 0xFFFF_FFFF && TakeMany(take, |xs|, Many(put, xs) + rest) == Parsed(xs, rest)
    ensures TakeCounted(take, Counted(put, xs) + rest) == Parsed(xs, rest)
  {
    hide Le32, Take32, TakeMany, Many;
    assert Counted(put, xs) + rest == Le32(|xs|) + (Many(put, xs) + rest);
    Take32Reads(|xs|, Many(put, xs) + rest);
  }

  lemma ListsRead(s: Snapshot, r3: seq<byte>, r4: seq<byte>, r5: seq<byte>, r6: seq<byte>)
    requires Writable(s) && |r6| >= 8
    ensures TakeCounted(Take32, Counted(Put32, s.halted) + r3) == Parsed(s.halted, r3)
    ensures TakeCounted(Take64, Counted(Put64, s.suspended) + r4) == Parsed(s.suspended, r4)
    ensures TakeCounted(TakePosition, Counted(PutPosition, s.positions) + r5) == Parsed(s.positions, r5)
    ensures TakeCounted(TakeEngine, Counted(PutEngine, s.engines) + r6) == Parsed(s.engines, r6)
  {
    hide TakeCounted, Counted, TakeMany, Many, Take32, Take64, TakePosition, PutPosition, TakeEngine, PutEngine;
    forall n: u32 ensures ReadsBack(Put32, Take32, n) {
      forall rest: seq<byte> ensures Take32(Put32(n) + rest) == Parsed(n, rest) {
        Take32Reads(n, rest);
      }
    }
    forall n: u64 ensures ReadsBack(Put64, Take64, n) {
      forall rest: seq<byte> ensures Take64(Put64(n) + rest) == Parsed(n, rest) {
        Take64Reads(n, rest);
      }
    }
    forall k | 0 <= k < |s.positions| ensures ReadsBack(PutPosition, TakePosition, s.positions[k]) {
      PositionReads(s.positions[k]);
    }
    ManyReads(Put32, Take32, s.halted, r3);
    ManyReads(Put64, Take64, s.suspended, r4);
    ManyReads(PutPosition, TakePosition, s.positions, r5);
    EnginesRead(s.engines, r6);
    CountedReads(Put32, Take32, s.halted, r3);
    CountedReads(Put64, Take64, s.suspended, r4);
    CountedReads(PutPosition, TakePosition, s.positions, r5);
    CountedReads(PutEngine, TakeEngine, s.engines, r6);
  }

  lemma RestReads(s: Snapshot, sum: seq<byte>)
    requires Writable(s) && |sum| >= 8
    ensures LoadRest(s.journalSeq, s.raftIndex,
                     Le64(s.maxNew) + Le64(s.maxAdmin) + Counted(Put32, s.halted) + Counted(Put64, s.suspended)
                     + Counted(PutPosition, s.positions) + Counted(PutEngine, s.engines) + sum) == Some(s)
  {
    hide TakeCounted, Counted, Take64, Le64;
    var r6 := sum;
    var r5 := Counted(PutEngine, s.engines) + r6;
    var r4 := Counted(PutPosition, s.positions) + r5;
    var r3 := Counted(Put64, s.suspended) + r4;
    var r2 := Counted(Put32, s.halted) + r3;
    var r1 := Le64(s.maxAdmin) + r2;
    ListsRead(s, r3, r4, r5, r6);
    Take64Reads(s.maxNew, r1);
    Take64Reads(s.maxAdmin, r2);
    assert Le64(s.maxNew) + Le64(s.maxAdmin) + Counted(Put32, s.halted) + Counted(Put64, s.suspended)
           + Counted(PutPosition, s.positions) + Counted(PutEngine, s.engines) + sum == Le64(s.maxNew) + r1;
  }

  /** Every writable snapshot loads back unchanged. */
  lemma SnapshotRoundTrip(s: Snapshot)
    requires Writable(s)
    ensures Load(FileBytes(s)) == Some(s)
  {
    hide Counted, LoadRest, Le32, Le64, FromLe32, FromLe64, Intact, Fnv;
    var body := Body(s);
    var buf := FileBytes(s);
    SealedIsIntact(body);
    var sum := Le64(Fnv(body));
    var tail := Le64(s.maxNew) + Le64(s.maxAdmin) + Counted(Put32, s.halted) + Counted(Put64, s.suspended)
                + Counted(PutPosition, s.positions) + Counted(PutEngine, s.engines) + sum;
    assert buf == MAGIC + Le32(VERSION) + Le64(s.journalSeq) + Le64(s.raftIndex) + tail;
    HeaderReads(MAGIC, Le32(VERSION), Le64(s.journalSeq), Le64(s.raftIndex), tail);
    RoundTrip32(VERSION);
    RoundTrip64(s.journalSeq);
    RoundTrip64(s.raftIndex);
    RestReads(s, sum);
  }

  lemma HeaderReads(a: seq<byte>, b: seq<byte>, c: seq<byte>, d: seq<byte>, e: seq<byte>)
    requires |a| == 4 && |b| == 4 && |c| == 8 && |d| == 8
    ensures var s := a + b + c + d + e; s[..4] == a && s[4..8] == b && s[8..16] == c && s[16..24] == d && s[24..] == e
  {}

  // --- files of the version before ---------------------------------------------------------------

  /** A version-3 file has no Raft index. */
  function LegacyBytes(s: Snapshot): seq<byte>
    requires Writable(s)
  {
    Sealed(MAGIC + Le32(LEGACY_VERSION) + Le64(s.journalSeq) + Le64(s.maxNew) + Le64(s.maxAdmin)
           + Counted(Put32, s.halted) + Counted(Put64, s.suspended) + Counted(PutPosition, s.positions)
             + Counted(PutEngine, s.engines))
  }

  /** A version-3 file loads as the same snapshot at Raft index 0, which restores the same desk. */
  lemma LegacyLoads(s: Snapshot)
    requires Writable(s)
    ensures Load(LegacyBytes(s)) == Some(s.(raftIndex := 0)) && Restored(s.(raftIndex := 0)) == Restored(s)
  {
    hide Counted, LoadRest, Le32, Le64, FromLe32, FromLe64, Intact, Fnv;
    var body := MAGIC + Le32(LEGACY_VERSION) + Le64(s.journalSeq) + Le64(s.maxNew) + Le64(s.maxAdmin)
                + Counted(Put32, s.halted) + Counted(Put64, s.suspended) + Counted(PutPosition, s.positions)
                + Counted(PutEngine, s.engines);
    var buf := LegacyBytes(s);
    SealedIsIntact(body);
    var sum := Le64(Fnv(body));
    var tail := Le64(s.maxNew) + Le64(s.maxAdmin) + Counted(Put32, s.halted) + Counted(Put64, s.suspended)
                + Counted(PutPosition, s.positions) + Counted(PutEngine, s.engines) + sum;
    assert buf == MAGIC + Le32(LEGACY_VERSION) + Le64(s.journalSeq) + tail;
    LegacyHeaderReads(MAGIC, Le32(LEGACY_VERSION), Le64(s.journalSeq), tail);
    RoundTrip32(LEGACY_VERSION);
    RoundTrip64(s.journalSeq);
    RestReads(s.(raftIndex := 0), sum);
  }

  lemma LegacyHeaderReads(a: seq<byte>, b: seq<byte>, c: seq<byte>, e: seq<byte>)
    requires |a| == 4 && |b| == 4 && |c| == 8
    ensures var s := a + b + c + e; s[..4] == a && s[4..8] == b && s[8..16] == c && s[16..] == e
  {}

  // --- building and parsing buffers ---------------------------------------------------------------------------------

  /** Append every element of a list to a buffer. */
  method PutAll<T>(put: T -> seq<byte>, xs: seq<T>, buf: seq<byte>) returns (r: seq<byte>)
    ensures r == buf + Many(put, xs)
  {
    r := buf;
    for k := 0 to |xs|
      invariant r + Many(put, xs[k..]) == buf + Many(put, xs)
    {
      assert xs[k..][0] == xs[k] && xs[k..][1..] == xs[k + 1..];
      assert r + (put(xs[k]) + Many(put, xs[k + 1..])) == r + put(xs[k]) + Many(put, xs[k + 1..]);
      r := r + put(xs[k]);
    }
    assert r + Many(put, xs[|xs|..]) == r;
  }

  /** Read a number of elements from the front of a buffer, one after the other. */
  method TakeAll<T>(take: seq<byte> -> Parsed<T>, n: nat, b: seq<byte>) returns (r: Parsed<seq<T>>)
    ensures r == TakeMany(take, n, b)
  {
    var xs, rest := [], b;
    ghost var all := TakeMany(take, n, b);
    assert all.Parsed? ==> [] + all.value == all.value;
    for k := 0 to n
      invariant TakeMany(take, n, b) == Extended(xs, TakeMany(take, n - k, rest))
    {
      var next := take(rest);
      if next.Bad? {
        return Bad;
      }
      ghost var more := TakeMany(take, n - k - 1, next.rest);
      assert more.Parsed? ==> xs + ([next.value] + more.value) == xs + [next.value] + more.value;
      xs, rest := xs + [next.value], next.rest;
    }
    assert xs + [] == xs;
    return Parsed(xs, rest);
  }

  function Extended<T>(xs: seq<T>, p: Parsed<seq<T>>): Parsed<seq<T>> {
    match p
    case Bad => Bad
    case Parsed(ys, rest) => Parsed(xs + ys, rest)
  }

  /** The buffer a snapshot is written from, built by successive appends. */
  method Build(s: Snapshot) returns (buf: seq<byte>)
    requires Writable(s)
    ensures buf == FileBytes(s)
  {
    hide Le32, Le64, Many, Fnv;
    buf := MAGIC + Le32(VERSION) + Le64(s.journalSeq) + Le64(s.raftIndex) + Le64(s.maxNew) + Le64(s.maxAdmin);
    ghost var h := buf;
    buf := PutAll(Put32, s.halted, buf + Le32(|s.halted|));
    assert buf == h + Counted(Put32, s.halted);
    h := buf;
    buf := PutAll(Put64, s.suspended, buf + Le32(|s.suspended|));
    assert buf == h + Counted(Put64, s.suspended);
    h := buf;
    buf := PutAll(PutPosition, s.positions, buf + Le32(|s.positions|));
    assert buf == h + Counted(PutPosition, s.positions);
    h := buf;
    buf := PutAll(PutEngine, s.engines, buf + Le32(|s.engines|));
    assert buf == h + Counted(PutEngine, s.engines);
    buf := buf + Le64(Fnv(buf));
  }
}
