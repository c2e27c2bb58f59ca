/** Consistent routing of orders to databases, tables and event partitions. */
module Sharding {
  import opened Types
  import opened Arithmetic
  import opened Words

  const TWO31: nat := 0x8000_0000
  const TWO33: nat := 0x2_0000_0000

  // --- jump consistent hash ------------------------------------------------------------------------------

  /** The generator step: multiply and add, modulo 2^64. */
  function NextKey(key: u64): u64 {
    (key * 2_862_933_555_777_941_757 + 1) % TWO64
  }

  /** The bucket the walk jumps to from `current`, with the top 31 bits of the key as divisor. */
  function JumpTo(current: nat, key: u64): nat {
    (current + 1) * TWO31 / (key / TWO33 + 1)
  }

  /** Every jump goes forward. */
  lemma JumpsForward(current: nat, key: u64)
    ensures JumpTo(current, key) >= current + 1
  {
    var d := key / TWO33 + 1;
    assert 1 <= d <= TWO31;
    MulMonoLeft(d, TWO31, current + 1);
    QuotientAtLeast((current + 1) * TWO31, d, current + 1);
  }

  /** The walk from `next` on, `current` being the last bucket it stood on. */
  function Walk(key: u64, current: int, next: nat, buckets: nat): int
    decreases buckets - next
  {
    if next < buckets then
      JumpsForward(next, NextKey(key));
      Walk(NextKey(key), next, JumpTo(next, NextKey(key)), buckets)
    else current
  }

  function Jump(key: u64, buckets: nat): int {
    Walk(key, -1, 0, buckets)
  }

  lemma {:induction false} WalkInRange(key: u64, current: int, next: nat, buckets: nat)
    requires -1 <= current < next && current < buckets && (current >= 0 || next < buckets)
    ensures 0 <= Walk(key, current, next, buckets) < buckets
    decreases buckets - next
  {
    if next < buckets {
      JumpsForward(next, NextKey(key));
      WalkInRange(NextKey(key), next, JumpTo(next, NextKey(key)), buckets);
    }
  }

  /** The hash of a key is one of the buckets. */
  lemma JumpInRange(key: u64, buckets: nat)
    requires buckets > 0
    ensures 0 <= Jump(key, buckets) < buckets
  {
    WalkInRange(key, -1, 0, buckets);
  }

  lemma {:induction false} WalkGrows(key: u64, current: int, next: nat, n: nat, m: nat)
    requires n <= m && current < next
    ensures Walk(key, current, next, m) == Walk(key, current, next, n) || Walk(key, current, next, m) >= n
    decreases m - next
  {
    if next < m {
      var key' := NextKey(key);
      JumpsForward(next, key');
      if next < n {
        WalkGrows(key', next, JumpTo(next, key'), n, m);
      } else {
        WalkStays(key', next, JumpTo(next, key'), m);
      }
    }
  }

  lemma {:induction false} WalkStays(key: u64, current: int, next: nat, buckets: nat)
    requires current < next
    ensures Walk(key, current, next, buckets) >= current
    decreases buckets - next
  {
    if next < buckets {
      JumpsForward(next, NextKey(key));
      WalkStays(NextKey(key), next, JumpTo(next, NextKey(key)), buckets);
    }
  }

  /** Growing from `n` to `m` buckets leaves a key in place or moves it to one of the new buckets. */
  lemma JumpIsConsistent(key: u64, n: nat, m: nat)
    requires 0 < n <= m
    ensures Jump(key, m) == Jump(key, n) || n <= Jump(key, m) < m
  {
    WalkGrows(key, -1, 0, n, m);
    JumpInRange(key, m);
  }

  /** The walk of the hash, with machine-sized intermediate values. */
  method JumpConsistentHash(key: u64, buckets: u32) returns (r: u32)
    requires buckets > 0
    ensures r == Jump(key, buckets)
  {
    var k: u64, current: int, next: int := key, -1, 0;
    while next < buckets
      invariant -1 <= current < next && current < buckets && (current >= 0 || next < buckets)
      invariant Walk(k, current, next, buckets) == Jump(key, buckets)
      decreases buckets - next
    {
      JumpsForward(next, NextKey(k));
      FitsWord(next, NextKey(k), buckets);
      current, k := next, NextKey(k);
      next := JumpTo(current, k);
    }
    return current;
  }

  /** The 128-bit intermediate result fits the signed 64-bit variable it is stored in. */
  lemma FitsWord(current: nat, key: u64, buckets: u32)
    requires current < buckets
    ensures JumpTo(current, key) < TWO64 / 2
  {
    var d := key / TWO33 + 1;
    var a := (current + 1) * TWO31;
    MulMonoLeft(current + 1, 0xFFFF_FFFF, TWO31);
    Euclid(a, d);
    MulMonoLeft(1, d, a / d);
  }

  // --- buckets that are reached --------------------------------------------------------------------------

  /** The generator has an inverse: every key is the draw of some other. */
  lemma KeyBefore(draw: u64) returns (key: u64)
    ensures NextKey(key) == draw
  {
    var x: u64 := if draw == 0 then TWO64 - 1 else draw - 1;
    key := (x * 16_133_697_096_952_638_549) % TWO64;
    InverseUndoes(x, 16_133_697_096_952_638_549, 2_862_933_555_777_941_757, TWO64, 2_503_948_805_982_125_087);
    var product := key * 2_862_933_555_777_941_757;
    Euclid(product, TWO64);
    if draw == 0 {
      DivisionUnique(product + 1, TWO64, product / TWO64 + 1, 0);
    } else {
      DivisionUnique(product + 1, TWO64, product / TWO64, draw);
    }
  }

  /** Any divisor can be drawn first, so the walk can leave bucket 0 for any quotient of 2^31. */
  lemma FirstJump(divisor: nat) returns (key: u64)
    requires 1 <= divisor <= TWO31
    ensures JumpTo(0, NextKey(key)) == TWO31 / divisor
  {
    key := KeyBefore((divisor - 1) * TWO33);
  }

  /** Some key stays in bucket 0, however many buckets there are up to 2^31. */
  lemma FirstBucketReached(buckets: nat) returns (key: u64)
    requires 0 < buckets <= TWO31
    ensures Jump(key, buckets) == 0
  {
    hide JumpTo;
    key := FirstJump(1);
    assert JumpTo(0, NextKey(key)) == TWO31;
    assert Walk(NextKey(key), 0, TWO31, buckets) == 0;
  }

  lemma QuotientBack(b: nat)
    requires 0 < b && b * b <= TWO31
    ensures 1 <= TWO31 / b <= TWO31 && TWO31 / (TWO31 / b) == b
  {
    var r := TWO31 / b;
    Euclid(TWO31, b);
    QuotientAtLeast(TWO31, b, b);
    MulMonoLeft(1, b, r);
    DivisionUnique(TWO31, r, b, TWO31 % b);
  }

  /** Some key goes to the newest bucket, for every bucket number up to the root of 2^31. */
  lemma NewestBucketReached(bucket: nat) returns (key: u64)
    requires bucket * bucket <= TWO31
    ensures Jump(key, bucket + 1) == bucket
  {
    if bucket == 0 {
      key := FirstBucketReached(1);
    } else {
      QuotientBack(bucket);
      key := FirstJump(TWO31 / bucket);
      var key' := NextKey(NextKey(key));
      JumpsForward(bucket, key');
      assert Walk(NextKey(key), 0, bucket, bucket + 1) == Walk(key', bucket, JumpTo(bucket, key'), bucket + 1) ==
             bucket;
    }
  }

  // --- routes ------------------------------------------------------------------------------------------------

  function Scrambled(value: u64, shift: nat, factor: u64): u64
    requires shift > 0
  {
    XorBits(value, value / shift) * factor % TWO64
  }

  /** SplitMix64 finalizer; the divisors are right shifts by 30, 27 and 31 bits. */
  function Mix64(value: u64): u64 {
    var a := Scrambled(value, 0x4000_0000, 0xbf58_476d_1ce4_e5b9);
    var b := Scrambled(a, 0x800_0000, 0x94d0_49bb_1331_11eb);
    XorBits(b, b / TWO31)
  }

  // --- the finalizer is a bijection ---------------------------------------------------------------------------

  const INVERSE1: u64 := 10_871_156_337_175_269_513
  const INVERSE2: u64 := 3_573_116_690_164_977_347

  function Unscrambled(target: u64, s: nat, inverse: u64): u64
    requires s > 0
  {
    WordSize();
    Unshifted((target * inverse) % TWO64, 64, s)
  }

  lemma ScrambledBack(value: u64, s: nat, shift: nat, factor: u64, inverse: u64, k: int)
    requires s > 0 && shift > 0 && shift == Pow2(s) && factor * inverse == 1 + TWO64 * k
    ensures Unscrambled(Scrambled(value, shift, factor), s, inverse) == value
    ensures Scrambled(Unscrambled(value, s, inverse), shift, factor) == value
  {
    WordSize();
    hide Pow2, Xor, Shr, Unshifted;
    ShrIs(value, s, shift);
    UnshiftedUndoes(value, 64, s);
    InverseUndoes(XorBits(value, value / shift), factor, inverse, TWO64, k);
    var y := (value * inverse) % TWO64;
    var x := Unshifted(y, 64, s);
    UnshiftedIs(y, 64, s);
    ShrIs(x, s, shift);
    InverseUndoes(value, inverse, factor, TWO64, k);
  }

  function Unmix64(key: u64): u64 {
    WordSize();
    Unscrambled(Unscrambled(Unshifted(key, 64, 31), 27, INVERSE2), 30, INVERSE1)
  }

  lemma Shifts()
    ensures Pow2(27) == 0x800_0000 && Pow2(30) == 0x4000_0000 && Pow2(31) == TWO31
  {
    assert Pow2(8) == 0x100 && Pow2(16) == 0x1_0000 && Pow2(24) == 0x100_0000;
  }

  lemma LastShift(value: u64)
    ensures Pow2(64) == TWO64 && Unshifted(XorBits(value, value / TWO31), 64, 31) == value
    ensures var x := Unshifted(value, 64, 31); x < TWO64 && XorBits(x, x / TWO31) == value
  {
    WordSize();
    Shifts();
    hide Pow2, Xor, Shr, Unshifted;
    ShrIs(value, 31, TWO31);
    UnshiftedUndoes(value, 64, 31);
    UnshiftedIs(value, 64, 31);
    ShrIs(Unshifted(value, 64, 31), 31, TWO31);
  }

  /** Mixing can be undone, both ways: no two order ids share a key, and every key is some order's. */
  lemma MixRoundTrip(value: u64)
    ensures Unmix64(Mix64(value)) == value && Mix64(Unmix64(value)) == value
  {
    Shifts();
    hide Pow2, Xor, Unshifted, Scrambled, Unscrambled, XorBits;
    var a := Scrambled(value, 0x4000_0000, 0xbf58_476d_1ce4_e5b9);
    var b := Scrambled(a, 0x800_0000, 0x94d0_49bb_1331_11eb);
    ScrambledBack(value, 30, 0x4000_0000, 0xbf58_476d_1ce4_e5b9, INVERSE1, 8_125_545_580_553_827_436);
    ScrambledBack(a, 27, 0x800_0000, 0x94d0_49bb_1331_11eb, INVERSE2, 2_077_064_247_507_883_091);
    LastShift(b);
    LastShift(value);
    var c := Unshifted(value, 64, 31);
    var d := Unscrambled(c, 27, INVERSE2);
    ScrambledBack(c, 27, 0x800_0000, 0x94d0_49bb_1331_11eb, INVERSE2, 2_077_064_247_507_883_091);
    ScrambledBack(d, 30, 0x4000_0000, 0xbf58_476d_1ce4_e5b9, INVERSE1, 8_125_545_580_553_827_436);
  }

  datatype Router = Router(dbs: u32, tablesPerDb: u32, virtualDbs: u32, virtualTables: u32)

  /** What the router's constructor demands. */
  predicate Configured(x: Router) {
    && x.dbs > 0 && x.tablesPerDb > 0 && x.virtualDbs > 0
    && x.virtualTables >= x.virtualDbs && x.virtualTables % x.virtualDbs == 0
  }

  datatype Route = Route(virtualDb: nat, virtualTable: nat, db: nat, table: nat)

  lemma TablesPerVirtualDb(x: Router)
    requires Configured(x)
    ensures x.virtualTables / x.virtualDbs > 0
    ensures x.virtualDbs * (x.virtualTables / x.virtualDbs) == x.virtualTables
  {
    Euclid(x.virtualTables, x.virtualDbs);
  }

  /** Virtual database and table of an order; they do not depend on the physical layout. */
  function Virtual(x: Router, orderId: u64): (r: (nat, nat))
    requires Configured(x)
    ensures r.0 < x.virtualDbs && r.1 < x.virtualTables
  {
    hide Mix64, XorBits, Jump;
    var primary := Mix64(orderId);
    TablesPerVirtualDb(x);
    var per := x.virtualTables / x.virtualDbs;
    JumpInRange(primary, x.virtualDbs);
    var key := Mix64(XorBits(primary, 0x9e37_79b9_7f4a_7c15));
    JumpInRange(key, per);
    var vdb, local := Jump(primary, x.virtualDbs), Jump(key, per);
    RowMajor(x.virtualDbs, per, vdb, local);
    (vdb, vdb * per + local)
  }

  lemma RowMajor(rows: nat, per: nat, row: nat, column: nat)
    requires row < rows && column < per
    ensures 0 <= row * per + column < rows * per
  {
    MulMonoLeft(row + 1, rows, per);
  }

  /** Where an order goes: virtual place first, physical place from it. */
  function RouteOrder(x: Router, orderId: u64): (r: Route)
    requires Configured(x)
    ensures r.db < x.dbs && r.table < x.tablesPerDb
    ensures r.virtualDb < x.virtualDbs && r.virtualTable < x.virtualTables
  {
    hide Mix64, XorBits, Jump, Virtual;
    var primary := Mix64(orderId);
    var (vdb, vtable) := Virtual(x, orderId);
    var dbKey := Mix64(XorBits(vdb, 0xa076_1d64_78bd_642f));
    var tableKey := Mix64(XorBits(XorBits(primary, vtable), 0xe703_7ed1_a0b4_28db));
    JumpInRange(dbKey, x.dbs);
    JumpInRange(tableKey, x.tablesPerDb);
    Route(vdb, vtable, Jump(dbKey, x.dbs), Jump(tableKey, x.tablesPerDb))
  }

  /**
   Adding databases never moves an order between old databases: it stays or moves to a new one,
   and its virtual place and its table are unchanged.
   */
  lemma AddingDatabases(x: Router, orderId: u64, dbs: u32)
    requires Configured(x) && x.dbs <= dbs
    ensures var r, r' := RouteOrder(x, orderId), RouteOrder(x.(dbs := dbs), orderId);
            && (r'.db == r.db || r'.db >= x.dbs)
            && r'.table == r.table && r'.virtualDb == r.virtualDb && r'.virtualTable == r.virtualTable
  {
    hide Mix64, XorBits, Jump;
    var (vdb, _) := Virtual(x, orderId);
    JumpIsConsistent(Mix64(XorBits(vdb, 0xa076_1d64_78bd_642f)), x.dbs, dbs);
  }

  /** Adding tables moves an order, if at all, to a new table of its own database. */
  lemma AddingTables(x: Router, orderId: u64, tables: u32)
    requires Configured(x) && x.tablesPerDb <= tables
    ensures var r, r' := RouteOrder(x, orderId), RouteOrder(x.(tablesPerDb := tables), orderId);
            r'.db == r.db && (r'.table == r.table || r'.table >= x.tablesPerDb)
  {
    hide Mix64, XorBits, Jump;
    var primary := Mix64(orderId);
    var (_, vtable) := Virtual(x, orderId);
    JumpIsConsistent(Mix64(XorBits(XorBits(primary, vtable), 0xe703_7ed1_a0b4_28db)), x.tablesPerDb, tables);
  }

  // --- partitions of the event stream ------------------------------------------------------------------------

  function Partition(x: Router, orderId: u64, partitions: u32): int
    requires Configured(x) && partitions >= x.dbs
  {
    hide RouteOrder;
    var r := RouteOrder(x, orderId);
    var lanes := if partitions / x.dbs < 1 then 1 else partitions / x.dbs;
    r.db + (r.virtualTable % lanes) * x.dbs
  }

  /** Every partition is in range and belongs to exactly one database, the order's own. */
  lemma PartitionBelongs(x: Router, orderId: u64, partitions: u32)
    requires Configured(x) && partitions >= x.dbs
    ensures 0 <= Partition(x, orderId, partitions) < partitions
    ensures Partition(x, orderId, partitions) % x.dbs == RouteOrder(x, orderId).db
  {
    hide RouteOrder;
    var r := RouteOrder(x, orderId);
    var q := partitions / x.dbs;
    Euclid(partitions, x.dbs);
    QuotientAtLeast(partitions, x.dbs, 1);
    var lane := r.virtualTable % q;
    MulMonoLeft(lane + 1, q, x.dbs);
    DivisionUnique(r.db + lane * x.dbs, x.dbs, lane, r.db);
  }

  /** Orders of different databases never share a partition. */
  lemma PartitionsDoNotMix(x: Router, a: u64, b: u64, partitions: u32)
    requires Configured(x) && partitions >= x.dbs && Partition(x, a, partitions) == Partition(x, b, partitions)
    ensures RouteOrder(x, a).db == RouteOrder(x, b).db
  {
    hide RouteOrder, Partition;
    PartitionBelongs(x, a, partitions);
    PartitionBelongs(x, b, partitions);
  }

  // --- places that are used -------------------------------------------------------------------------------------

  lemma XorBack(a: u64, b: u64)
    ensures XorBits(XorBits(a, b), b) == a
  {
    WordSize();
    hide Pow2, Xor;
    XorTwice(a, b, 64);
  }

  /** Some order goes to the first virtual database, and some to the last, however the tables are laid out. */
  lemma VirtualDbsUsed(x: Router) returns (first: u64, last: u64)
    requires Configured(x) && x.virtualDbs <= 46_341
    ensures RouteOrder(x, first).virtualDb == 0 && RouteOrder(x, last).virtualDb == x.virtualDbs - 1
  {
    hide Mix64, Unmix64, XorBits, Jump;
    var key := FirstBucketReached(x.virtualDbs);
    first := Unmix64(key);
    MixRoundTrip(key);
    MulMono(x.virtualDbs - 1, x.virtualDbs - 1, 46_340);
    MulMonoLeft(x.virtualDbs - 1, 46_340, 46_340);
    key := NewestBucketReached(x.virtualDbs - 1);
    last := Unmix64(key);
    MixRoundTrip(key);
  }

  /** Some order goes to the first table of its virtual database, and some to the last. */
  lemma VirtualTablesUsed(x: Router) returns (first: u64, last: u64)
    requires Configured(x) && x.virtualTables / x.virtualDbs <= 46_341
    ensures var per := x.virtualTables / x.virtualDbs;
            && RouteOrder(x, first).virtualTable == RouteOrder(x, first).virtualDb * per
            && RouteOrder(x, last).virtualTable == RouteOrder(x, last).virtualDb * per + per - 1
  {
    hide Mix64, Unmix64, XorBits, Jump;
    var per := x.virtualTables / x.virtualDbs;
    TablesPerVirtualDb(x);
    var key := FirstBucketReached(per);
    first := SecondKey(key);
    MulMono(per - 1, per - 1, 46_340);
    MulMonoLeft(per - 1, 46_340, 46_340);
    key := NewestBucketReached(per - 1);
    last := SecondKey(key);
  }

  /** The order whose table is chosen with a given key. */
  lemma SecondKey(key: u64) returns (orderId: u64)
    ensures Mix64(XorBits(Mix64(orderId), 0x9e37_79b9_7f4a_7c15)) == key
  {
    hide Mix64, Unmix64, XorBits;
    MixRoundTrip(key);
    var primary := XorBits(Unmix64(key), 0x9e37_79b9_7f4a_7c15);
    XorBack(Unmix64(key), 0x9e37_79b9_7f4a_7c15);
    MixRoundTrip(primary);
    orderId := Unmix64(primary);
  }

  /** With one virtual table, some order goes to the first physical table and some to the last. */
  lemma TablesUsed(x: Router) returns (first: u64, last: u64)
    requires Configured(x) && x.virtualTables == 1 && x.tablesPerDb <= 46_341
    ensures RouteOrder(x, first).table == 0 && RouteOrder(x, last).table == x.tablesPerDb - 1
  {
    hide Mix64, Unmix64, XorBits, Jump, Virtual;
    var key := FirstBucketReached(x.tablesPerDb);
    first := TableKey(key);
    MulMono(x.tablesPerDb - 1, x.tablesPerDb - 1, 46_340);
    MulMonoLeft(x.tablesPerDb - 1, 46_340, 46_340);
    key := NewestBucketReached(x.tablesPerDb - 1);
    last := TableKey(key);
  }

  lemma TableKey(key: u64) returns (orderId: u64)
    ensures Mix64(XorBits(XorBits(Mix64(orderId), 0), 0xe703_7ed1_a0b4_28db)) == key
  {
    hide Mix64, Unmix64, XorBits;
    MixRoundTrip(key);
    var mixed := XorBits(Unmix64(key), 0xe703_7ed1_a0b4_28db);
    XorBack(Unmix64(key), 0xe703_7ed1_a0b4_28db);
    var primary := XorBits(mixed, 0);
    XorBack(mixed, 0);
    MixRoundTrip(primary);
    orderId := Unmix64(primary);
  }
}
