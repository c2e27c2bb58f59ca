/** FNV-1a, the checksum that closes every durable record. */
module Checksums {
  import opened Types
  import opened Bytes
  import opened Words
  import opened Arithmetic

  const SEED: u64 := 0xcbf29ce484222325

  /** One byte folded into the hash. */
  function Step(h: u64, b: byte): u64 {
    (XorBits(h, b) * 0x100000001b3) % TWO64
  }

  function Mix(h: u64, bytes: seq<byte>): u64
    decreases |bytes|
  {
    if bytes == [] then h else Mix(Step(h, bytes[0]), bytes[1..])
  }

  function Fnv(bytes: seq<byte>): u64 {
    Mix(SEED, bytes)
  }

  /** Bytes followed by their checksum. */
  function Sealed(bytes: seq<byte>): (s: seq<byte>)
    ensures |s| == |bytes| + 8
  {
    bytes + Le64(Fnv(bytes))
  }

  /** The last 8 bytes are the checksum of the rest. */
  predicate Intact(s: seq<byte>)
    requires |s| >= 8
  {
    Fnv(s[..|s| - 8]) == FromLe64(s[|s| - 8..])
  }

  lemma SealedIsIntact(bytes: seq<byte>)
    ensures Intact(Sealed(bytes)) && Sealed(bytes)[..|bytes|] == bytes
  {
    hide Fnv, Le64, FromLe64;
    RoundTrip64(Fnv(bytes));
    assert Sealed(bytes)[|bytes|..] == Le64(Fnv(bytes));
  }

  // --- what the checksum tells apart ------------------------------------------------------------------

  /** The prime is odd, so multiplying by its inverse modulo 2^64 undoes a multiplication by it. */
  lemma Undone(x: u64)
    ensures (((x * 0x100000001b3) % TWO64) * 0xce965057aff6957b) % TWO64 == x
  {
    var p, q := 0x100000001b3, 0xce965057aff6957b;
    assert p * q == 1 + TWO64 * ((p * q) / TWO64);
    InverseUndoes(x, p, q, TWO64, (p * q) / TWO64);
  }

  lemma StepKeepsApart(h: u64, h': u64, b: byte)
    requires Step(h, b) == Step(h', b)
    ensures h == h'
  {
    hide XorBits;
    Undone(XorBits(h, b));
    Undone(XorBits(h', b));
    XorKeepsApart(h, h', b);
  }

  lemma StepTells(h: u64, x: byte, y: byte)
    requires Step(h, x) == Step(h, y)
    ensures x == y
  {
    hide XorBits;
    Undone(XorBits(h, x));
    Undone(XorBits(h, y));
    XorTells(h, x, y);
  }

  /** The rest of the bytes carries a difference on. */
  lemma {:induction false} MixInjective(h: u64, h': u64, bytes: seq<byte>)
    requires Mix(h, bytes) == Mix(h', bytes)
    ensures h == h'
    decreases |bytes|
  {
    hide Step;
    if bytes != [] {
      MixInjective(Step(h, bytes[0]), Step(h', bytes[0]), bytes[1..]);
      StepKeepsApart(h, h', bytes[0]);
    }
  }

  lemma {:induction false} MixConcat(h: u64, a: seq<byte>, b: seq<byte>)
    ensures Mix(h, a + b) == Mix(Mix(h, a), b)
    decreases |a|
  {
    hide Step;
    if a == [] {
      assert a + b == b;
    } else {
      assert (a + b)[1..] == a[1..] + b;
      MixConcat(Step(h, a[0]), a[1..], b);
    }
  }

  lemma MixOne(h: u64, b: byte)
    ensures Mix(h, [b]) == Step(h, b)
  {
    hide Step;
    assert [b][1..] == [];
  }

  /** Two texts that differ in one byte have different checksums. */
  lemma OneByteDiffers(a: seq<byte>, x: byte, y: byte, b: seq<byte>)
    requires x != y
    ensures Fnv(a + [x] + b) != Fnv(a + [y] + b)
  {
    hide Step, Mix;
    var h := Mix(SEED, a);
    MixConcat(SEED, a, [x]);
    MixConcat(SEED, a, [y]);
    MixConcat(SEED, a + [x], b);
    MixConcat(SEED, a + [y], b);
    MixOne(h, x);
    MixOne(h, y);
    if Fnv(a + [x] + b) == Fnv(a + [y] + b) {
      MixInjective(Step(h, x), Step(h, y), b);
      StepTells(h, x, y);
    }
  }
}
