/** Little-endian integers as byte sequences. */
module Bytes {
  import opened Types

  type byte = x: int | 0 <= x < 256

  function Pow256(k: nat): nat {
    if k == 0 then 1 else 256 * Pow256(k - 1)
  }

  /** The low `k` bytes of `n`, least significant first. */
  function Le(n: nat, k: nat): (s: seq<byte>)
    ensures |s| == k
  {
    if k == 0 then [] else [n % 256] + Le(n / 256, k - 1)
  }

  function FromLe(s: seq<byte>): (n: nat)
    decreases |s|
  {
    if s == [] then 0 else s[0] + 256 * FromLe(s[1..])
  }

  lemma Widths()
    ensures Pow256(1) == 0x100 && Pow256(4) == 0x1_0000_0000 && Pow256(8) == 0x1_0000_0000_0000_0000
  {
    assert Pow256(2) == 0x1_0000 && Pow256(3) == 0x100_0000 && Pow256(4) == 0x1_0000_0000;
    assert Pow256(5) == 0x100_0000_0000 && Pow256(6) == 0x1_0000_0000_0000 && Pow256(7) == 0x100_0000_0000_0000;
  }

  lemma {:induction false} FromLeBound(s: seq<byte>)
    ensures FromLe(s) < Pow256(|s|)
    decreases |s|
  {
    if s != [] {
      FromLeBound(s[1..]);
    }
  }

  lemma {:induction false} LeRoundTrip(n: nat, k: nat)
    requires n < Pow256(k)
    ensures FromLe(Le(n, k)) == n
    decreases k
  {
    if k > 0 {
      LeRoundTrip(n / 256, k - 1);
      assert Le(n, k)[1..] == Le(n / 256, k - 1);
    }
  }

  lemma {:induction false} FromLeRoundTrip(s: seq<byte>)
    ensures Le(FromLe(s), |s|) == s
    decreases |s|
  {
    if s != [] {
      FromLeRoundTrip(s[1..]);
      assert FromLe(s) % 256 == s[0] && FromLe(s) / 256 == FromLe(s[1..]);
    }
  }

  function Le32(n: u32): (s: seq<byte>)
    ensures |s| == 4
  {
    Le(n, 4)
  }

  function Le64(n: u64): (s: seq<byte>)
    ensures |s| == 8
  {
    Le(n, 8)
  }

  function FromLe32(s: seq<byte>): u32
    requires |s| == 4
  {
    FromLeBound(s);
    Widths();
    FromLe(s)
  }

  function FromLe64(s: seq<byte>): u64
    requires |s| == 8
  {
    FromLeBound(s);
    Widths();
    FromLe(s)
  }

  lemma RoundTrip32(n: u32)
    ensures FromLe32(Le32(n)) == n
  {
    Widths();
    LeRoundTrip(n, 4);
  }

  lemma RoundTrip64(n: u64)
    ensures FromLe64(Le64(n)) == n
  {
    Widths();
    LeRoundTrip(n, 8);
  }

  /** Overwrite part of a buffer. */
  method Put(out: array<byte>, off: nat, bytes: seq<byte>)
    requires off + |bytes| <= out.Length
    modifies out
    ensures out[..] == old(out[..])[..off] + bytes + old(out[..])[off + |bytes|..]
  {
    for k := 0 to |bytes|
      invariant forall j :: 0 <= j < k ==> out[off + j] == bytes[j]
      invariant forall j :: 0 <= j < off || off + k <= j < out.Length ==> out[j] == old(out[j])
    {
      out[off + k] := bytes[k];
    }
  }
}
