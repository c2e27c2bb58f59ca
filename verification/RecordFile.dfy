/** Files of fixed-size checksummed records, and what is left of them when bytes are missing. */
module RecordFiles {
  import opened Bytes
  import opened Checksums

  function Flat(xs: seq<seq<byte>>): seq<byte> {
    if xs == [] then [] else xs[0] + Flat(xs[1..])
  }

  /** Records of `n` bytes, each closed with its checksum. */
  ghost predicate Records(xs: seq<seq<byte>>, n: nat) {
    n >= 8 && forall k :: 0 <= k < |xs| ==> |xs[k]| == n && Intact(xs[k])
  }

  /** Nothing readable is in front: too few bytes for a record, or a wrong checksum. */
  predicate Stray(b: seq<byte>, n: nat)
    requires n >= 8
  {
    |b| < n || !Intact(b[..n])
  }

  /** The whole, intact records a body starts with. */
  function Whole(b: seq<byte>, n: nat): (xs: seq<seq<byte>>)
    requires n >= 8
    ensures Records(xs, n)
    decreases |b|
  {
    if Stray(b, n) then [] else [b[..n]] + Whole(b[n..], n)
  }

  /** Every whole record of a body is intact; a short tail does not matter. */
  predicate NoneBroken(b: seq<byte>, n: nat)
    requires n >= 8
    decreases |b|
  {
    |b| < n || (Intact(b[..n]) && NoneBroken(b[n..], n))
  }

  lemma ReadsOne(b: seq<byte>, n: nat)
    requires 8 <= n <= |b|
    ensures NoneBroken(b, n) <==> Intact(b[..n]) && NoneBroken(b[n..], n)
    ensures Whole(b, n) == if Intact(b[..n]) then [b[..n]] + Whole(b[n..], n) else []
  {}

  lemma {:induction false} FlatConcat(a: seq<seq<byte>>, b: seq<seq<byte>>)
    ensures Flat(a + b) == Flat(a) + Flat(b)
  {
    if a == [] {
      assert a + b == b;
    } else {
      assert (a + b)[1..] == a[1..] + b;
      FlatConcat(a[1..], b);
    }
  }

  lemma FlatOne(x: seq<byte>)
    ensures Flat([x]) == x
  {
    assert [x][1..] == [];
  }

  /** Records are read back in order, and reading goes on behind them. */
  lemma {:induction false} FlatReads(xs: seq<seq<byte>>, n: nat, rest: seq<byte>)
    requires Records(xs, n)
    ensures Whole(Flat(xs) + rest, n) == xs + Whole(rest, n)
    ensures NoneBroken(Flat(xs) + rest, n) <==> NoneBroken(rest, n)
    decreases |xs|
  {
    hide Intact;
    if xs == [] {
      assert Flat(xs) + rest == rest;
    } else {
      var b := Flat(xs) + rest;
      assert b[..n] == xs[0] && b[n..] == Flat(xs[1..]) + rest;
      FlatReads(xs[1..], n, rest);
    }
  }

  /** Wherever a run of records is cut, whole records and less than one more are left. */
  lemma {:induction false} FlatCut(xs: seq<seq<byte>>, n: nat, cut: nat) returns (k: nat, torn: seq<byte>)
    requires Records(xs, n) && cut <= |Flat(xs)|
    ensures k <= |xs| && |torn| < n && Flat(xs)[..cut] == Flat(xs[..k]) + torn
    ensures torn != [] ==> k < |xs| && torn == xs[k][..|torn|]
    ensures cut == |Flat(xs)| ==> k == |xs| && torn == []
    decreases |xs|
  {
    hide Intact;
    if xs == [] || cut < n {
      k, torn := 0, Flat(xs)[..cut];
      assert xs[..0] == [];
      if xs != [] && torn != [] {
        assert torn == xs[0][..cut];
      }
    } else {
      var j, t := FlatCut(xs[1..], n, cut - n);
      k, torn := j + 1, t;
      assert xs[..k] == [xs[0]] + xs[1..][..j];
      FlatConcat([xs[0]], xs[1..][..j]);
      FlatOne(xs[0]);
      assert Flat(xs)[..cut] == xs[0] + Flat(xs[1..])[..cut - n];
    }
  }
}
