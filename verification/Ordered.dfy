/** Ordered enumerations used by the level walks. */
module Ordered {
  import opened Types
  import opened Bits

  ghost predicate Ascending(s: seq<int>) {
    forall i, j :: 0 <= i < j < |s| ==> s[i] < s[j]
  }

  ghost predicate Descending(s: seq<int>) {
    forall i, j :: 0 <= i < j < |s| ==> s[i] > s[j]
  }

  lemma AscendingConcat(a: seq<int>, b: seq<int>, m: int)
    requires Ascending(a) && Ascending(b)
    requires (forall x :: x in a ==> x < m) && (forall x :: x in b ==> m <= x)
    ensures Ascending(a + b)
  {
    assert forall i :: 0 <= i < |a| ==> a[i] in a;
    assert forall i :: 0 <= i < |b| ==> b[i] in b;
  }

  lemma DescendingConcat(a: seq<int>, b: seq<int>, m: int)
    requires Descending(a) && Descending(b)
    requires (forall x :: x in a ==> x >= m) && (forall x :: x in b ==> m > x)
    ensures Descending(a + b)
  {
    assert forall i :: 0 <= i < |a| ==> a[i] in a;
    assert forall i :: 0 <= i < |b| ==> b[i] in b;
  }

  lemma AscendingNothing()
    ensures Ascending([])
  {}

  lemma DescendingNothing()
    ensures Descending([])
  {}

  lemma AscendingShifted(a: seq<int>, b: seq<int>, offset: int)
    requires Ascending(a) && |b| == |a| && forall i :: 0 <= i < |a| ==> b[i] == a[i] + offset
    ensures Ascending(b)
  {}

  lemma DescendingShifted(a: seq<int>, b: seq<int>, offset: int)
    requires Descending(a) && |b| == |a| && forall i :: 0 <= i < |a| ==> b[i] == a[i] + offset
    ensures Descending(b)
  {}

  lemma JoinAscending(a: seq<int>, b: seq<int>, c: seq<int>, lo: int, hi: int)
    requires Ascending(a) && Ascending(b) && Ascending(c) && lo <= hi
    requires (forall x :: x in a ==> x < lo) && (forall x :: x in b ==> lo <= x < hi)
             && (forall x :: x in c ==> hi <= x)
    ensures Ascending(a + b + c)
    ensures forall x :: x in a + b + c <==> x in a || x in b || x in c
  {
    AscendingConcat(a, b, lo);
    AscendingConcat(a + b, c, hi);
  }

  lemma JoinDescending(a: seq<int>, b: seq<int>, c: seq<int>, lo: int, hi: int)
    requires Descending(a) && Descending(b) && Descending(c) && lo <= hi
    requires (forall x :: x in a ==> hi <= x) && (forall x :: x in b ==> lo <= x < hi)
             && (forall x :: x in c ==> x < lo)
    ensures Descending(a + b + c)
    ensures forall x :: x in a + b + c <==> x in a || x in b || x in c
  {
    DescendingConcat(a, b, hi);
    DescendingConcat(a + b, c, lo);
  }

  /** The smallest element, as a `BTreeMap` gives it. */
  method FirstKey(keys: set<Price>) returns (m: Price)
    requires keys != {}
    ensures m in keys && forall k :: k in keys ==> m <= k
  {
    m :| m in keys;
    var rest := keys - {m};
    while rest != {}
      invariant m in keys && rest <= keys && forall k :: k in keys && k !in rest ==> m <= k
      decreases rest
    {
      var k :| k in rest;
      if k < m { m := k; }
      rest := rest - {k};
    }
  }

  method LastKey(keys: set<Price>) returns (m: Price)
    requires keys != {}
    ensures m in keys && forall k :: k in keys ==> k <= m
  {
    m :| m in keys;
    var rest := keys - {m};
    while rest != {}
      invariant m in keys && rest <= keys && forall k :: k in keys && k !in rest ==> k <= m
      decreases rest
    {
      var k :| k in rest;
      if m < k { m := k; }
      rest := rest - {k};
    }
  }

  method KeysAscending(keys: set<Price>) returns (ks: seq<Price>)
    ensures Ascending(ks) && forall k :: k in ks <==> k in keys
  {
    ks := [];
    var rest := keys;
    while rest != {}
      invariant rest <= keys && Ascending(ks)
      invariant forall k :: k in keys <==> k in rest || k in ks
      invariant forall k, j :: k in ks && j in rest ==> k < j
      decreases rest
    {
      var m := FirstKey(rest);
      AscendingConcat(ks, [m], m);
      ks := ks + [m];
      rest := rest - {m};
    }
  }

  method KeysDescending(keys: set<Price>) returns (ks: seq<Price>)
    ensures Descending(ks) && forall k :: k in ks <==> k in keys
  {
    ks := [];
    var rest := keys;
    while rest != {}
      invariant rest <= keys && Descending(ks)
      invariant forall k :: k in keys <==> k in rest || k in ks
      invariant forall k, j :: k in ks && j in rest ==> k > j
      decreases rest
    {
      var m := LastKey(rest);
      DescendingConcat(ks, [m], (m as int) + 1);
      ks := ks + [m];
      rest := rest - {m};
    }
  }

  ghost function BitSet(w: bv64): set<nat> {
    set k | 0 <= k < 64 && Test(w, k)
  }

  lemma BitSetClear(w: bv64, t: nat)
    requires t < 64 && Test(w, t)
    ensures BitSet(Clear(w, t)) == BitSet(w) - {t}
  {
    hide Test, Clear;
    forall k | 0 <= k < 64 ensures Test(Clear(w, t), k) <==> k != t && Test(w, k) {
      TestClear(w, t, k);
    }
  }

  lemma BitSetZero()
    ensures BitSet(0) == {}
  {
    hide Test;
    ZeroHasNoBits();
  }

  /** Visit the set bits of a word from low to high, dropping each with `bits & (bits - 1)`. */
  method BitsAscending(word: bv64) returns (ks: seq<nat>)
    ensures Ascending(ks) && forall k :: k in ks <==> k in BitSet(word)
  {
    hide Test, Clear, BitSet;
    ks := [];
    var bits := word;
    BitSetZero();
    while bits != 0
      invariant Ascending(ks)
      invariant forall k :: k in BitSet(word) <==> k in BitSet(bits) || k in ks
      invariant forall k, j :: k in ks && j in BitSet(bits) ==> k < j
      decreases BitSet(bits)
    {
      var t := TrailingZeros(bits);
      DropsLowestBit(bits);
      BitSetClear(bits, t);
      LowestIsFirst(bits);
      AscendingConcat(ks, [t], t);
      ks := ks + [t];
      bits := bits & (bits - 1);
    }
  }

  lemma LowestIsFirst(w: bv64)
    requires w != 0
    ensures TrailingZeros(w) in BitSet(w) && forall k :: k in BitSet(w) ==> TrailingZeros(w) <= k
  {
    hide Test, TrailingZeros;
  }

  lemma HighestIsLast(w: bv64)
    requires w != 0
    ensures 63 - LeadingZeros(w) in BitSet(w) && forall k :: k in BitSet(w) ==> k <= 63 - LeadingZeros(w)
  {
    hide Test, LeadingZeros;
  }

  /** Visit the set bits of a word from high to low. */
  method BitsDescending(word: bv64) returns (ks: seq<nat>)
    ensures Descending(ks) && forall k :: k in ks <==> k in BitSet(word)
  {
    hide Test, Clear, BitSet;
    ks := [];
    var bits := word;
    BitSetZero();
    while bits != 0
      invariant Descending(ks)
      invariant forall k :: k in BitSet(word) <==> k in BitSet(bits) || k in ks
      invariant forall k, j :: k in ks && j in BitSet(bits) ==> k > j
      decreases BitSet(bits)
    {
      var t := 63 - LeadingZeros(bits);
      BitSetClear(bits, t);
      HighestIsLast(bits);
      DescendingConcat(ks, [t], t + 1);
      ks := ks + [t];
      bits := Clear(bits, t);
    }
  }
}
