/** Bitwise arithmetic on machine words, as numbers. */
module Words {
  import opened Types
  import opened Arithmetic

  function Pow2(k: nat): nat {
    if k == 0 then 1 else 2 * Pow2(k - 1)
  }

  /** Exclusive or of the low `k` bits. */
  function Xor(a: nat, b: nat, k: nat): (r: nat)
    ensures r < Pow2(k)
  {
    if k == 0 then 0 else (a % 2 + b % 2) % 2 + 2 * Xor(a / 2, b / 2, k - 1)
  }

  lemma WordSize()
    ensures Pow2(64) == TWO64
  {
    assert Pow2(8) == 0x100 && Pow2(16) == 0x1_0000 && Pow2(24) == 0x100_0000 && Pow2(32) == 0x1_0000_0000;
    assert Pow2(40) == 0x100_0000_0000 && Pow2(48) == 0x1_0000_0000_0000 && Pow2(56) == 0x100_0000_0000_0000;
  }

  function XorBits(a: u64, b: u64): u64 {
    WordSize();
    Xor(a, b, 64)
  }

  lemma XorWhole(a: nat, b: nat, k: nat)
    requires k > 0
    ensures Xor(a, b, k) == (a % 2 + b % 2) % 2 + 2 * Xor(a / 2, b / 2, k - 1)
  {}

  lemma TwoParts(low: nat, high: nat)
    requires low < 2
    ensures (low + 2 * high) % 2 == low && (low + 2 * high) / 2 == high
  {}

  lemma XorParts(a: nat, b: nat, k: nat)
    requires k > 0
    ensures Xor(a, b, k) % 2 == (a % 2 + b % 2) % 2 && Xor(a, b, k) / 2 == Xor(a / 2, b / 2, k - 1)
  {
    XorWhole(a, b, k);
    hide Xor;
    TwoParts((a % 2 + b % 2) % 2, Xor(a / 2, b / 2, k - 1));
  }

  lemma BitTwice(x: nat, y: nat)
    ensures ((x % 2 + y % 2) % 2 + y % 2) % 2 == x % 2
  {}

  /** The same word twice leaves the first. */
  lemma {:induction false} XorTwice(a: nat, b: nat, k: nat)
    requires a < Pow2(k)
    ensures Xor(Xor(a, b, k), b, k) == a
    decreases k
  {
    hide Xor;
    if k > 0 {
      var r := Xor(a, b, k);
      XorParts(a, b, k);
      XorParts(r, b, k);
      BitTwice(a, b);
      XorTwice(a / 2, b / 2, k - 1);
      assert r % 2 == (a % 2 + b % 2) % 2;
    } else {
      XorNothing(a, b);
    }
  }

  lemma XorNothing(a: nat, b: nat)
    ensures Xor(a, b, 0) == 0
  {}

  lemma {:induction false} XorSwaps(a: nat, b: nat, k: nat)
    ensures Xor(a, b, k) == Xor(b, a, k)
    decreases k
  {
    if k > 0 {
      XorSwaps(a / 2, b / 2, k - 1);
    }
  }

  lemma XorKeepsApart(a: u64, a': u64, b: u64)
    requires XorBits(a, b) == XorBits(a', b)
    ensures a == a'
  {
    hide Pow2, Xor;
    WordSize();
    XorTwice(a, b, 64);
    XorTwice(a', b, 64);
  }

  lemma XorTells(a: u64, b: u64, b': u64)
    requires XorBits(a, b) == XorBits(a, b')
    ensures b == b'
  {
    hide Pow2, Xor;
    XorSwaps(a, b, 64);
    XorSwaps(a, b', 64);
    XorKeepsApart(b, b', a);
  }

  lemma {:induction false} XorZero(a: nat, k: nat)
    requires a < Pow2(k)
    ensures Xor(a, 0, k) == a
    decreases k
  {
    if k > 0 {
      XorZero(a / 2, k - 1);
    }
  }

  /** A small word changes the low bits only. */
  lemma {:induction false} XorLow(a: nat, b: nat, k: nat, low: nat)
    requires low <= k && a < Pow2(k) && b < Pow2(low)
    ensures Xor(a, b, k) == a - a % Pow2(low) + Xor(a % Pow2(low), b, low)
    decreases low
  {
    hide Xor;
    if low == 0 {
      XorZero(a, k);
      XorNothing(a % 1, b);
    } else {
      var p := Pow2(low - 1);
      var r := a % (2 * p);
      XorParts(a, b, k);
      XorParts(r, b, low);
      HalfRemainder(a, p);
      XorLow(a / 2, b / 2, k - 1, low - 1);
      Recomposed(a, r, b, Xor(a, b, k), Xor(r, b, low));
    }
  }

  /** Two words with equal low bits whose halves differ by as much as the originals'. */
  lemma Recomposed(a: nat, r: nat, b: nat, x: nat, y: nat)
    requires r % 2 == a % 2 && x % 2 == (a % 2 + b % 2) % 2 && y % 2 == (r % 2 + b % 2) % 2
    requires x / 2 == a / 2 - r / 2 + y / 2
    ensures x == a - r + y
  {}

  lemma HalfRemainder(a: nat, p: nat)
    requires p > 0
    ensures (a % (2 * p)) % 2 == a % 2 && (a % (2 * p)) / 2 == (a / 2) % p
  {
    var q, r := (a / 2) / p, (a / 2) % p;
    Euclid(a / 2, p);
    MulAssoc(2, p, q);
    DivisionUnique(a, 2 * p, q, 2 * r + a % 2);
  }

  // --- undoing a shifted exclusive or ---------------------------------------------------------------------

  /** Shift right, bit by bit. */
  function Shr(a: nat, s: nat): nat
    decreases s
  {
    if s == 0 then a else Shr(a / 2, s - 1)
  }

  lemma HalfQuotient(a: nat, p: nat)
    requires p > 0
    ensures a / (2 * p) == (a / 2) / p
  {
    var q, r := (a / 2) / p, (a / 2) % p;
    Euclid(a / 2, p);
    MulAssoc(2, p, q);
    DivisionUnique(a, 2 * p, q, 2 * r + a % 2);
  }

  lemma {:induction false} ShrIs(a: nat, s: nat, p: nat)
    requires p == Pow2(s) && p > 0
    ensures Shr(a, s) == a / p
    decreases s
  {
    if s > 0 {
      ShrIs(a / 2, s - 1, p / 2);
      HalfQuotient(a, p / 2);
    }
  }

  /** A shift goes through the exclusive or. */
  lemma {:induction false} XorShifts(a: nat, b: nat, k: nat, s: nat)
    requires s <= k
    ensures Shr(Xor(a, b, k), s) == Xor(Shr(a, s), Shr(b, s), k - s)
    decreases s
  {
    hide Xor;
    if s > 0 {
      XorParts(a, b, k);
      XorShifts(a / 2, b / 2, k - 1, s - 1);
    }
  }

  lemma {:induction false} ShiftedFits(a: nat, k: nat, s: nat)
    requires s <= k && a < Pow2(k)
    ensures Shr(a, s) < Pow2(k - s)
    decreases s
  {
    if s > 0 {
      ShiftedFits(a / 2, k - 1, s - 1);
    }
  }

  lemma {:induction false} ShiftedOut(a: nat, k: nat, s: nat)
    requires k <= s && a < Pow2(k)
    ensures Shr(a, s) == 0
    decreases s
  {
    if s > 0 {
      ShiftedOut(a / 2, if k == 0 then 0 else k - 1, s - 1);
    }
  }

  /** The word whose exclusive or with itself, shifted right by `s`, is `y`. */
  function Unshifted(y: nat, k: nat, s: nat): (x: nat)
    requires s > 0 && y < Pow2(k)
    ensures x < Pow2(k)
    decreases k
  {
    if k <= s then y
    else
      ShiftedFits(y, k, s);
      Xor(y, Unshifted(Shr(y, s), k - s, s), k)
  }

  lemma {:induction false} UnshiftedIs(y: nat, k: nat, s: nat)
    requires s > 0 && y < Pow2(k)
    ensures var x := Unshifted(y, k, s); Xor(x, Shr(x, s), k) == y
    decreases k
  {
    hide Xor, Pow2, Shr;
    if k <= s {
      ShiftedOut(y, k, s);
      XorZero(y, k);
    } else {
      ShiftedFits(y, k, s);
      var x := Unshifted(Shr(y, s), k - s, s);
      UnshiftedIs(Shr(y, s), k - s, s);
      XorTwice(x, Shr(x, s), k - s);
      XorShifts(y, x, k, s);
      XorTwice(y, x, k);
    }
  }

  lemma {:induction false} UnshiftedUndoes(x: nat, k: nat, s: nat)
    requires s > 0 && x < Pow2(k)
    ensures Unshifted(Xor(x, Shr(x, s), k), k, s) == x
    decreases k
  {
    hide Xor, Pow2, Shr;
    if k <= s {
      ShiftedOut(x, k, s);
      XorZero(x, k);
    } else {
      ShiftedFits(x, k, s);
      XorShifts(x, Shr(x, s), k, s);
      UnshiftedUndoes(Shr(x, s), k - s, s);
      XorTwice(x, Shr(x, s), k);
    }
  }
}
