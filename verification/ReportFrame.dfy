/** Execution reports as fixed frames, and the fingerprint of a report stream. */
module ReportFrames {
  import opened Types
  import opened Bytes
  import opened Words
  import opened Arithmetic
  import opened Checksums
  import opened Processing
  import opened Renderings

  /** A report on the wire, 56 bytes. */
  type Frame = s: seq<byte> | |s| == 56 witness seq(56, _ => 0)

  function Laid(kind: byte, side: byte, i: u32, id: u64, aux: u64, price: u64, qty: u64, fees: (u64, u64)): Frame {
    [kind, side, 0, 0] + Le32(i) + Le64(id) + Le64(aux) + Le64(price) + Le64(qty) + Le64(fees.0) + Le64(fees.1)
  }

  function Plain(kind: byte, i: u32, id: u64): Frame {
    Laid(kind, 0, i, id, 0, 0, 0, (0, 0))
  }

  /** The reason of a rejection is not part of its frame. */
  function FrameOf(r: ExecReport): Frame {
    match r
    case Accepted(i, id) => Plain(1, i, id)
    case TradeReport(i, taker, maker, aggressor, price, qty, fees) =>
      Laid(2, if aggressor.Buy? then 0 else 1, i, taker, maker, price, qty, fees)
    case FilledReport(i, id) => Plain(3, i, id)
    case PartialReport(i, id, filled) => Laid(4, 0, i, id, 0, 0, filled, (0, 0))
    case RestingReport(i, id) => Plain(5, i, id)
    case CancelledReport(i, id) => Plain(6, i, id)
    case RejectedReport(i, id, _) => Plain(7, i, id)
    case ModifiedReport(i, id, remaining) => Laid(8, 0, i, id, 0, 0, remaining, (0, 0))
    case NotFoundReport(i, id) => Plain(9, i, id)
    case HaltedReport(i) => Plain(12, i, 0)
    case ResumedReport(i) => Plain(13, i, 0)
    case UserHaltedReport(i, user) => Laid(14, 0, i, 0, user, 0, 0, (0, 0))
    case UserResumedReport(i, user) => Laid(15, 0, i, 0, user, 0, 0, (0, 0))
  }

  function StreamOf(out: seq<ExecReport>): seq<byte> {
    if out == [] then [] else FrameOf(out[0]) + StreamOf(out[1..])
  }

  /** Order-sensitive hash of a report stream. */
  function Fingerprint(out: seq<ExecReport>): u64 {
    Fnv(StreamOf(out))
  }

  // --- two orders of the same cancels ------------------------------------------------------------------

  function Zeros(n: nat): (s: seq<byte>)
    ensures |s| == n
  {
    if n == 0 then [] else [0] + Zeros(n - 1)
  }

  /** Powers of the hash prime, modulo 2^64. */
  function Power(n: nat): u64 {
    if n == 0 then 1 else (0x100000001b3 * Power(n - 1)) % TWO64
  }

  lemma {:induction false} PowerAdds(a: nat, b: nat)
    ensures Power(a + b) == (Power(a) * Power(b)) % TWO64
    decreases a
  {
    if a > 0 {
      PowerAdds(a - 1, b);
      Regroup(0x100000001b3, Power(a - 1), Power(b), TWO64);
    }
  }

  lemma StepZero(h: u64)
    ensures Step(h, 0) == (h * 0x100000001b3) % TWO64
  {
    WordSize();
    hide Pow2;
    XorZero(h, 64);
  }

  /** A run of zero bytes multiplies the hash. */
  lemma {:induction false} MixZeros(h: u64, n: nat)
    ensures Mix(h, Zeros(n)) == (h * Power(n)) % TWO64
    decreases n
  {
    hide Step;
    if n > 0 {
      StepZero(h);
      assert Zeros(n)[1..] == Zeros(n - 1);
      MixZeros(Step(h, 0), n - 1);
      Regroup(h, 0x100000001b3, Power(n - 1), TWO64);
    }
  }

  lemma PowersAre()
    ensures Power(7) == 0xc5527b8a51d3d2db && Power(15) == 0x21e53a2d2fb67c3b && Power(47) == 0x7e4793ad60b559bb
  {
    PowerOne();
    hide Power;
    PowerAdds(1, 1);
    assert Power(2) == 0x366000002e329;
    PowerAdds(2, 1);
    assert Power(3) == 0x8a97b0004e7feab;
    PowerAdds(2, 2);
    assert Power(4) == 0x9ffaac085635bc91;
    PowerAdds(4, 3);
    assert Power(7) == 0xc5527b8a51d3d2db;
    PowerAdds(4, 4);
    assert Power(8) == 0x1efac7090aef4a21;
    PowerAdds(8, 8);
    assert Power(16) == 0x4efe15c813151841;
    PowerAdds(16, 16);
    assert Power(32) == 0x558b2e6a2f64081;
    PowerAdds(8, 7);
    assert Power(15) == 0x21e53a2d2fb67c3b;
    PowerAdds(32, 15);
    assert Power(47) == 0x7e4793ad60b559bb;
  }

  lemma PowerOne()
    ensures Power(1) == 0x100000001b3
  {}

  lemma {:induction false} LeZero(k: nat)
    ensures Le(0, k) == Zeros(k)
  {
    if k > 0 {
      LeZero(k - 1);
    }
  }

  lemma LeByte(b: byte)
    ensures Le64(b) == [b] + Zeros(7)
  {
    LeZero(7);
    assert b / 256 == 0;
  }

  lemma {:induction false} ZerosConcat(a: nat, b: nat)
    ensures Zeros(a) + Zeros(b) == Zeros(a + b)
  {
    if a > 0 {
      ZerosConcat(a - 1, b);
    }
  }

  lemma ZeroWords()
    ensures Le64(0) + Le64(0) + Le64(0) + Le64(0) + Le64(0) == Zeros(40)
    ensures [6, 0, 0, 0] + Le32(0) == [6] + Zeros(7)
  {
    hide Zeros;
    LeZero(8);
    LeZero(4);
    ZerosConcat(8, 8);
    ZerosConcat(16, 8);
    ZerosConcat(24, 8);
    ZerosConcat(32, 8);
    ZerosConcat(3, 4);
    ThreeZeros();
  }

  lemma ThreeZeros()
    ensures Zeros(3) == [0, 0, 0]
  {}

  lemma CancelFrame(b: byte)
    ensures FrameOf(CancelledReport(0, b)) == [6] + Zeros(7) + [b] + Zeros(47)
  {
    hide Zeros, Le64, Le32;
    ZeroWords();
    LeByte(b);
    ZerosConcat(7, 40);
    var words := Le64(0) + Le64(0) + Le64(0) + Le64(0) + Le64(0);
    assert FrameOf(CancelledReport(0, b)) == ([6, 0, 0, 0] + Le32(0)) + Le64(b) + words;
  }

  /** The hash behind the frame of a cancel. */
  lemma CancelMixes(h: u64, b: byte)
    ensures Mix(h, FrameOf(CancelledReport(0, b))) ==
              (Step((Step(h, 6) * 0xc5527b8a51d3d2db) % TWO64, b) * 0x7e4793ad60b559bb) % TWO64
  {
    hide Zeros, Step, FrameOf, Power, Mix;
    CancelFrame(b);
    PowersAre();
    MixConcat(h, [6] + Zeros(7) + [b], Zeros(47));
    MixConcat(h, [6] + Zeros(7), [b]);
    MixConcat(h, [6], Zeros(7));
    MixOne(h, 6);
    MixZeros(Step(h, 6), 7);
    var g := Mix(Step(h, 6), Zeros(7));
    MixOne(g, b);
    MixZeros(Step(g, b), 47);
  }

  /** Exclusive or of three bits. */
  function LowXor(a: nat, b: nat): nat {
    var a2, b2 := a / 2, b / 2;
    var a4, b4 := a2 / 2, b2 / 2;
    (a % 2 + b % 2) % 2 + 2 * ((a2 % 2 + b2 % 2) % 2 + 2 * ((a4 % 2 + b4 % 2) % 2))
  }

  lemma LowXorIs(a: nat, b: nat)
    ensures Xor(a, b, 3) == LowXor(a, b)
  {
    hide Xor;
    XorWhole(a, b, 3);
    XorWhole(a / 2, b / 2, 2);
    XorWhole(a / 2 / 2, b / 2 / 2, 1);
    XorNothing(a / 2 / 2 / 2, b / 2 / 2 / 2);
  }

  /** A byte below 8 changes the low three bits. */
  lemma StepSmall(h: u64, b: byte)
    requires b < 8
    ensures Step(h, b) == ((h - h % 8 + LowXor(h % 8, b)) * 0x100000001b3) % TWO64
  {
    WordSize();
    hide Pow2, LowXor;
    EightIs();
    XorLow(h, b, 64, 3);
    LowXorIs(h % 8, b);
  }

  lemma EightIs()
    ensures Pow2(3) == 8
  {}

  lemma FoldsTo(h: u64, b: byte, low: nat, x: u64, r: u64)
    requires b < 8 && low == h % 8 && x == h - low + LowXor(low, b) && r == (x * 0x100000001b3) % TWO64
    ensures Step(h, b) == r
  {
    hide Step, LowXor;
    StepSmall(h, b);
  }

  lemma CancelMixesTo(h: u64, b: byte, s: u64, g: u64, t: u64, r: u64)
    requires s == Step(h, 6) && g == (s * 0xc5527b8a51d3d2db) % TWO64 && t == Step(g, b)
             && r == (t * 0x7e4793ad60b559bb) % TWO64
    ensures Mix(h, FrameOf(CancelledReport(0, b))) == r
  {
    hide Step, Mix, FrameOf;
    CancelMixes(h, b);
  }

  lemma LowXors()
    ensures LowXor(1, 6) == 7 && LowXor(2, 6) == 4 && LowXor(3, 1) == 2 && LowXor(3, 2) == 1
    ensures LowXor(4, 1) == 5 && LowXor(4, 2) == 6 && LowXor(5, 1) == 4 && LowXor(5, 6) == 3 && LowXor(7, 1) == 6
  {
    hide LowXor;
    LowerXors();
    MiddleXors();
    UpperXors();
  }

  lemma LowerXors()
    ensures LowXor(1, 6) == 7 && LowXor(2, 6) == 4 && LowXor(3, 1) == 2 && LowXor(3, 2) == 1
  {}

  lemma MiddleXors()
    ensures LowXor(4, 1) == 5 && LowXor(4, 2) == 6 && LowXor(5, 1) == 4
  {}

  lemma UpperXors()
    ensures LowXor(5, 6) == 3 && LowXor(7, 1) == 6
  {}

  /** Two words 1 and a word 0 do not hash to the seed. */
  lemma OnesShow()
    ensures Fnv([1] + Zeros(7) + [1] + Zeros(15)) != SEED
  {
    hide Zeros, Mix, Power, Step, LowXor;
    PowersAre();
    LowXors();
    MixConcat(SEED, [1] + Zeros(7) + [1], Zeros(15));
    MixConcat(SEED, [1] + Zeros(7), [1]);
    MixConcat(SEED, [1], Zeros(7));
    MixOne(SEED, 1);
    FoldsTo(SEED, 1, 5, 0xcbf29ce484222324, 0xaf63bc4c8601b62c);
    MixZeros(0xaf63bc4c8601b62c, 7);
    MixOne(0x89cd31291d2aefa4, 1);
    FoldsTo(0x89cd31291d2aefa4, 1, 4, 0x89cd31291d2aefa5, 0x529a2ddc8ff5355f);
    MixZeros(0x529a2ddc8ff5355f, 15);
  }

  lemma FirstOne()
    ensures Mix(0xcbf29ce484222325, FrameOf(CancelledReport(0, 1))) == 0xcb6edd4935ab702
  {
    hide Step, Mix, FrameOf, LowXor;
    LowXors();
    FoldsTo(0xcbf29ce484222325, 6, 5, 0xcbf29ce484222323, 0xaf63bb4c8601b479);
    FoldsTo(0x6ad26a20123ba583, 1, 3, 0x6ad26a20123ba582, 0xbf2fd67efb5a3be6);
    CancelMixesTo(0xcbf29ce484222325, 1, 0xaf63bb4c8601b479, 0x6ad26a20123ba583, 0xbf2fd67efb5a3be6, 0xcb6edd4935ab702);
  }

  lemma ThenTwo()
    ensures Mix(0xcb6edd4935ab702, FrameOf(CancelledReport(0, 2))) == 0xe8df3cd25b153406
  {
    hide Step, Mix, FrameOf, LowXor;
    LowXors();
    FoldsTo(0xcb6edd4935ab702, 6, 2, 0xcb6edd4935ab704, 0xf58d24366324fbcc);
    FoldsTo(0xbfe7c2fa3c54bf84, 2, 4, 0xbfe7c2fa3c54bf86, 0x6b8fd534840170b2);
    CancelMixesTo(0xcb6edd4935ab702, 2, 0xf58d24366324fbcc, 0xbfe7c2fa3c54bf84, 0x6b8fd534840170b2, 0xe8df3cd25b153406);
  }

  lemma FirstTwo()
    ensures Mix(0xcbf29ce484222325, FrameOf(CancelledReport(0, 2))) == 0xc3bd43393f333e41
  {
    hide Step, Mix, FrameOf, LowXor;
    LowXors();
    FoldsTo(0xcbf29ce484222325, 6, 5, 0xcbf29ce484222323, 0xaf63bb4c8601b479);
    FoldsTo(0x6ad26a20123ba583, 2, 3, 0x6ad26a20123ba581, 0xbf2fd57efb5a3a33);
    CancelMixesTo(0xcbf29ce484222325, 2, 0xaf63bb4c8601b479, 0x6ad26a20123ba583, 0xbf2fd57efb5a3a33,
      0xc3bd43393f333e41);
  }

  lemma ThenOne()
    ensures Mix(0xc3bd43393f333e41, FrameOf(CancelledReport(0, 1))) == 0xd0f98ea9e64239a6
  {
    hide Step, Mix, FrameOf, LowXor;
    LowXors();
    FoldsTo(0xc3bd43393f333e41, 6, 1, 0xc3bd43393f333e47, 0xcdd781466412d2a5);
    FoldsTo(0x214a996adfe48d27, 1, 7, 0x214a996adfe48d26, 0x764fd69a715bd792);
    CancelMixesTo(0xc3bd43393f333e41, 1, 0xcdd781466412d2a5, 0x214a996adfe48d27, 0x764fd69a715bd792,
      0xd0f98ea9e64239a6);
  }

  lemma TwoOrders()
    ensures Fingerprint([CancelledReport(0, 1), CancelledReport(0, 2)]) == 0xe8df3cd25b153406
    ensures Fingerprint([CancelledReport(0, 2), CancelledReport(0, 1)]) == 0xd0f98ea9e64239a6
  {
    hide Mix, FrameOf, Fingerprint;
    StreamOfTwo(CancelledReport(0, 1), CancelledReport(0, 2));
    StreamOfTwo(CancelledReport(0, 2), CancelledReport(0, 1));
    FirstOne();
    ThenTwo();
    FirstTwo();
    ThenOne();
  }

  /** The fingerprint tells two orders of the same two cancels apart. */
  lemma CancelOrderShows()
    ensures Fingerprint(Cancels(0, [1, 2])) != Fingerprint(Cancels(0, [2, 1]))
  {
    hide Fingerprint;
    assert Cancels(0, [1, 2]) == [CancelledReport(0, 1), CancelledReport(0, 2)];
    assert Cancels(0, [2, 1]) == [CancelledReport(0, 2), CancelledReport(0, 1)];
    TwoOrders();
  }

  lemma StreamOfTwo(r: ExecReport, s: ExecReport)
    ensures Fingerprint([r, s]) == Mix(Mix(SEED, FrameOf(r)), FrameOf(s))
  {
    hide Mix, FrameOf;
    assert [r, s][1..] == [s] && [s][1..] == [];
    assert StreamOf([s]) == FrameOf(s);
    MixConcat(SEED, FrameOf(r), FrameOf(s));
  }
}
