/** The single-producer single-consumer ring: every interleaving of the two ends' atomic steps. */
module Rings {
  import opened Types
  import opened Arithmetic

  // --- capacities --------------------------------------------------------------------------------------

  predicate PowerOfTwo(n: nat) {
    n == 1 || (n > 1 && n % 2 == 0 && PowerOfTwo(n / 2))
  }

  /** The smallest `p * 2^j` that is at least `n`. */
  function Doubled(p: nat, n: nat): nat
    requires p > 0
    decreases n - p
  {
    if p >= n then p else Doubled(2 * p, n)
  }

  function Capacity(n: nat): nat {
    var p := Doubled(1, n);
    if p < 2 then 2 else p
  }

  lemma {:induction false} DoubledIs(p: nat, n: nat)
    requires PowerOfTwo(p) && p > 0
    ensures PowerOfTwo(Doubled(p, n)) && Doubled(p, n) >= n && (p < n ==> Doubled(p, n) < 2 * n)
    decreases n - p
  {
    if p < n {
      assert PowerOfTwo(2 * p);
      DoubledIs(2 * p, n);
    }
  }

  /** Capacities are powers of two, at least 2, at least what was asked and less than twice that. */
  lemma CapacityIs(n: nat)
    ensures PowerOfTwo(Capacity(n)) && Capacity(n) >= 2 && Capacity(n) >= n && (n >= 2 ==> Capacity(n) < 2 * n)
  {
    DoubledIs(1, n);
  }

  // --- modular facts ---------------------------------------------------------------------------------------

  lemma {:induction false} Divides(cap: nat, w: nat)
    requires PowerOfTwo(cap) && PowerOfTwo(w) && cap <= w
    ensures w % cap == 0
    decreases cap
  {
    if cap > 1 {
      assert w > 1;
      Divides(cap / 2, w / 2);
      DoubleDivides(cap / 2, w / 2);
    }
  }

  lemma DoubleDivides(c: nat, w: nat)
    requires c > 0 && w % c == 0
    ensures (2 * w) % (2 * c) == 0
  {
    var q := w / c;
    Euclid(w, c);
    MulAssoc(2, c, q);
    DivisionUnique(2 * w, 2 * c, q, 0);
  }

  /** Wrapped indices fall into the same slots as unwrapped ones. */
  lemma WrappedSlot(n: nat, cap: nat)
    requires cap > 0 && TWO64 % cap == 0
    ensures (n % TWO64) % cap == n % cap
  {
    var k, q, m := n / TWO64, TWO64 / cap, n % TWO64;
    Euclid(TWO64, cap);
    Euclid(n, TWO64);
    Euclid(m, cap);
    MulAssoc(cap, q, k);
    Distribute(cap, q * k, m / cap);
    DivisionUnique(n, cap, q * k + m / cap, m % cap);
  }

  /** Slots of one window are distinct. */
  lemma OneSlot(a: nat, b: nat, cap: nat)
    requires cap > 0 && a % cap == b % cap && a <= b < a + cap
    ensures a == b
  {
    Euclid(a, cap);
    DivisionUnique(b, cap, b / cap, b % cap);
    Euclid(b, cap);
    MulMinus(cap, b / cap, a / cap);
    if b / cap > a / cap {
      MulAtLeast(cap, b / cap - a / cap);
    } else if b / cap < a / cap {
      MulMinus(cap, a / cap, b / cap);
      MulAtLeast(cap, a / cap - b / cap);
    }
  }

  lemma NextRound(n: nat, cap: nat)
    requires cap > 0
    ensures (n + cap) % cap == n % cap
  {
    Euclid(n, cap);
    Distribute(cap, n / cap, 1);
    DivisionUnique(n + cap, cap, n / cap + 1, n % cap);
  }

  /** A wrapping subtraction of indices gives their true distance. */
  lemma WrappedDistance(a: nat, b: nat)
    requires b <= a < b + TWO64
    ensures (a % TWO64 - b % TWO64) % TWO64 == a - b
  {
    DivisionUnique(a % TWO64 - b % TWO64, TWO64, b / TWO64 - a / TWO64, a - b);
  }

  lemma WrappedNext(n: nat)
    ensures (n % TWO64 + 1) % TWO64 == (n + 1) % TWO64
  {
    var k, m := n / TWO64, n % TWO64;
    if m + 1 < TWO64 {
      DivisionUnique(n + 1, TWO64, k, m + 1);
    } else {
      DivisionUnique(n + 1, TWO64, k + 1, 0);
    }
  }

  // --- the two ends -----------------------------------------------------------------------------------------

  /** Where the producer is within `push`. */
  datatype Pushing<T> = Ready | Reload(item: T) | Write(item: T) | Publish(item: T)

  /** Where the consumer is within `pop`. */
  datatype Popping<T> = Waiting | Refresh | Read | Release(item: T)

  /**
   The shared ring, each end's cached index and program point. `pushed` and `popped` record what
   was published and delivered; `headSeen` and `tailSeen` are the cached indices before wrapping.
   */
  datatype Ring<T> = Ring(
    slots: seq<Option<T>>, head: u64, tail: u64, cachedHead: u64, cachedTail: u64,
    producer: Pushing<T>, consumer: Popping<T>,
    pushed: seq<T>, popped: seq<T>, headSeen: nat, tailSeen: nat)

  datatype Act<T> = PushStart(item: T) | PushReload | PushWrite | PushPublish | PopStart | PopReload | PopRead
    | PopRelease

  function Wrapping(a: u64, b: u64): u64 {
    (a - b) % TWO64
  }

  function Slot<T>(r: Ring<T>, index: u64): nat
    requires |r.slots| > 0
  {
    index % |r.slots|
  }

  /** One atomic step of either end. */
  ghost predicate Next<T(!new)>(r: Ring<T>, act: Act<T>, r': Ring<T>)
    requires |r.slots| > 0
  {
    match act
    case PushStart(item) =>
      && r.producer.Ready?
      && r' == r.(producer := if Wrapping(r.tail, r.cachedHead) == |r.slots| then Reload(item) else Write(item))
    case PushReload =>
      && r.producer.Reload?
      && r' == r.(cachedHead := r.head, headSeen := |r.popped|,
                  producer := if Wrapping(r.tail, r.head) == |r.slots| then Ready else Write(r.producer.item))
    case PushWrite =>
      && r.producer.Write?
      && r' == r.(slots := r.slots[Slot(r, r.tail) := Some(r.producer.item)], producer := Publish(r.producer.item))
    case PushPublish =>
      && r.producer.Publish?
      && r' == r.(tail := (r.tail + 1) % TWO64, pushed := r.pushed + [r.producer.item], producer := Ready)
    case PopStart =>
      && r.consumer.Waiting?
      && r' == r.(consumer := if r.head == r.cachedTail then Refresh else Read)
    case PopReload =>
      && r.consumer.Refresh?
      && r' == r.(cachedTail := r.tail, tailSeen := |r.pushed|, consumer := if r.head == r.tail then Waiting else Read)
    case PopRead =>
      && r.consumer.Read? && r.slots[Slot(r, r.head)].Some?
      && r' == r.(slots := r.slots[Slot(r, r.head) := None], consumer := Release(r.slots[Slot(r, r.head)].value))
    case PopRelease =>
      && r.consumer.Release?
      && r' == r.(head := (r.head + 1) % TWO64, popped := r.popped + [r.consumer.item], consumer := Waiting)
  }

  // --- the invariant -----------------------------------------------------------------------------------------------

  ghost predicate Shape<T(!new)>(r: Ring<T>) {
    var cap := |r.slots|;
    && 2 <= cap <= TWO64 / 2 && TWO64 % cap == 0
    && r.tail == |r.pushed| % TWO64 && r.head == |r.popped| % TWO64
    && r.cachedHead == r.headSeen % TWO64 && r.cachedTail == r.tailSeen % TWO64
  }

  ghost predicate Counts<T(!new)>(r: Ring<T>) {
    && r.headSeen <= |r.popped| <= r.tailSeen <= |r.pushed| <= r.headSeen + |r.slots|
    && (r.producer.Write? || r.producer.Publish? ==> |r.pushed| < r.headSeen + |r.slots|)
    && (r.consumer.Read? || r.consumer.Release? ==> |r.popped| < r.tailSeen)
    && r.popped == r.pushed[..|r.popped|]
    && (r.consumer.Release? ==> r.consumer.item == r.pushed[|r.popped|])
  }

  /** What the slot of the `n`-th item holds. */
  ghost function Expected<T(!new)>(r: Ring<T>, n: nat): Option<T> {
    if n < |r.pushed| && !(n == |r.popped| && r.consumer.Release?) then Some(r.pushed[n])
    else if n == |r.pushed| && r.producer.Publish? then Some(r.producer.item)
    else None
  }

  ghost predicate Slots<T(!new)>(r: Ring<T>)
    requires |r.slots| > 0
  {
    forall n :: |r.popped| <= n < |r.popped| + |r.slots| ==> r.slots[n % |r.slots|] == Expected(r, n)
  }

  ghost predicate Inv<T(!new)>(r: Ring<T>) {
    Shape(r) && Counts(r) && Slots(r)
  }

  // --- what each end sees ------------------------------------------------------------------------

  /** The producer's fullness test on its cached index is exact for that index. */
  lemma FullTest<T(!new)>(r: Ring<T>)
    requires Shape(r) && Counts(r)
    ensures Wrapping(r.tail, r.cachedHead) == |r.slots| <==> |r.pushed| == r.headSeen + |r.slots|
    ensures Wrapping(r.tail, r.head) == |r.slots| <==> |r.pushed| == |r.popped| + |r.slots|
  {
    WrappedDistance(|r.pushed|, r.headSeen);
    WrappedDistance(|r.pushed|, |r.popped|);
  }

  /** The consumer's emptiness test on its cached index is exact for that index. */
  lemma EmptyTest<T(!new)>(r: Ring<T>)
    requires Shape(r) && Counts(r)
    ensures r.head == r.cachedTail <==> |r.popped| == r.tailSeen
    ensures r.head == r.tail <==> |r.popped| == |r.pushed|
  {
    WrappedDistance(r.tailSeen, |r.popped|);
    WrappedDistance(|r.pushed|, |r.popped|);
  }

  /** A slot about to be written is empty, a slot about to be read is full with the next item. */
  lemma SlotsAreSafe<T(!new)>(r: Ring<T>)
    requires Inv(r)
    ensures r.producer.Write? ==> r.slots[Slot(r, r.tail)] == None
    ensures r.consumer.Read? ==> r.slots[Slot(r, r.head)] == Some(r.pushed[|r.popped|])
  {
    WrappedSlot(|r.pushed|, |r.slots|);
    WrappedSlot(|r.popped|, |r.slots|);
    if r.producer.Write? {
      assert r.slots[|r.pushed| % |r.slots|] == Expected(r, |r.pushed|);
    }
    if r.consumer.Read? {
      assert r.slots[|r.popped| % |r.slots|] == Expected(r, |r.popped|);
    }
  }

  // --- every step keeps the invariant ------------------------------------------------------------

  lemma WriteKeeps<T(!new)>(r: Ring<T>, r': Ring<T>)
    requires Inv(r) && Next(r, PushWrite, r')
    ensures Inv(r')
  {
    var cap, p := |r.slots|, |r.pushed|;
    WrappedSlot(p, cap);
    forall n | |r.popped| <= n < |r.popped| + cap ensures r'.slots[n % cap] == Expected(r', n) {
      assert r.slots[n % cap] == Expected(r, n);
      if n % cap == p % cap {
        if n <= p {
          OneSlot(n, p, cap);
        } else {
          OneSlot(p, n, cap);
        }
      }
    }
  }

  lemma ReadKeeps<T(!new)>(r: Ring<T>, r': Ring<T>)
    requires Inv(r) && Next(r, PopRead, r')
    ensures Inv(r')
  {
    var cap, c := |r.slots|, |r.popped|;
    WrappedSlot(c, cap);
    SlotsAreSafe(r);
    forall n | c <= n < c + cap ensures r'.slots[n % cap] == Expected(r', n) {
      assert r.slots[n % cap] == Expected(r, n);
      if n % cap == c % cap {
        OneSlot(c, n, cap);
      }
    }
  }

  lemma PublishKeeps<T(!new)>(r: Ring<T>, r': Ring<T>)
    requires Inv(r) && Next(r, PushPublish, r')
    ensures Inv(r')
  {
    WrappedNext(|r.pushed|);
    forall n | |r.popped| <= n < |r.popped| + |r.slots| ensures r'.slots[n % |r.slots|] == Expected(r', n) {
      assert r.slots[n % |r.slots|] == Expected(r, n);
    }
  }

  lemma ReleaseKeeps<T(!new)>(r: Ring<T>, r': Ring<T>)
    requires Inv(r) && Next(r, PopRelease, r')
    ensures Inv(r')
  {
    var cap, c := |r.slots|, |r.popped|;
    WrappedNext(c);
    NextRound(c, cap);
    assert r.slots[c % cap] == Expected(r, c);
    forall n | c + 1 <= n < c + 1 + cap ensures r'.slots[n % cap] == Expected(r', n) {
      if n < c + cap {
        assert r.slots[n % cap] == Expected(r, n);
      }
    }
    assert r.pushed[..c] + [r.pushed[c]] == r.pushed[..c + 1];
  }

  lemma LookKeeps<T(!new)>(r: Ring<T>, act: Act<T>, r': Ring<T>)
    requires Inv(r) && Next(r, act, r') && (act.PushStart? || act.PushReload? || act.PopStart? || act.PopReload?)
    ensures Inv(r')
  {
    FullTest(r);
    EmptyTest(r);
    forall n | |r.popped| <= n < |r.popped| + |r.slots| ensures r'.slots[n % |r.slots|] == Expected(r', n) {
      assert r.slots[n % |r.slots|] == Expected(r, n);
    }
  }

  lemma NextKeeps<T(!new)>(r: Ring<T>, act: Act<T>, r': Ring<T>)
    requires Inv(r) && Next(r, act, r')
    ensures Inv(r')
  {
    hide Inv, Next;
    match act
    case PushWrite => WriteKeeps(r, r');
    case PushPublish => PublishKeeps(r, r');
    case PopRead => ReadKeeps(r, r');
    case PopRelease => ReleaseKeeps(r, r');
    case _ => LookKeeps(r, act, r');
  }

  // --- whole runs --------------------------------------------------------------------------------

  /** A new ring. */
  ghost predicate Initial<T(!new)>(r: Ring<T>, capacity: nat) {
    && 2 <= Capacity(capacity) <= TWO64 / 2
    && r == Ring(seq(Capacity(capacity), _ => None), 0, 0, 0, 0, Ready, Waiting, [], [], 0, 0)
  }

  lemma DoubleIsPower(n: nat)
    requires PowerOfTwo(n) && n > 0
    ensures PowerOfTwo(2 * n)
  {}

  lemma SixteenFold(n: nat)
    requires PowerOfTwo(n) && n > 0
    ensures PowerOfTwo(16 * n)
  {
    hide PowerOfTwo;
    DoubleIsPower(n);
    DoubleIsPower(2 * n);
    DoubleIsPower(4 * n);
    DoubleIsPower(8 * n);
  }

  lemma OneIsPower()
    ensures PowerOfTwo(1)
  {}

  lemma WordIsPower()
    ensures PowerOfTwo(TWO64)
  {
    hide PowerOfTwo;
    OneIsPower();
    SixteenFold(0x1);
    SixteenFold(0x10);
    SixteenFold(0x100);
    SixteenFold(0x1000);
    SixteenFold(0x1_0000);
    SixteenFold(0x10_0000);
    SixteenFold(0x100_0000);
    SixteenFold(0x1000_0000);
    SixteenFold(0x1_0000_0000);
    SixteenFold(0x10_0000_0000);
    SixteenFold(0x100_0000_0000);
    SixteenFold(0x1000_0000_0000);
    SixteenFold(0x1_0000_0000_0000);
    SixteenFold(0x10_0000_0000_0000);
    SixteenFold(0x100_0000_0000_0000);
    SixteenFold(0x1000_0000_0000_0000);
  }

  lemma InitialInv<T(!new)>(r: Ring<T>, capacity: nat)
    requires Initial(r, capacity)
    ensures Inv(r)
  {
    hide Capacity, PowerOfTwo;
    CapacityIs(capacity);
    WordIsPower();
    Divides(Capacity(capacity), TWO64);
  }

  ghost predicate Run<T(!new)>(capacity: nat, acts: seq<Act<T>>, states: seq<Ring<T>>) {
    && |states| == |acts| + 1 && Initial(states[0], capacity)
    && forall k :: 0 <= k < |acts| ==> |states[k].slots| > 0 && Next(states[k], acts[k], states[k + 1])
  }

  lemma {:induction false} RunInv<T(!new)>(capacity: nat, acts: seq<Act<T>>, states: seq<Ring<T>>, k: nat)
    requires Run(capacity, acts, states) && k < |states|
    ensures Inv(states[k])
    decreases k
  {
    hide Inv, Next;
    if k == 0 {
      InitialInv(states[0], capacity);
    } else {
      RunInv(capacity, acts, states, k - 1);
      NextKeeps(states[k - 1], acts[k - 1], states[k]);
    }
  }

  /**
   Under every interleaving: what was popped is a prefix of what was pushed, no more than the
   capacity is in flight, no occupied slot is written, no empty slot is read, and the read the
   consumer is about to make delivers the next item.
   */
  lemma FifoUnderEveryInterleaving<T(!new)>(capacity: nat, acts: seq<Act<T>>, states: seq<Ring<T>>, k: nat)
    requires Run(capacity, acts, states) && k < |states|
    ensures var r := states[k];
            && |r.slots| == Capacity(capacity) > 0
            && r.popped <= r.pushed && |r.pushed| - |r.popped| <= Capacity(capacity)
            && (r.producer.Write? ==> r.slots[Slot(r, r.tail)] == None)
            && (r.consumer.Read? ==> |r.popped| < |r.pushed| && r.slots[Slot(r, r.head)] == Some(r.pushed[|r.popped|]))
  {
    hide Run, Next, Slots, Capacity;
    RunInv(capacity, acts, states, k);
    SameSlots(capacity, acts, states, k);
    SlotsAreSafe(states[k]);
  }

  lemma {:induction false} SameSlots<T(!new)>(capacity: nat, acts: seq<Act<T>>, states: seq<Ring<T>>, k: nat)
    requires Run(capacity, acts, states) && k < |states|
    ensures |states[k].slots| == Capacity(capacity)
    decreases k
  {
    if k > 0 {
      SameSlots(capacity, acts, states, k - 1);
    }
  }

  /** A push is refused only when the ring was full, a pop only when it was empty, at the step that looked. */
  lemma RefusalsAreTrue<T(!new)>(r: Ring<T>, act: Act<T>, r': Ring<T>)
    requires Inv(r) && Next(r, act, r')
    ensures act.PushReload? && r'.producer.Ready? ==> |r.pushed| - |r.popped| == |r.slots|
    ensures act.PopReload? && r'.consumer.Waiting? ==> r.popped == r.pushed
  {
    hide Slots;
    FullTest(r);
    EmptyTest(r);
    assert r.pushed[..|r.pushed|] == r.pushed;
  }
}
