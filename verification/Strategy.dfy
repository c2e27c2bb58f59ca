/** Matching strategies: how an aggressor's lots are split among the orders of one level. */
module Strategies {
  import opened Types
  import opened Books

  /** A decision to fill `qty` lots from the order at position `idx` of the level view. */
  datatype Allocation = Allocation(id: OrderId, qty: Qty, idx: nat)

  /** A pluggable strategy: whether it needs the whole level, and its allocation rule. */
  datatype Strategy = Strategy(
    fullLevelRequired: bool,
    allocate: (seq<RestingOrder>, Qty) -> seq<Allocation>)

  function TotalSeen(view: seq<RestingOrder>): nat {
    if view == [] then 0 else view[0].remaining + TotalSeen(view[1..])
  }

  function Allocated(out: seq<Allocation>): nat {
    if out == [] then 0 else out[0].qty + Allocated(out[1..])
  }

  // --- the contract ---------------------------------------------------------------------------

  /** One allocation is positive, names the order at its position and does not over-fill it. */
  predicate WithinOrder(view: seq<RestingOrder>, a: Allocation) {
    0 < a.qty && a.idx < |view| && view[a.idx].id == a.id && a.qty <= view[a.idx].remaining
  }

  predicate Within(view: seq<RestingOrder>, out: seq<Allocation>) {
    forall k :: 0 <= k < |out| ==> WithinOrder(view, out[k])
  }

  /** No order is allocated twice: what the written contract leaves unsaid. */
  predicate DistinctMakers(out: seq<Allocation>) {
    forall j, k :: 0 <= j < k < |out| ==> out[j].idx != out[k].idx
  }

  ghost predicate Honours(view: seq<RestingOrder>, incoming: nat, out: seq<Allocation>) {
    && Within(view, out)
    && DistinctMakers(out)
    && Allocated(out) == Min(incoming, TotalSeen(view))
  }

  ghost predicate Positive(view: seq<RestingOrder>) {
    forall i :: 0 <= i < |view| ==> view[i].remaining > 0
  }

  /** The strategy honours the contract on every view of live orders. */
  ghost predicate Lawful(s: Strategy) {
    forall view: seq<RestingOrder>, n: Qty :: Positive(view) && TotalSeen(view) <= U64_MAX ==>
      Honours(view, n, s.allocate(view, n))
  }

  lemma {:induction false} AllocatedConcat(a: seq<Allocation>, b: seq<Allocation>)
    ensures Allocated(a + b) == Allocated(a) + Allocated(b)
  {
    if a == [] {
      assert a + b == b;
    } else {
      assert (a + b)[1..] == a[1..] + b;
      AllocatedConcat(a[1..], b);
    }
  }

  lemma {:induction false} TotalSeenConcat(a: seq<RestingOrder>, b: seq<RestingOrder>)
    ensures TotalSeen(a + b) == TotalSeen(a) + TotalSeen(b)
  {
    if a == [] {
      assert a + b == b;
    } else {
      assert (a + b)[1..] == a[1..] + b;
      TotalSeenConcat(a[1..], b);
    }
  }

  /** The check `validate` performs on a strategy's answer. */
  method Validate(view: seq<RestingOrder>, incoming: Qty, out: seq<Allocation>) returns (ok: bool)
    ensures ok <==> Within(view, out) && Allocated(out) == Min(incoming, TotalSeen(view))
  {
    hide WithinOrder;
    var expected := Min(incoming, TotalSeen(view));
    var spent := 0;
    for k := 0 to |out|
      invariant forall j :: 0 <= j < k ==> WithinOrder(view, out[j])
      invariant spent == Allocated(out[..k])
    {
      if !WithinOrder(view, out[k]) {
        return false;
      }
      assert out[..k + 1] == out[..k] + [out[k]];
      AllocatedConcat(out[..k], [out[k]]);
      spent := spent + out[k].qty;
    }
    assert out[..|out|] == out;
    return spent == expected;
  }

  // --- greedy filling along a list of positions -------------------------------------------------

  /** Fill the orders at `order`, in that sequence, until `n` lots are spent. */
  function Greedy(view: seq<RestingOrder>, order: seq<nat>, n: nat): seq<Allocation>
    requires forall k :: 0 <= k < |order| ==> order[k] < |view|
  {
    if order == [] || n == 0 then []
    else
      var r := view[order[0]];
      var fill := Min(n, r.remaining);
      (if fill > 0 then [Allocation(r.id, fill, order[0])] else []) + Greedy(view, order[1..], n - fill)
  }

  function TotalAt(view: seq<RestingOrder>, order: seq<nat>): nat
    requires forall k :: 0 <= k < |order| ==> order[k] < |view|
  {
    if order == [] then 0 else view[order[0]].remaining + TotalAt(view, order[1..])
  }

  ghost predicate DistinctPositions(order: seq<nat>) {
    forall i, j :: 0 <= i < j < |order| ==> order[i] != order[j]
  }

  lemma ConsAllocation(view: seq<RestingOrder>, a: Allocation, rest: seq<Allocation>, order: seq<nat>)
    requires WithinOrder(view, a) && Within(view, rest) && DistinctMakers(rest)
    requires order != [] && a.idx == order[0] && DistinctPositions(order)
    requires forall k :: 0 <= k < |rest| ==> rest[k].idx in order[1..]
    ensures Within(view, [a] + rest) && DistinctMakers([a] + rest)
    ensures Allocated([a] + rest) == a.qty + Allocated(rest)
    ensures forall k :: 0 <= k < |rest| + 1 ==> ([a] + rest)[k].idx in order
  {
    hide WithinOrder;
    assert ([a] + rest)[1..] == rest;
    assert order[0] !in order[1..];
  }

  /** Greedy filling never over-fills, never repeats an order and spends all it can. */
  lemma {:induction false} GreedyHonours(view: seq<RestingOrder>, order: seq<nat>, n: nat)
    requires forall k :: 0 <= k < |order| ==> order[k] < |view|
    requires DistinctPositions(order)
    ensures var out := Greedy(view, order, n);
            && Within(view, out) && DistinctMakers(out)
            && Allocated(out) == Min(n, TotalAt(view, order))
            && forall k :: 0 <= k < |out| ==> out[k].idx in order
  {
    hide Within, DistinctMakers, Greedy, DistinctPositions, TotalAt;
    GreedyUnfolds(view, order, n);
    if order == [] || n == 0 {
      NothingAllocated(view);
      TotalAtNothing(view);
    } else {
      var r := view[order[0]];
      var fill := Min(n, r.remaining);
      var rest := Greedy(view, order[1..], n - fill);
      TotalAtFirst(view, order);
      GreedyHonours(view, order[1..], n - fill);
      if fill > 0 {
        ConsAllocation(view, Allocation(r.id, fill, order[0]), rest, order);
      } else {
        assert [] + rest == rest;
      }
    }
  }

  lemma TotalAtNothing(view: seq<RestingOrder>)
    ensures TotalAt(view, []) == 0
  {}

  lemma TotalAtFirst(view: seq<RestingOrder>, order: seq<nat>)
    requires order != [] && (forall k :: 0 <= k < |order| ==> order[k] < |view|) && DistinctPositions(order)
    ensures TotalAt(view, order) == view[order[0]].remaining + TotalAt(view, order[1..])
            && DistinctPositions(order[1..])
  {}

  lemma GreedyUnfolds(view: seq<RestingOrder>, order: seq<nat>, n: nat)
    requires forall k :: 0 <= k < |order| ==> order[k] < |view|
    ensures Greedy(view, order, n) ==
              if order == [] || n == 0 then []
              else
                var r := view[order[0]];
                var fill := Min(n, r.remaining);
                (if fill > 0 then [Allocation(r.id, fill, order[0])] else []) + Greedy(view, order[1..], n - fill)
  {}

  lemma NothingAllocated(view: seq<RestingOrder>)
    ensures Within(view, []) && DistinctMakers([]) && Allocated([]) == 0
  {}

  // --- price-time priority (FIFO) -----------------------------------------------------------------

  /** Positions `from`, `from + 1`, ... below `end`. */
  function Positions(from: nat, end: nat): (r: seq<nat>)
    requires from <= end
    ensures |r| == end - from && forall k :: 0 <= k < |r| ==> r[k] == from + k
    ensures forall x :: x in r <==> from <= x < end
    decreases end - from
  {
    if from == end then [] else [from] + Positions(from + 1, end)
  }

  lemma {:induction false} TotalAtPositions(view: seq<RestingOrder>, from: nat)
    requires from <= |view|
    ensures TotalAt(view, Positions(from, |view|)) == TotalSeen(view[from..])
    decreases |view| - from
  {
    if from < |view| {
      TotalAtPositions(view, from + 1);
      assert view[from..][1..] == view[from + 1..];
      assert Positions(from, |view|)[1..] == Positions(from + 1, |view|);
    }
  }

  function Fifo(view: seq<RestingOrder>, n: Qty): seq<Allocation> {
    Greedy(view, Positions(0, |view|), n)
  }

  const PriceTimePriority := Strategy(false, Fifo)

  lemma PriceTimeIsLawful()
    ensures Lawful(PriceTimePriority)
  {
    forall view: seq<RestingOrder>, n: Qty ensures Honours(view, n, Fifo(view, n)) {
      GreedyHonours(view, Positions(0, |view|), n);
      TotalAtPositions(view, 0);
      assert view[0..] == view;
    }
  }

  /** The left-to-right sweep of the price-time strategy. */
  method AllocateFifo(view: seq<RestingOrder>, incoming: Qty) returns (out: seq<Allocation>)
    ensures out == Fifo(view, incoming)
  {
    hide Greedy;
    out := [];
    var remaining: nat := incoming;
    var i := 0;
    while i < |view| && remaining > 0
      invariant 0 <= i <= |view|
      invariant Fifo(view, incoming) == out + Greedy(view, Positions(i, |view|), remaining)
    {
      GreedyFront(view, i, remaining);
      var fill := Min(remaining, view[i].remaining);
      if fill > 0 {
        out := out + [Allocation(view[i].id, fill, i)];
        remaining := remaining - fill;
      }
      i := i + 1;
    }
    GreedyStops(view, i, remaining);
  }

  lemma GreedyFront(view: seq<RestingOrder>, i: nat, n: nat)
    requires i < |view| && n > 0
    ensures var fill := Min(n, view[i].remaining);
            Greedy(view, Positions(i, |view|), n) ==
              (if fill > 0 then [Allocation(view[i].id, fill, i)] else [])
                + Greedy(view, Positions(i + 1, |view|), n - fill)
  {
    assert Positions(i, |view|)[1..] == Positions(i + 1, |view|);
  }

  lemma GreedyStops(view: seq<RestingOrder>, i: nat, n: nat)
    requires i <= |view| && (i == |view| || n == 0)
    ensures Greedy(view, Positions(i, |view|), n) == []
  {}

  /** A capped view is a front of the queue that covers the cap, or the whole queue. */
  lemma {:induction false} CappedIsFront(q: seq<Order>, cap: int)
    ensures |Capped(q, cap)| <= |q| && Capped(q, cap) == q[..|Capped(q, cap)|]
    ensures |Capped(q, cap)| == |q| || Total(Capped(q, cap)) >= cap
    ensures q != [] ==> Capped(q, cap) != []
  {
    if q != [] {
      if q[0].remaining >= cap {
        assert Capped(q, cap) == [q[0]] == q[..1];
      } else {
        CappedIsFront(q[1..], cap - q[0].remaining);
        var rest := Capped(q[1..], cap - q[0].remaining);
        assert Capped(q, cap) == [q[0]] + rest == q[..1 + |rest|];
        assert ([q[0]] + rest)[1..] == rest;
      }
    }
  }

  lemma {:induction false} GreedyOnFront(c: seq<RestingOrder>, v: seq<RestingOrder>, i: nat, n: nat)
    requires i <= |c| <= |v| && c == v[..|c|]
    requires |c| == |v| || TotalSeen(c[i..]) >= n
    ensures Greedy(c, Positions(i, |c|), n) == Greedy(v, Positions(i, |v|), n)
    decreases |c| - i
  {
    hide Greedy;
    if n == 0 || i == |v| {
      GreedyStops(c, i, n);
      GreedyStops(v, i, n);
    } else if i < |c| {
      GreedyFront(c, i, n);
      GreedyFront(v, i, n);
      assert c[i..][1..] == c[i + 1..];
      GreedyOnFront(c, v, i + 1, n - Min(n, c[i].remaining));
    }
  }

  lemma {:induction false} TotalSeenAll(q: seq<Order>)
    ensures TotalSeen(SeenAll(q)) == Total(q)
  {
    if q != [] {
      TotalSeenAll(q[1..]);
      assert SeenAll(q)[1..] == SeenAll(q[1..]);
    }
  }

  /** FIFO allocates from the capped view exactly as it would from the whole level. */
  lemma FifoOnCapped(q: seq<Order>, n: Qty)
    ensures Fifo(SeenAll(Capped(q, n)), n) == Fifo(SeenAll(q), n)
  {
    hide Greedy, Capped, Total, TotalSeen;
    CappedIsFront(q, n);
    var c, v := SeenAll(Capped(q, n)), SeenAll(q);
    TotalSeenAll(Capped(q, n));
    assert c == v[..|c|] && c[0..] == c;
    GreedyOnFront(c, v, 0, n);
  }

  // --- size priority -------------------------------------------------------------------------------

  /** `BySize`: larger orders first, then the earlier timestamp, then the earlier position. */
  predicate Ahead(view: seq<RestingOrder>, i: nat, j: nat)
    requires i < |view| && j < |view|
  {
    || view[i].remaining > view[j].remaining
    || (view[i].remaining == view[j].remaining && view[i].timestamp < view[j].timestamp)
    || (view[i].remaining == view[j].remaining && view[i].timestamp == view[j].timestamp && i < j)
  }

  predicate InView(view: seq<RestingOrder>, order: seq<nat>) {
    forall k :: 0 <= k < |order| ==> order[k] < |view|
  }

  ghost predicate SortedBySize(view: seq<RestingOrder>, order: seq<nat>)
    requires InView(view, order)
  {
    forall i, j :: 0 <= i < j < |order| ==> Ahead(view, order[i], order[j])
  }

  /** Insert a position into a list sorted by size. */
  function Insert(view: seq<RestingOrder>, x: nat, order: seq<nat>): (r: seq<nat>)
    requires x < |view| && InView(view, order)
    ensures InView(view, r) && |r| == |order| + 1
    ensures forall y :: y in r <==> y == x || y in order
  {
    if order == [] then [x]
    else if Ahead(view, x, order[0]) then [x] + order
    else
      assert order == [order[0]] + order[1..];
      [order[0]] + Insert(view, x, order[1..])
  }

  /** The level's positions below `n`, sorted by size. */
  function SizeOrder(view: seq<RestingOrder>, n: nat): (r: seq<nat>)
    requires n <= |view|
    ensures InView(view, r) && |r| == n
    ensures forall y :: y in r <==> 0 <= y < n
  {
    if n == 0 then [] else Insert(view, n - 1, SizeOrder(view, n - 1))
  }

  lemma AheadIsOrder(view: seq<RestingOrder>, i: nat, j: nat, k: nat)
    requires i < |view| && j < |view| && k < |view|
    ensures Ahead(view, i, j) && Ahead(view, j, k) ==> Ahead(view, i, k)
    ensures i != j ==> (Ahead(view, i, j) <==> !Ahead(view, j, i))
  {}

  lemma FrontSorted(view: seq<RestingOrder>, x: nat, rest: seq<nat>)
    requires x < |view| && InView(view, rest) && SortedBySize(view, rest)
    requires forall k :: 0 <= k < |rest| ==> Ahead(view, x, rest[k])
    ensures InView(view, [x] + rest) && SortedBySize(view, [x] + rest)
  {
    hide Ahead;
  }

  lemma {:induction false} InsertSorted(view: seq<RestingOrder>, x: nat, order: seq<nat>)
    requires x < |view| && InView(view, order) && SortedBySize(view, order) && x !in order
    ensures SortedBySize(view, Insert(view, x, order))
  {
    hide Ahead;
    if order == [] {
    } else if Ahead(view, x, order[0]) {
      forall k | 0 <= k < |order| ensures Ahead(view, x, order[k]) {
        AheadIsOrder(view, x, order[0], order[k]);
      }
      FrontSorted(view, x, order);
    } else {
      InsertSorted(view, x, order[1..]);
      var rest := Insert(view, x, order[1..]);
      AheadIsOrder(view, x, order[0], x);
      forall k | 0 <= k < |rest| ensures Ahead(view, order[0], rest[k]) {
        assert rest[k] in rest;
        if rest[k] != x {
          var j :| 0 <= j < |order[1..]| && order[1..][j] == rest[k];
          assert order[j + 1] == rest[k];
        }
      }
      FrontSorted(view, order[0], rest);
    }
  }

  lemma {:induction false} InsertTotal(view: seq<RestingOrder>, x: nat, order: seq<nat>)
    requires x < |view| && InView(view, order)
    ensures TotalAt(view, Insert(view, x, order)) == view[x].remaining + TotalAt(view, order)
  {
    hide Ahead;
    if order == [] {
    } else if Ahead(view, x, order[0]) {
      assert ([x] + order)[1..] == order;
    } else {
      InsertTotal(view, x, order[1..]);
      assert ([order[0]] + Insert(view, x, order[1..]))[1..] == Insert(view, x, order[1..]);
    }
  }

  lemma {:induction false} SizeOrderSorted(view: seq<RestingOrder>, n: nat)
    requires n <= |view|
    ensures SortedBySize(view, SizeOrder(view, n))
    ensures TotalAt(view, SizeOrder(view, n)) == TotalSeen(view[..n])
  {
    hide SortedBySize, Insert;
    if n == 0 {
      NothingSorted(view);
    } else {
      SizeOrderSorted(view, n - 1);
      InsertSorted(view, n - 1, SizeOrder(view, n - 1));
      InsertTotal(view, n - 1, SizeOrder(view, n - 1));
      assert view[..n] == view[..n - 1] + [view[n - 1]];
      TotalSeenConcat(view[..n - 1], [view[n - 1]]);
    }
  }

  lemma NothingSorted(view: seq<RestingOrder>)
    ensures SortedBySize(view, [])
  {}

  lemma SortedIsDistinct(view: seq<RestingOrder>, order: seq<nat>)
    requires InView(view, order) && SortedBySize(view, order)
    ensures DistinctPositions(order)
  {}

  function BySize(view: seq<RestingOrder>, n: Qty): seq<Allocation> {
    Greedy(view, SizeOrder(view, |view|), n)
  }

  const SizePriority := Strategy(true, BySize)

  lemma SizePriorityIsLawful()
    ensures Lawful(SizePriority)
  {
    hide Greedy, Honours;
    forall view: seq<RestingOrder>, n: Qty ensures Honours(view, n, BySize(view, n)) {
      SizeHonours(view, n);
    }
  }

  lemma SizeHonours(view: seq<RestingOrder>, n: Qty)
    ensures Honours(view, n, BySize(view, n))
  {
    hide Greedy, Within, DistinctMakers, SortedBySize, TotalSeen, TotalAt, Allocated;
    SizeOrderSorted(view, |view|);
    SortedIsDistinct(view, SizeOrder(view, |view|));
    GreedyHonours(view, SizeOrder(view, |view|), n);
    assert view[..|view|] == view;
  }

  /** `BinaryHeap::pop`: take the entry that is ahead of every other. */
  method PopHeap(view: seq<RestingOrder>, heap: set<nat>) returns (top: nat, rest: set<nat>)
    requires heap != {} && forall x :: x in heap ==> x < |view|
    ensures top in heap && rest == heap - {top}
    ensures forall x :: x in rest ==> Ahead(view, top, x)
  {
    top :| top in heap;
    var unseen := heap - {top};
    while unseen != {}
      invariant top in heap && unseen <= heap && top !in unseen
      invariant forall x :: x in heap && x !in unseen && x != top ==> Ahead(view, top, x)
      decreases unseen
    {
      var x :| x in unseen;
      unseen := unseen - {x};
      if Ahead(view, x, top) {
        top := x;
      }
    }
    rest := heap - {top};
  }

  /** Size priority over a heap: pop the largest order until the aggressor is satisfied. */
  method AllocateBySize(view: seq<RestingOrder>, incoming: Qty) returns (out: seq<Allocation>)
    ensures out == BySize(view, incoming)
  {
    hide Greedy, SortedBySize, Insert, SizeOrder;
    if incoming == 0 {
      GreedyDone(view, SizeOrder(view, |view|), set x | x in SizeOrder(view, |view|), 0);
      return [];
    }
    if |view| == 1 {
      SizeOfOne(view, incoming);
      var fill := Min(incoming, view[0].remaining);
      return if fill > 0 then [Allocation(view[0].id, fill, 0)] else [];
    }
    SizeOrderSorted(view, |view|);
    ghost var tail: seq<nat> := SizeOrder(view, |view|);
    out := [];
    var remaining: nat := incoming;
    var heap: set<nat> := set x | x in Positions(0, |view|);
    while remaining > 0 && heap != {}
      invariant InView(view, tail) && SortedBySize(view, tail)
      invariant forall x :: x in tail <==> x in heap
      invariant forall x :: x in heap ==> x < |view|
      invariant BySize(view, incoming) == out + Greedy(view, tail, remaining)
      decreases heap
    {
      var top, rest := PopHeap(view, heap);
      HeapTop(view, tail, heap, top);
      GreedyUnfolds(view, tail, remaining);
      var fill := Min(remaining, view[top].remaining);
      if fill > 0 {
        out := out + [Allocation(view[top].id, fill, top)];
        remaining := remaining - fill;
      }
      heap := rest;
      tail := tail[1..];
    }
    GreedyDone(view, tail, heap, remaining);
  }

  lemma SizeOfOne(view: seq<RestingOrder>, n: Qty)
    requires |view| == 1 && n > 0
    ensures var fill := Min(n, view[0].remaining);
            BySize(view, n) == if fill > 0 then [Allocation(view[0].id, fill, 0)] else []
  {
    var order := SizeOrder(view, 1);
    assert order[0] in order;
    GreedyUnfolds(view, order, n);
    GreedyDone(view, order[1..], {}, n - Min(n, view[0].remaining));
  }

  /** The heap's top is the front of the sorted remainder. */
  lemma HeapTop(view: seq<RestingOrder>, tail: seq<nat>, heap: set<nat>, top: nat)
    requires InView(view, tail) && SortedBySize(view, tail) && forall x :: x in tail <==> x in heap
    requires top in heap && forall x :: x in heap && x != top ==> x < |view| && Ahead(view, top, x)
    ensures tail != [] && tail[0] == top
    ensures InView(view, tail[1..]) && SortedBySize(view, tail[1..])
    ensures forall x :: x in tail[1..] <==> x in heap - {top}
  {
    assert tail[0] in heap;
    SortedIsDistinct(view, tail);
    var k :| 0 <= k < |tail| && tail[k] == top;
    assert tail == [tail[0]] + tail[1..];
  }

  lemma GreedyDone(view: seq<RestingOrder>, tail: seq<nat>, heap: set<nat>, n: nat)
    requires InView(view, tail) && (forall x :: x in tail <==> x in heap) && (n == 0 || heap == {})
    ensures Greedy(view, tail, n) == []
  {
    assert tail == [] || tail[0] in heap;
  }
}
