/** The slab of order slots with its free list, and price levels as queues of slots. */
module Pools {
  import opened Types

  ghost predicate Distinct(s: seq<nat>) {
    forall i, j :: 0 <= i < j < |s| ==> s[i] != s[j]
  }

  /** The live orders behind a queue of slots, in queue order; tombstones are skipped. */
  ghost function Live(slots: seq<Order>, queue: seq<nat>): (r: seq<Order>)
    requires InPool(slots, queue)
  {
    if queue == [] then []
    else (if slots[queue[0]].remaining > 0 then [slots[queue[0]]] else []) + Live(slots, queue[1..])
  }

  ghost predicate InPool(slots: seq<Order>, queue: seq<nat>) {
    forall i :: 0 <= i < |queue| ==> queue[i] < |slots|
  }

  lemma {:induction false} LiveConcat(slots: seq<Order>, a: seq<nat>, b: seq<nat>)
    requires InPool(slots, a) && InPool(slots, b)
    ensures InPool(slots, a + b) && Live(slots, a + b) == Live(slots, a) + Live(slots, b)
  {
    if a == [] {
      assert a + b == b;
    } else {
      LiveConcat(slots, a[1..], b);
      InPoolConcat(slots, a, b);
      assert (a + b)[0] == a[0] && (a + b)[1..] == a[1..] + b;
      var front := if slots[a[0]].remaining > 0 then [slots[a[0]]] else [];
      assert front + (Live(slots, a[1..]) + Live(slots, b)) == front + Live(slots, a[1..]) + Live(slots, b);
    }
  }

  lemma InPoolConcat(slots: seq<Order>, a: seq<nat>, b: seq<nat>)
    requires InPool(slots, a) && InPool(slots, b)
    ensures InPool(slots, a + b)
  {}

  lemma {:induction false} LiveFrame(slots: seq<Order>, slots': seq<Order>, queue: seq<nat>)
    requires InPool(slots, queue) && InPool(slots', queue)
    requires forall i :: 0 <= i < |queue| ==> slots[queue[i]] == slots'[queue[i]]
    ensures Live(slots', queue) == Live(slots, queue)
  {
    if queue != [] {
      LiveFrame(slots, slots', queue[1..]);
    }
  }

  lemma {:induction false} LiveAllDead(slots: seq<Order>, queue: seq<nat>)
    requires InPool(slots, queue)
    ensures Live(slots, queue) == [] <==> forall i :: 0 <= i < |queue| ==> slots[queue[i]].remaining == 0
  {
    if queue != [] {
      LiveAllDead(slots, queue[1..]);
      assert queue == [queue[0]] + queue[1..];
    }
  }

  lemma {:induction false} LiveMembers(slots: seq<Order>, queue: seq<nat>, o: Order)
    requires InPool(slots, queue)
    ensures o in Live(slots, queue) <==> o.remaining > 0 && exists i :: 0 <= i < |queue| && slots[queue[i]] == o
  {
    if queue != [] {
      LiveMembers(slots, queue[1..], o);
      assert forall i :: 0 <= i < |queue| - 1 ==> queue[1..][i] == queue[i + 1];
    }
  }

  /** `kept` and `removed` split `queue`: only tombstones leave, the live queue is unchanged. */
  ghost predicate Reclaims(slots: seq<Order>, queue: seq<nat>, kept: seq<nat>, removed: seq<nat>) {
    && InPool(slots, queue) && InPool(slots, kept) && InPool(slots, removed)
    && Distinct(kept) && Distinct(removed)
    && (forall x :: x in queue <==> x in kept || x in removed)
    && (forall x :: x in removed ==> x !in kept && slots[x].remaining == 0)
    && Live(slots, kept) == Live(slots, queue)
  }

  lemma ReclaimsPrefix(slots: seq<Order>, removed: seq<nat>, kept: seq<nat>)
    requires InPool(slots, removed) && InPool(slots, kept) && Distinct(removed + kept)
    requires forall i :: 0 <= i < |removed| ==> slots[removed[i]].remaining == 0
    ensures Reclaims(slots, removed + kept, kept, removed)
  {
    LiveConcat(slots, removed, kept);
    LiveAllDead(slots, removed);
    var all := removed + kept;
    assert forall i :: 0 <= i < |kept| ==> all[|removed| + i] == kept[i];
    assert forall i :: 0 <= i < |removed| ==> all[i] == removed[i];
  }

  lemma ReclaimsDead(slots: seq<Order>, queue: seq<nat>, kept: seq<nat>, removed: seq<nat>, x: nat)
    requires Reclaims(slots, queue, kept, removed)
    requires x < |slots| && x !in queue && slots[x].remaining == 0
    ensures Reclaims(slots, queue + [x], kept, removed + [x])
  {
    LiveConcat(slots, queue, [x]);
  }

  lemma ReclaimsLive(slots: seq<Order>, queue: seq<nat>, kept: seq<nat>, removed: seq<nat>, x: nat)
    requires Reclaims(slots, queue, kept, removed)
    requires x < |slots| && x !in queue && slots[x].remaining > 0
    ensures Reclaims(slots, queue + [x], kept + [x], removed)
  {
    LiveConcat(slots, queue, [x]);
    LiveConcat(slots, kept, [x]);
  }

  lemma {:induction false} LiveOfLive(slots: seq<Order>, queue: seq<nat>)
    requires InPool(slots, queue)
    requires forall i :: 0 <= i < |queue| ==> slots[queue[i]].remaining > 0
    ensures |Live(slots, queue)| == |queue|
  {
    if queue != [] {
      LiveOfLive(slots, queue[1..]);
    }
  }

  lemma ReclaimsNothing(slots: seq<Order>)
    ensures Reclaims(slots, [], [], [])
  {}

  lemma ReclaimsKeepsLive(slots: seq<Order>, queue: seq<nat>, kept: seq<nat>, removed: seq<nat>)
    requires Reclaims(slots, queue, kept, removed)
    requires forall i :: 0 <= i < |kept| && kept[i] < |slots| ==> slots[kept[i]].remaining > 0
    ensures InPool(slots, queue) && |Live(slots, queue)| == |kept|
  {
    LiveOfLive(slots, kept);
  }

  lemma ReclaimsTwice(slots: seq<Order>, queue: seq<nat>, kept: seq<nat>, removed: seq<nat>,
                      kept': seq<nat>, removed': seq<nat>)
    requires Reclaims(slots, queue, kept, removed) && Reclaims(slots, kept, kept', removed')
    ensures Reclaims(slots, queue, kept', removed + removed')
  {
    assert forall i :: 0 <= i < |removed| ==> removed[i] in removed;
    assert forall j :: 0 <= j < |removed'| ==> removed'[j] in removed';
  }

  /** A reclaimed queue is empty exactly when nothing lives on the level. */
  lemma LiveFrontKept(slots: seq<Order>, queue: seq<nat>, kept: seq<nat>, removed: seq<nat>)
    requires Reclaims(slots, queue, kept, removed)
    requires kept != [] && kept[0] < |slots| ==> slots[kept[0]].remaining > 0
    ensures InPool(slots, queue) && InPool(slots, kept) && Distinct(kept)
    ensures kept == [] <==> |Live(slots, queue)| == 0
    ensures |Live(slots, kept)| == |Live(slots, queue)|
  {}

  class OrderPool {
    var slots: seq<Order>
    var free: seq<nat>

    constructor ()
      ensures slots == [] && free == []
    {
      slots := [];
      free := [];
    }

    /** Reuse the most recently freed slot, or grow the slab. */
    method Alloc(order: Order) returns (slot: nat)
      requires InPool(slots, free)
      modifies this
      ensures slot < |slots| && slots[slot] == order
      ensures old(free) != [] ==>
        && free == old(free)[..|old(free)| - 1] && slot == old(free)[|old(free)| - 1]
        && slots == old(slots)[slot := order]
      ensures old(free) == [] ==> free == [] && slot == |old(slots)| && slots == old(slots) + [order]
    {
      if |free| > 0 {
        slot := free[|free| - 1];
        free := free[..|free| - 1];
        slots := slots[slot := order];
      } else {
        slots := slots + [order];
        slot := |slots| - 1;
      }
    }

    method Release(slot: nat)
      modifies this`free
      ensures free == old(free) + [slot]
    {
      free := free + [slot];
    }

    /** Pop tombstones off the front of a level queue until a live order (or nothing) is left. */
    method PopDeadFront(queue: seq<nat>) returns (kept: seq<nat>, ghost removed: seq<nat>)
      requires InPool(slots, queue) && Distinct(queue)
      modifies this`free
      ensures Reclaims(slots, queue, kept, removed)
      ensures free == old(free) + removed
      ensures kept != [] ==> slots[kept[0]].remaining > 0
    {
      kept, removed := queue, [];
      while kept != [] && slots[kept[0]].remaining == 0
        invariant queue == removed + kept
        invariant InPool(slots, kept) && InPool(slots, removed)
        invariant forall i :: 0 <= i < |removed| ==> slots[removed[i]].remaining == 0
        invariant free == old(free) + removed
        decreases |kept|
      {
        Release(kept[0]);
        removed := removed + [kept[0]];
        kept := kept[1..];
      }
      ReclaimsPrefix(slots, removed, kept);
    }

    /** `retain`: drop every tombstone of a level queue, keeping the live order. */
    method Compact(queue: seq<nat>) returns (kept: seq<nat>, ghost removed: seq<nat>)
      requires InPool(slots, queue) && Distinct(queue)
      modifies this`free
      ensures Reclaims(slots, queue, kept, removed)
      ensures free == old(free) + removed
      ensures forall i :: 0 <= i < |kept| ==> kept[i] < |slots| && slots[kept[i]].remaining > 0
      ensures |kept| == |Live(slots, queue)|
    {
      hide Live, Reclaims;
      ReclaimsNothing(slots);
      kept, removed := [], [];
      var i := 0;
      while i < |queue|
        invariant 0 <= i <= |queue|
        invariant Reclaims(slots, queue[..i], kept, removed)
        invariant free == old(free) + removed
        invariant forall i :: 0 <= i < |kept| ==> kept[i] < |slots| && slots[kept[i]].remaining > 0
      {
        assert queue[..i + 1] == queue[..i] + [queue[i]];
        assert queue[i] !in queue[..i];
        if slots[queue[i]].remaining == 0 {
          ReclaimsDead(slots, queue[..i], kept, removed, queue[i]);
          Release(queue[i]);
          removed := removed + [queue[i]];
        } else {
          ReclaimsLive(slots, queue[..i], kept, removed, queue[i]);
          kept := kept + [queue[i]];
        }
        i := i + 1;
      }
      assert queue[..i] == queue;
      ReclaimsKeepsLive(slots, queue, kept, removed);
    }
  }
}
