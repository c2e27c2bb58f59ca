/** The abstract book behind a store, and the store steps as steps of that book. */
module StoreViews {
  import opened Types
  import opened Books
  import opened Pools
  import opened LevelIndexes
  import opened Stores

  ghost function LevelQueues(slots: seq<Order>, m: map<Price, Level>): map<Price, seq<Order>>
    requires forall p :: p in m ==> InPool(slots, m[p].orders)
  {
    map p | p in m && Live(slots, m[p].orders) != [] :: Live(slots, m[p].orders)
  }

  lemma CoreInPool(s: Store)
    requires Core(s)
    ensures forall p :: p in s.bids ==> InPool(s.slots, s.bids[p].orders)
    ensures forall p :: p in s.asks ==> InPool(s.slots, s.asks[p].orders)
  {
    hide FreeOk, Homed, LocateOk, UsersOk, Live, Total;
  }

  ghost function View(s: Store): Book
    requires Core(s)
  {
    CoreInPool(s);
    Book(LevelQueues(s.slots, s.bids), LevelQueues(s.slots, s.asks))
  }

  lemma ViewQueue(s: Store, side: Side, p: Price)
    requires Core(s)
    ensures Queue(View(s), side, p) == QueueOf(s, side, p)
  {
    hide FreeOk, Homed, LocateOk, UsersOk, Live, Total, LevelOk, LevelsOk;
  }

  lemma ViewNoEmpty(s: Store)
    requires Core(s)
    ensures NoEmptyLevel(View(s))
  {
    hide FreeOk, Homed, LocateOk, UsersOk, Live, Total, LevelOk, LevelsOk;
  }

  /** Bringing an order down is `SetRemaining` on its queue. */
  lemma ViewShrunk(s: Store, id: OrderId, r: Qty)
    requires Core(s) && id in s.locate && r <= s.slots[s.locate[id]].remaining
    ensures Core(Shrunk(s, id, r))
    ensures var o, b := s.slots[s.locate[id]], View(s);
            View(Shrunk(s, id, r)) ==
              WithQueue(b, o.side, o.price, SetRemaining(Queue(b, o.side, o.price), id, r))
  {
    hide Core, Live, View, SetRemaining, Shrunk, QueueOf, WithQueue, Queue, NoEmptyLevel;
    ShrunkCore(s, id, r);
    LocateAt(s, id);
    var o, b, s' := s.slots[s.locate[id]], View(s), Shrunk(s, id, r);
    var b' := WithQueue(b, o.side, o.price, SetRemaining(Queue(b, o.side, o.price), id, r));
    ViewNoEmpty(s);
    ViewNoEmpty(s');
    WithQueueNoEmpty(b, o.side, o.price, SetRemaining(Queue(b, o.side, o.price), id, r));
    forall side, p ensures Queue(View(s'), side, p) == Queue(b', side, p) {
      ViewQueue(s, side, p);
      ViewQueue(s', side, p);
      ShrunkQueues(s, id, r, side, p);
      QueueWithQueue(b, o.side, o.price, SetRemaining(Queue(b, o.side, o.price), id, r), side, p);
    }
    SameQueues(View(s'), b');
  }

  /** Placing an order appends it to its queue. */
  lemma ViewInserted(s: Store, o: Order, slots': seq<Order>, free': seq<nat>, x: nat)
    requires Core(s) && o.remaining > 0 && o.id !in s.locate && Placed(s, o, slots', free', x)
    ensures Core(Inserted(s, o, slots', free', x))
    ensures var b := View(s);
            View(Inserted(s, o, slots', free', x)) ==
              WithQueue(b, o.side, o.price, Queue(b, o.side, o.price) + [o])
  {
    hide Core, Live, View, Placed, Inserted, QueueOf, WithQueue, Queue, NoEmptyLevel;
    InsertedCore(s, o, slots', free', x);
    var b, s' := View(s), Inserted(s, o, slots', free', x);
    var q := Queue(b, o.side, o.price) + [o];
    var b' := WithQueue(b, o.side, o.price, q);
    ViewNoEmpty(s);
    ViewNoEmpty(s');
    WithQueueNoEmpty(b, o.side, o.price, q);
    forall side, p ensures Queue(View(s'), side, p) == Queue(b', side, p) {
      ViewQueue(s, side, p);
      ViewQueue(s', side, p);
      InsertedQueues(s, o, slots', free', x, side, p);
      QueueWithQueue(b, o.side, o.price, q, side, p);
    }
    SameQueues(View(s'), b');
  }

  /** Maintenance is invisible. */
  lemma ViewSwept(s: Store, side: Side, p: Price, kept: seq<nat>, removed: seq<nat>)
    requires Core(s) && p in SideLevels(s, side)
    requires Reclaims(s.slots, SideLevels(s, side)[p].orders, kept, removed)
    requires SideLevels(s, side)[p].live == 0 ==> kept == []
    ensures Core(Swept(s, side, p, kept, removed))
    ensures View(Swept(s, side, p, kept, removed)) == View(s)
  {
    hide Core, Live, View, Reclaims, Swept, QueueOf, Queue, NoEmptyLevel;
    SweptCore(s, side, p, kept, removed);
    var s' := Swept(s, side, p, kept, removed);
    ViewNoEmpty(s);
    ViewNoEmpty(s');
    forall side', p' ensures Queue(View(s'), side', p') == Queue(View(s), side', p') {
      ViewQueue(s, side', p');
      ViewQueue(s', side', p');
      SweptQueues(s, side, p, kept, removed, side', p');
    }
    SameQueues(View(s'), View(s));
  }

  // --- every view is a well-formed book ------------------------------------------------------

  lemma {:induction false} LiveGood(slots: seq<Order>, free: seq<nat>, locate: map<OrderId, nat>,
                                    side: Side, p: Price, queue: seq<nat>)
    requires InPool(slots, queue) && Distinct(queue) && LocateOk(slots, locate)
    requires forall i :: 0 <= i < |queue| ==> slots[queue[i]].side == side && slots[queue[i]].price == p
    ensures GoodQueue(Live(slots, queue), side, p)
  {
    if queue != [] {
      LiveGood(slots, free, locate, side, p, queue[1..]);
      var rest := Live(slots, queue[1..]);
      if slots[queue[0]].remaining > 0 {
        forall j | 0 <= j < |rest| ensures rest[j].id != slots[queue[0]].id {
          LiveMembers(slots, queue[1..], rest[j]);
        }
        assert Live(slots, queue) == [slots[queue[0]]] + rest;
      } else {
        assert Live(slots, queue) == rest;
      }
    }
  }

  lemma ViewGood(s: Store)
    requires Core(s)
    ensures GoodBook(View(s))
  {
    hide FreeOk, Homed, LocateOk, UsersOk, Live, Total, View, GoodQueue;
    ViewNoEmpty(s);
    var b := View(s);
    forall side, p | p in Levels(b, side) ensures Queue(b, side, p) != [] && GoodQueue(Queue(b, side, p), side, p) {
      ViewQueue(s, side, p);
      LiveGood(s.slots, s.free, s.locate, side, p, SideLevels(s, side)[p].orders);
    }
  }

  /** The orders of the view are exactly the live slots. */
  lemma ViewRests(s: Store, o: Order)
    requires Core(s)
    ensures Rests(View(s), o) <==> o.id in s.locate && s.slots[s.locate[o.id]] == o
  {
    hide FreeOk, UsersOk, Live, Total, View, Homed, LocateOk, LevelOk, LevelsOk;
    LocateInPool(s.slots, s.locate);
    ViewQueue(s, o.side, o.price);
    var m := SideLevels(s, o.side);
    if o.price in m {
      LevelAt(s, o.side, o.price);
      LiveMembers(s.slots, m[o.price].orders, o);
    }
    if o.id in s.locate && s.slots[s.locate[o.id]] == o {
      LocateAt(s, o.id);
      LiveIsHomed(s, s.locate[o.id]);
      var i :| 0 <= i < |m[o.price].orders| && m[o.price].orders[i] == s.locate[o.id];
      assert s.slots[m[o.price].orders[i]] == o;
    } else if Rests(View(s), o) {
      var i :| 0 <= i < |m[o.price].orders| && s.slots[m[o.price].orders[i]] == o;
      LocateBack(s, m[o.price].orders[i]);
    }
  }

  lemma LevelAt(s: Store, side: Side, p: Price)
    requires Core(s) && p in SideLevels(s, side)
    ensures LevelOk(s.slots, s.free, side, p, SideLevels(s, side)[p])
  {}

  lemma LocateBack(s: Store, x: nat)
    requires Core(s) && x < |s.slots| && s.slots[x].remaining > 0
    ensures s.slots[x].id in s.locate && s.locate[s.slots[x].id] == x
  {}

  lemma ViewIds(s: Store)
    requires Core(s)
    ensures IdsUnique(View(s))
    ensures forall id :: id in s.locate <==> HasId(View(s), id)
  {
    hide FreeOk, UsersOk, View, Homed, LocateOk, LevelsOk, Rests;
    LocateInPool(s.slots, s.locate);
    forall o ensures Rests(View(s), o) <==> o.id in s.locate && s.slots[s.locate[o.id]] == o {
      ViewRests(s, o);
    }
    forall id | id in s.locate ensures HasId(View(s), id) {
      LocateAt(s, id);
      assert Rests(View(s), s.slots[s.locate[id]]);
    }
  }

  /** The counter of a user counts the orders the user has on the view. */
  lemma ViewUsers(s: Store, user: User)
    requires Core(s)
    ensures IdsOfUser(View(s), user) == IdsOf(s.slots, s.locate, user)
  {
    hide FreeOk, UsersOk, Live, Total, View, Homed, LevelOk, LevelsOk, Rests;
    var b := View(s);
    ViewGood(s);
    forall o ensures o in Resting(b) <==> o.id in s.locate && s.slots[s.locate[o.id]] == o {
      RestingAre(b, o);
      ViewRests(s, o);
    }
    forall id | id in IdsOf(s.slots, s.locate, user) ensures id in IdsOfUser(b, user) {
      assert s.slots[s.locate[id]] in Resting(b);
    }
  }

  // --- tidiness ------------------------------------------------------------------------------

  /** Every level but one is tidy: the state inside an operation on that level. */
  ghost predicate TidyExcept(s: Store, side: Side, p: Price) {
    forall side', p' :: p' in SideLevels(s, side') && (side' != side || p' != p) ==>
      Tidy(s.slots, SideLevels(s, side')[p'])
  }

  lemma InvTidy(s: Store)
    requires Inv(s)
    ensures forall side, p :: p in SideLevels(s, side) ==> Tidy(s.slots, SideLevels(s, side)[p])
  {
    hide Core, Tidy;
  }

  lemma TidyInv(s: Store)
    requires Core(s)
    requires forall side, p :: p in SideLevels(s, side) ==> Tidy(s.slots, SideLevels(s, side)[p])
    ensures Inv(s)
  {
    hide Core, Tidy;
    assert SideLevels(s, Buy) == s.bids && SideLevels(s, Sell) == s.asks;
  }

  lemma ShrunkTidyExcept(s: Store, id: OrderId, r: Qty)
    requires Core(s) && id in s.locate && r <= s.slots[s.locate[id]].remaining
    requires TidyExcept(s, s.slots[s.locate[id]].side, s.slots[s.locate[id]].price)
    ensures TidyExcept(Shrunk(s, id, r), s.slots[s.locate[id]].side, s.slots[s.locate[id]].price)
  {
    hide FreeOk, UsersOk, Live, Total, Homed;
    LocateAt(s, id);
    var o, s' := s.slots[s.locate[id]], Shrunk(s, id, r);
    forall side, p | p in SideLevels(s', side) && (side != o.side || p != o.price)
      ensures Tidy(s'.slots, SideLevels(s', side)[p])
    {
      var lv := SideLevels(s, side)[p];
      assert SideLevels(s', side)[p] == lv && LevelOk(s.slots, s.free, side, p, lv);
      assert s.slots[lv.orders[0]].side == side && s.slots[lv.orders[0]].price == p;
    }
  }

  /** Reducing an order to a positive quantity leaves the book tidy without maintenance. */
  lemma ReducedInv(s: Store, id: OrderId, r: Qty)
    requires Inv(s) && id in s.locate && 0 < r <= s.slots[s.locate[id]].remaining
    ensures Inv(Shrunk(s, id, r))
  {
    hide FreeOk, UsersOk, Live, Total, Homed, LevelOk, LevelsOk, LocateOk;
    LocateAt(s, id);
    InvTidy(s);
    ShrunkCore(s, id, r);
    ShrunkTidyExcept(s, id, r);
    var o, s' := s.slots[s.locate[id]], Shrunk(s, id, r);
    LiveIsHomed(s, s.locate[id]);
    var lv := SideLevels(s, o.side)[o.price];
    forall side, p | p in SideLevels(s', side) ensures Tidy(s'.slots, SideLevels(s', side)[p]) {
      if side == o.side && p == o.price {
        assert Tidy(s.slots, lv);
        assert SideLevels(s', side)[p].orders == lv.orders && SideLevels(s', side)[p].live == lv.live;
      }
    }
    TidyInv(s');
  }

  lemma SweptInv(s: Store, side: Side, p: Price, kept: seq<nat>, removed: seq<nat>)
    requires Core(s) && p in SideLevels(s, side) && TidyExcept(s, side, p)
    requires Reclaims(s.slots, SideLevels(s, side)[p].orders, kept, removed)
    requires SideLevels(s, side)[p].live == 0 ==> kept == []
    requires var m' := Maintained(SideLevels(s, side), p, kept); p in m' ==> Tidy(s.slots, m'[p])
    ensures Inv(Swept(s, side, p, kept, removed))
  {
    hide Core, Tidy, Reclaims;
    SweptCore(s, side, p, kept, removed);
    var s' := Swept(s, side, p, kept, removed);
    forall side', p' | p' in SideLevels(s', side') ensures Tidy(s'.slots, SideLevels(s', side')[p']) {
      if side' != side || p' != p {
        assert p' in SideLevels(s, side') && SideLevels(s', side')[p'] == SideLevels(s, side')[p'];
      }
    }
    TidyInv(s');
  }

  lemma InsertedInv(s: Store, o: Order, slots': seq<Order>, free': seq<nat>, x: nat)
    requires Inv(s) && o.remaining > 0 && o.id !in s.locate && Placed(s, o, slots', free', x)
    ensures Inv(Inserted(s, o, slots', free', x))
  {
    hide UsersOk, Live, Total, Homed, LevelOk, LocateOk, FreeOk, Placed, Tidy;
    InvTidy(s);
    InsertedCore(s, o, slots', free', x);
    PlacedFrame(s, o, slots', free', x);
    var s' := Inserted(s, o, slots', free', x);
    forall side, p | p in SideLevels(s', side) ensures Tidy(s'.slots, SideLevels(s', side)[p]) {
      if p in SideLevels(s, side) {
        var lv := SideLevels(s, side)[p];
        InsertedOtherLevel(s, o, slots', free', x, side, p, lv);
        TidyAfterPlacing(s.slots, slots', lv, x);
      } else {
        TidyNew(slots', x);
      }
    }
    TidyInv(s');
  }

  lemma TidyNew(slots: seq<Order>, x: nat)
    requires x < |slots| && slots[x].remaining > 0
    ensures Tidy(slots, Level([] + [x], 0 + slots[x].remaining, 0 + 1))
  {}

  lemma TidyAfterPlacing(slots: seq<Order>, slots': seq<Order>, lv: Level, x: nat)
    requires Tidy(slots, lv) && |slots| <= |slots'| && x !in lv.orders && x < |slots'|
    requires forall y :: 0 <= y < |slots| && y != x ==> slots'[y] == slots[y]
    ensures Tidy(slots', lv)
    ensures Tidy(slots', Level(lv.orders + [x], lv.qty + slots'[x].remaining, lv.live + 1))
  {
    assert lv.orders[0] != x;
  }

  // --- the slab, slot by slot -----------------------------------------------------------------

  /** Slot `x` is the `i`-th entry of the queue at `(side, p)`. */
  ghost predicate Sits(s: Store, x: nat, side: Side, p: Price, i: nat) {
    p in SideLevels(s, side) && i < |SideLevels(s, side)[p].orders| && SideLevels(s, side)[p].orders[i] == x
  }

  /** Every slot is in exactly one place: the free list, or one entry of one level queue. */
  lemma EverySlotOnce(s: Store, x: nat)
    requires Inv(s) && x < |s.slots|
    ensures x !in s.free <==> exists side, p, i :: Sits(s, x, side, p, i)
    ensures forall side, p, i, side', p', i' :: Sits(s, x, side, p, i) && Sits(s, x, side', p', i') ==>
              side == side' && p == p' && i == i'
  {
    hide Live, Total, Tidy, LocateOk, UsersOk;
    if x !in s.free {
      var o := s.slots[x];
      var i :| 0 <= i < |SideLevels(s, o.side)[o.price].orders| && SideLevels(s, o.side)[o.price].orders[i] == x;
      assert Sits(s, x, o.side, o.price, i);
    }
    forall side, p, i | Sits(s, x, side, p, i)
      ensures x !in s.free && s.slots[x].side == side && s.slots[x].price == p {
      LevelAt(s, side, p);
    }
    forall side, p, i, i' | Sits(s, x, side, p, i) && Sits(s, x, side, p, i') ensures i == i' {
      LevelAt(s, side, p);
    }
  }

  /**
   Every level between operations: its front is live, its counters are the sum and the count of
   its live orders, and it retains at most max(1022, live) tombstones.
   */
  lemma LevelsAreTidy(s: Store, side: Side, p: Price)
    requires Inv(s) && p in SideLevels(s, side)
    ensures var lv := SideLevels(s, side)[p];
            && InPool(s.slots, lv.orders) && lv.orders != [] && s.slots[lv.orders[0]].remaining > 0
            && lv.live == |Live(s.slots, lv.orders)| && lv.qty == Total(Live(s.slots, lv.orders))
            && |lv.orders| - lv.live <= if lv.live > 1022 then lv.live else 1022
  {
    hide Live, Total, LocateOk, UsersOk, Homed;
    LevelAt(s, side, p);
  }
}
