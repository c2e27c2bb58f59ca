/**
 The order book's storage as one value: slab slots, free list, the two level maps, the id
 index and the per-user counters; its invariant, and the three kinds of step that every
 book operation is made of.
 */
module Stores {
  import opened Types
  import opened Books
  import opened Pools
  import opened LevelIndexes

  datatype Store = Store(
    slots: seq<Order>,
    free: seq<nat>,
    bids: map<Price, Level>,
    asks: map<Price, Level>,
    locate: map<OrderId, nat>,
    users: map<User, nat>)

  function SideLevels(s: Store, side: Side): map<Price, Level> {
    match side
    case Buy => s.bids
    case Sell => s.asks
  }

  // --- the invariant -----------------------------------------------------------------

  /** Free slots are distinct tombstones. */
  ghost predicate FreeOk(slots: seq<Order>, free: seq<nat>) {
    && InPool(slots, free) && Distinct(free)
    && forall i :: 0 <= i < |free| ==> slots[free[i]].remaining == 0
  }

  /** A level queues distinct slots of its own side and price, and its aggregates are exact. */
  ghost predicate LevelOk(slots: seq<Order>, free: seq<nat>, side: Side, p: Price, lv: Level) {
    && InPool(slots, lv.orders) && Distinct(lv.orders)
    && (forall i :: 0 <= i < |lv.orders| ==>
          var x := lv.orders[i]; x !in free && slots[x].side == side && slots[x].price == p)
    && lv.live == |Live(slots, lv.orders)|
    && lv.qty == Total(Live(slots, lv.orders))
  }

  ghost predicate LevelsOk(slots: seq<Order>, free: seq<nat>, side: Side, m: map<Price, Level>) {
    forall p :: p in m ==> LevelOk(slots, free, side, p, m[p])
  }

  /** Every slot that is not free sits in the queue of its own side and price. */
  ghost predicate Homed(s: Store) {
    forall x :: 0 <= x < |s.slots| && x !in s.free ==>
      var m := SideLevels(s, s.slots[x].side);
      s.slots[x].price in m && x in m[s.slots[x].price].orders
  }

  /** The id index holds exactly the live orders. */
  ghost predicate LocateOk(slots: seq<Order>, locate: map<OrderId, nat>) {
    && (forall id :: id in locate ==>
          locate[id] < |slots| && slots[locate[id]].id == id && slots[locate[id]].remaining > 0)
    && (forall x :: 0 <= x < |slots| && slots[x].remaining > 0 ==>
          slots[x].id in locate && locate[slots[x].id] == x)
  }

  /** Ids of the live orders of one user. */
  ghost function IdsOf(slots: seq<Order>, locate: map<OrderId, nat>, user: User): set<OrderId> {
    set id | id in locate && locate[id] < |slots| && slots[locate[id]].user == user
  }

  /** The per-user counters are exact; user 0 is not tracked. */
  ghost predicate UsersOk(slots: seq<Order>, locate: map<OrderId, nat>, users: map<User, nat>) {
    forall u :: if u in users then u != 0 && users[u] > 0 && users[u] == |IdsOf(slots, locate, u)|
                else u != 0 ==> IdsOf(slots, locate, u) == {}
  }

  /** Holds between and inside operations. */
  ghost predicate Core(s: Store) {
    && FreeOk(s.slots, s.free)
    && LevelsOk(s.slots, s.free, Buy, s.bids)
    && LevelsOk(s.slots, s.free, Sell, s.asks)
    && Homed(s)
    && LocateOk(s.slots, s.locate)
    && UsersOk(s.slots, s.locate, s.users)
  }

  ghost predicate AllTidy(slots: seq<Order>, m: map<Price, Level>) {
    forall p :: p in m ==> Tidy(slots, m[p])
  }

  /** Holds between operations: no empty level, live fronts, bounded tombstones. */
  ghost predicate Inv(s: Store) {
    Core(s) && AllTidy(s.slots, s.bids) && AllTidy(s.slots, s.asks)
  }

  // --- what a store stands for ---------------------------------------------------------

  ghost function QueueOf(s: Store, side: Side, p: Price): seq<Order>
    requires Core(s)
  {
    var m := SideLevels(s, side);
    if p in m then Live(s.slots, m[p].orders) else []
  }

  // --- step 1: one live order is brought down (fill, reduce, cancel) ---------------------

  ghost function Brought(slots: seq<Order>, x: nat, r: Qty): seq<Order>
    requires x < |slots|
  {
    slots[x := slots[x].(remaining := r)]
  }

  /** The user counter after one of the user's orders left the book. */
  function Forget(users: map<User, nat>, user: User): map<User, nat> {
    if user == 0 || user !in users then users
    else if users[user] <= 1 then users - {user} else users[user := users[user] - 1]
  }

  ghost function Shrunk(s: Store, id: OrderId, r: Qty): Store
    requires Core(s) && id in s.locate && r <= s.slots[s.locate[id]].remaining
  {
    var x := s.locate[id];
    var o := s.slots[x];
    var m := SideLevels(s, o.side);
    LiveIsHomed(s, x);
    var lv := m[o.price];
    LevelCovers(s.slots, lv.orders, x);
    var m' := m[o.price := Level(lv.orders, lv.qty - (o.remaining - r), lv.live - if r == 0 then 1 else 0)];
    var s' := s.(slots := Brought(s.slots, x, r),
                 locate := if r == 0 then s.locate - {id} else s.locate,
                 users := if r == 0 then Forget(s.users, o.user) else s.users);
    if o.side.Buy? then s'.(bids := m') else s'.(asks := m')
  }

  /** A live slot is not free and is queued on its own level. */
  lemma LiveIsHomed(s: Store, x: nat)
    requires Core(s) && x < |s.slots| && s.slots[x].remaining > 0
    ensures x !in s.free
    ensures var m := SideLevels(s, s.slots[x].side);
            s.slots[x].price in m && x in m[s.slots[x].price].orders
            && LevelOk(s.slots, s.free, s.slots[x].side, s.slots[x].price, m[s.slots[x].price])
  {
    hide LevelOk;
    assert forall i :: 0 <= i < |s.free| ==> s.free[i] != x;
  }

  /** A level's total and count cover each of its live orders. */
  lemma {:induction false} LevelCovers(slots: seq<Order>, queue: seq<nat>, x: nat)
    requires InPool(slots, queue) && x in queue && slots[x].remaining > 0
    ensures slots[x] in Live(slots, queue)
    ensures Total(Live(slots, queue)) >= slots[x].remaining && |Live(slots, queue)| >= 1
  {
    if queue[0] == x {
      assert Live(slots, queue) == [slots[x]] + Live(slots, queue[1..]);
    } else {
      LevelCovers(slots, queue[1..], x);
      var front := if slots[queue[0]].remaining > 0 then [slots[queue[0]]] else [];
      TotalConcat(front, Live(slots, queue[1..]));
    }
  }

  /** Bringing one slot down acts on the live queue as `SetRemaining`. */
  lemma {:induction false} LiveBrought(slots: seq<Order>, queue: seq<nat>, x: nat, r: Qty)
    requires InPool(slots, queue) && Distinct(queue) && x in queue && slots[x].remaining > 0
    requires forall i :: 0 <= i < |queue| && slots[queue[i]].remaining > 0 && slots[queue[i]].id == slots[x].id ==>
               queue[i] == x
    ensures Live(Brought(slots, x, r), queue) == SetRemaining(Live(slots, queue), slots[x].id, r)
  {
    var slots' := Brought(slots, x, r);
    if queue[0] == x {
      LiveFrame(slots, slots', queue[1..]);
      assert Live(slots, queue) == [slots[x]] + Live(slots, queue[1..]);
    } else {
      LiveBrought(slots, queue[1..], x, r);
      if slots[queue[0]].remaining > 0 {
        assert Live(slots, queue) == [slots[queue[0]]] + Live(slots, queue[1..]);
      } else {
        assert Live(slots, queue) == Live(slots, queue[1..]);
      }
    }
  }

  lemma ShrunkFree(slots: seq<Order>, free: seq<nat>, x: nat, r: Qty)
    requires FreeOk(slots, free) && x < |slots| && x !in free
    ensures FreeOk(Brought(slots, x, r), free)
  {}

  lemma ShrunkLevel(slots: seq<Order>, free: seq<nat>, locate: map<OrderId, nat>, x: nat, r: Qty, lv: Level)
    requires x < |slots| && LevelOk(slots, free, slots[x].side, slots[x].price, lv) && LocateOk(slots, locate)
    requires x in lv.orders && slots[x].remaining > 0 && r <= slots[x].remaining
    ensures lv.qty >= slots[x].remaining && lv.live > 0
    ensures var slots' := Brought(slots, x, r);
            var lv' := Level(lv.orders, lv.qty - (slots[x].remaining - r), lv.live - if r == 0 then 1 else 0);
            && LevelOk(slots', free, slots[x].side, slots[x].price, lv')
            && Live(slots', lv.orders) == SetRemaining(Live(slots, lv.orders), slots[x].id, r)
  {
    LiveBrought(slots, lv.orders, x, r);
    LevelCovers(slots, lv.orders, x);
    LiveIdsUnique(slots, locate, lv.orders, x);
    SetRemainingTotal(Live(slots, lv.orders), slots[x], r);
  }

  lemma LiveIdsUnique(slots: seq<Order>, locate: map<OrderId, nat>, queue: seq<nat>, x: nat)
    requires InPool(slots, queue) && LocateOk(slots, locate) && x < |slots| && slots[x].remaining > 0
    ensures var q := Live(slots, queue);
            forall i :: 0 <= i < |q| && q[i].id == slots[x].id ==> q[i] == slots[x]
  {
    var q := Live(slots, queue);
    forall i | 0 <= i < |q| && q[i].id == slots[x].id ensures q[i] == slots[x] {
      LiveMembers(slots, queue, q[i]);
    }
  }

  lemma ShrunkOtherLevel(slots: seq<Order>, free: seq<nat>, x: nat, r: Qty, side: Side, p: Price, lv: Level)
    requires x < |slots| && LevelOk(slots, free, side, p, lv) && (slots[x].side != side || slots[x].price != p)
    ensures LevelOk(Brought(slots, x, r), free, side, p, lv)
    ensures Live(Brought(slots, x, r), lv.orders) == Live(slots, lv.orders)
  {
    LiveFrame(slots, Brought(slots, x, r), lv.orders);
  }

  lemma ShrunkHomed(s: Store, id: OrderId, r: Qty)
    requires Core(s) && id in s.locate && r <= s.slots[s.locate[id]].remaining
    ensures Homed(Shrunk(s, id, r))
  {
    hide FreeOk, LevelsOk, UsersOk, Live, Total;
    LiveIsHomed(s, s.locate[id]);
    var s' := Shrunk(s, id, r);
    forall y | 0 <= y < |s'.slots| && y !in s'.free
      ensures var m := SideLevels(s', s'.slots[y].side);
              s'.slots[y].price in m && y in m[s'.slots[y].price].orders
    {
      assert s'.slots[y].side == s.slots[y].side && s'.slots[y].price == s.slots[y].price;
    }
  }

  lemma ShrunkLocate(slots: seq<Order>, locate: map<OrderId, nat>, id: OrderId, r: Qty)
    requires LocateOk(slots, locate) && id in locate
    ensures LocateOk(Brought(slots, locate[id], r), if r == 0 then locate - {id} else locate)
  {}

  lemma IdsWithout(slots: seq<Order>, locate: map<OrderId, nat>, id: OrderId, u: User)
    requires id in locate && locate[id] < |slots|
    ensures IdsOf(slots, locate - {id}, u) ==
              if u == slots[locate[id]].user then IdsOf(slots, locate, u) - {id} else IdsOf(slots, locate, u)
    ensures u == slots[locate[id]].user ==> id in IdsOf(slots, locate, u)
  {}

  lemma ForgetUser(slots: seq<Order>, locate: map<OrderId, nat>, users: map<User, nat>, id: OrderId)
    requires UsersOk(slots, locate, users) && id in locate && locate[id] < |slots|
    ensures UsersOk(slots, locate - {id}, Forget(users, slots[locate[id]].user))
  {
    hide IdsOf;
    forall u: User
      ensures var users' := Forget(users, slots[locate[id]].user);
              if u in users' then u != 0 && users'[u] > 0 && users'[u] == |IdsOf(slots, locate - {id}, u)|
              else u != 0 ==> IdsOf(slots, locate - {id}, u) == {}
    {
      IdsWithout(slots, locate, id, u);
    }
  }

  lemma UsersFrame(slots: seq<Order>, slots': seq<Order>, locate: map<OrderId, nat>, users: map<User, nat>)
    requires UsersOk(slots, locate, users) && |slots| <= |slots'|
    requires forall id :: id in locate ==> locate[id] < |slots| && slots[locate[id]].user == slots'[locate[id]].user
    ensures UsersOk(slots', locate, users)
  {
    forall u: User ensures IdsOf(slots', locate, u) == IdsOf(slots, locate, u) {}
  }

  lemma ShrunkLevels(s: Store, id: OrderId, r: Qty, side: Side)
    requires Core(s) && id in s.locate && r <= s.slots[s.locate[id]].remaining
    ensures var s' := Shrunk(s, id, r); LevelsOk(s'.slots, s'.free, side, SideLevels(s', side))
  {
    hide FreeOk, UsersOk, Live, Total, LevelOk, Homed;
    var s', x := Shrunk(s, id, r), s.locate[id];
    LiveIsHomed(s, x);
    forall p | p in SideLevels(s', side)
      ensures LevelOk(s'.slots, s'.free, side, p, SideLevels(s', side)[p])
    {
      if s.slots[x].side == side && s.slots[x].price == p {
        ShrunkLevel(s.slots, s.free, s.locate, x, r, SideLevels(s, side)[p]);
      } else {
        assert SideLevels(s', side)[p] == SideLevels(s, side)[p];
        ShrunkOtherLevel(s.slots, s.free, x, r, side, p, SideLevels(s, side)[p]);
      }
    }
  }

  lemma ShrunkCore(s: Store, id: OrderId, r: Qty)
    requires Core(s) && id in s.locate && r <= s.slots[s.locate[id]].remaining
    ensures Core(Shrunk(s, id, r))
  {
    hide FreeOk, LevelsOk, UsersOk, Live, Total, LevelOk, Homed, LocateOk;
    var x := s.locate[id];
    LocateAt(s, id);
    LiveIsHomed(s, x);
    ShrunkFree(s.slots, s.free, x, r);
    ShrunkLevels(s, id, r, Buy);
    ShrunkLevels(s, id, r, Sell);
    ShrunkHomed(s, id, r);
    ShrunkLocate(s.slots, s.locate, id, r);
    LocateInPool(s.slots, s.locate);
    var s' := Shrunk(s, id, r);
    if r == 0 {
      ForgetUser(s.slots, s.locate, s.users, id);
      UsersFrame(s.slots, s'.slots, s.locate - {id}, s'.users);
    } else {
      UsersFrame(s.slots, s'.slots, s.locate, s.users);
    }
  }

  lemma LocateInPool(slots: seq<Order>, locate: map<OrderId, nat>)
    requires LocateOk(slots, locate)
    ensures forall id :: id in locate ==> locate[id] < |slots|
  {}

  lemma LocateAt(s: Store, id: OrderId)
    requires Core(s) && id in s.locate
    ensures s.locate[id] < |s.slots| && s.slots[s.locate[id]].id == id && s.slots[s.locate[id]].remaining > 0
  {}

  /** One queue changes by `SetRemaining`; every other queue stays. */
  lemma ShrunkQueues(s: Store, id: OrderId, r: Qty, side: Side, p: Price)
    requires Core(s) && id in s.locate && r <= s.slots[s.locate[id]].remaining
    ensures Core(Shrunk(s, id, r))
    ensures var o := s.slots[s.locate[id]];
            QueueOf(Shrunk(s, id, r), side, p) ==
              if side == o.side && p == o.price then SetRemaining(QueueOf(s, side, p), id, r)
              else QueueOf(s, side, p)
  {
    hide FreeOk, UsersOk, Live, Total, LevelOk, Homed, LocateOk;
    ShrunkCore(s, id, r);
    LocateAt(s, id);
    var x := s.locate[id];
    LiveIsHomed(s, x);
    if p in SideLevels(s, side) {
      if s.slots[x].side == side && s.slots[x].price == p {
        ShrunkLevel(s.slots, s.free, s.locate, x, r, SideLevels(s, side)[p]);
      } else {
        ShrunkOtherLevel(s.slots, s.free, x, r, side, p, SideLevels(s, side)[p]);
      }
    }
  }

  // --- step 2: a new order is placed at the back of its level -----------------------------

  /** What `alloc` does: one unused slot now holds `o`, nothing else changes. */
  ghost predicate Placed(s: Store, o: Order, slots': seq<Order>, free': seq<nat>, x: nat) {
    if s.free == [] then
      x == |s.slots| && slots' == s.slots + [o] && free' == []
    else
      && x == s.free[|s.free| - 1] && x < |s.slots|
      && slots' == s.slots[x := o] && free' == s.free[..|s.free| - 1]
  }

  lemma PlacedFrame(s: Store, o: Order, slots': seq<Order>, free': seq<nat>, x: nat)
    requires FreeOk(s.slots, s.free) && Placed(s, o, slots', free', x)
    ensures FreeOk(slots', free') && x < |slots'| && slots'[x] == o && x !in free'
    ensures |s.slots| <= |slots'| <= |s.slots| + 1
    ensures forall y :: 0 <= y < |s.slots| && y != x ==> slots'[y] == s.slots[y] && (y in s.free <==> y in free')
    ensures x < |s.slots| ==> x in s.free && s.slots[x].remaining == 0
    ensures |s.slots| < |slots'| ==> x == |s.slots|
    ensures forall y :: y in free' ==> y in s.free
  {
    if s.free != [] {
      var n := |s.free| - 1;
      assert s.free == s.free[..n] + [s.free[n]];
      assert s.slots[s.free[n]].remaining == 0;
    }
  }

  /** The user counter after one of the user's orders came to rest. */
  function Remember(users: map<User, nat>, user: User): map<User, nat> {
    if user == 0 then users else users[user := if user in users then users[user] + 1 else 1]
  }

  ghost function Inserted(s: Store, o: Order, slots': seq<Order>, free': seq<nat>, x: nat): Store {
    var m := SideLevels(s, o.side);
    var m' := m[o.price := Appended(m, o.price, x, o.remaining)];
    var s' := s.(slots := slots', free := free', locate := s.locate[o.id := x],
                 users := Remember(s.users, o.user));
    if o.side.Buy? then s'.(bids := m') else s'.(asks := m')
  }

  lemma InsertedOtherLevel(s: Store, o: Order, slots': seq<Order>, free': seq<nat>, x: nat,
                           side: Side, p: Price, lv: Level)
    requires FreeOk(s.slots, s.free) && Placed(s, o, slots', free', x)
    requires LevelOk(s.slots, s.free, side, p, lv)
    ensures LevelOk(slots', free', side, p, lv) && x !in lv.orders
    ensures Live(slots', lv.orders) == Live(s.slots, lv.orders)
  {
    hide Live, Total;
    PlacedFrame(s, o, slots', free', x);
    assert forall i :: 0 <= i < |lv.orders| ==> lv.orders[i] != x;
    LiveFrame(s.slots, slots', lv.orders);
  }

  lemma AppendedLevel(slots: seq<Order>, free: seq<nat>, lv: Level, x: nat)
    requires x < |slots| && x !in free && x !in lv.orders && slots[x].remaining > 0
    requires LevelOk(slots, free, slots[x].side, slots[x].price, lv)
    ensures LevelOk(slots, free, slots[x].side, slots[x].price,
                    Level(lv.orders + [x], lv.qty + slots[x].remaining, lv.live + 1))
    ensures Live(slots, lv.orders + [x]) == Live(slots, lv.orders) + [slots[x]]
  {
    hide Live, Total;
    LiveOne(slots, x);
    LiveConcat(slots, lv.orders, [x]);
    TotalConcat(Live(slots, lv.orders), [slots[x]]);
  }

  lemma LiveOne(slots: seq<Order>, x: nat)
    requires x < |slots| && slots[x].remaining > 0
    ensures InPool(slots, [x]) && Live(slots, [x]) == [slots[x]] && Total([slots[x]]) == slots[x].remaining
  {
    assert Live(slots, [x]) == [slots[x]] + Live(slots, []);
  }

  lemma InsertedLevels(s: Store, o: Order, slots': seq<Order>, free': seq<nat>, x: nat, side: Side, p: Price)
    requires Core(s) && o.remaining > 0 && Placed(s, o, slots', free', x)
    requires var s' := Inserted(s, o, slots', free', x); p in SideLevels(s', side)
    ensures var s' := Inserted(s, o, slots', free', x);
            var lv := SideLevels(s', side)[p];
            && LevelOk(slots', free', side, p, lv)
            && Live(slots', lv.orders) ==
                 QueueOf(s, side, p) + if side == o.side && p == o.price then [o] else []
  {
    hide Homed, UsersOk, LocateOk, Live, Total, LevelOk, Placed, FreeOk;
    var m := SideLevels(s, side);
    PlacedFrame(s, o, slots', free', x);
    if p in m {
      InsertedOtherLevel(s, o, slots', free', x, side, p, m[p]);
    }
    if side == o.side && p == o.price {
      var lv := if p in m then m[p] else Level([], 0, 0);
      if p !in m {
        EmptyLevel(slots', free', side, p);
      }
      AppendedLevel(slots', free', lv, x);
    }
  }

  lemma EmptyLevel(slots: seq<Order>, free: seq<nat>, side: Side, p: Price)
    ensures LevelOk(slots, free, side, p, Level([], 0, 0)) && Live(slots, []) == []
  {}

  lemma InsertedHomed(s: Store, o: Order, slots': seq<Order>, free': seq<nat>, x: nat)
    requires Core(s) && Placed(s, o, slots', free', x)
    ensures Homed(Inserted(s, o, slots', free', x))
  {
    hide LevelsOk, UsersOk, LocateOk, Live, Total, LevelOk, Placed, FreeOk;
    PlacedFrame(s, o, slots', free', x);
    var s' := Inserted(s, o, slots', free', x);
    forall y | 0 <= y < |s'.slots| && y !in s'.free
      ensures var m := SideLevels(s', s'.slots[y].side);
              s'.slots[y].price in m && y in m[s'.slots[y].price].orders
    {
      if y != x {
        assert s'.slots[y] == s.slots[y];
      }
    }
  }

  lemma InsertedLocate(slots: seq<Order>, slots': seq<Order>, locate: map<OrderId, nat>, o: Order, x: nat)
    requires LocateOk(slots, locate) && o.id !in locate && o.remaining > 0
    requires x < |slots'| && slots'[x] == o && |slots| <= |slots'| <= |slots| + 1
    requires forall y :: 0 <= y < |slots| && y != x ==> slots'[y] == slots[y]
    requires x < |slots| ==> slots[x].remaining == 0
    requires |slots| < |slots'| ==> x == |slots|
    ensures LocateOk(slots', locate[o.id := x])
  {}

  lemma IdsWith(slots: seq<Order>, slots': seq<Order>, locate: map<OrderId, nat>, o: Order, x: nat, u: User)
    requires o.id !in locate && x < |slots'| && slots'[x] == o
    requires forall id :: id in locate ==> locate[id] < |slots| <= |slots'| && slots'[locate[id]] == slots[locate[id]]
    ensures IdsOf(slots', locate[o.id := x], u) ==
              if u == o.user then IdsOf(slots, locate, u) + {o.id} else IdsOf(slots, locate, u)
    ensures o.id !in IdsOf(slots, locate, u)
  {}

  lemma RememberUser(slots: seq<Order>, slots': seq<Order>, locate: map<OrderId, nat>, users: map<User, nat>,
                     o: Order, x: nat)
    requires UsersOk(slots, locate, users) && o.id !in locate && x < |slots'| && slots'[x] == o
    requires forall id :: id in locate ==> locate[id] < |slots| <= |slots'| && slots'[locate[id]] == slots[locate[id]]
    ensures UsersOk(slots', locate[o.id := x], Remember(users, o.user))
  {
    hide IdsOf;
    forall u: User
      ensures var users' := Remember(users, o.user);
              if u in users' then u != 0 && users'[u] > 0 && users'[u] == |IdsOf(slots', locate[o.id := x], u)|
              else u != 0 ==> IdsOf(slots', locate[o.id := x], u) == {}
    {
      IdsWith(slots, slots', locate, o, x, u);
    }
  }

  lemma LocatedUnchanged(slots: seq<Order>, slots': seq<Order>, locate: map<OrderId, nat>, x: nat)
    requires LocateOk(slots, locate) && |slots| <= |slots'|
    requires forall y :: 0 <= y < |slots| && y != x ==> slots'[y] == slots[y]
    requires x < |slots| ==> slots[x].remaining == 0
    ensures forall id :: id in locate ==> locate[id] < |slots| && slots'[locate[id]] == slots[locate[id]]
  {}

  lemma InsertedCore(s: Store, o: Order, slots': seq<Order>, free': seq<nat>, x: nat)
    requires Core(s) && o.remaining > 0 && o.id !in s.locate && Placed(s, o, slots', free', x)
    ensures Core(Inserted(s, o, slots', free', x))
  {
    hide Homed, UsersOk, LocateOk, Live, Total, LevelOk, Placed, FreeOk;
    PlacedFrame(s, o, slots', free', x);
    InsertedHomed(s, o, slots', free', x);
    InsertedLocate(s.slots, slots', s.locate, o, x);
    LocatedUnchanged(s.slots, slots', s.locate, x);
    RememberUser(s.slots, slots', s.locate, s.users, o, x);
    var s' := Inserted(s, o, slots', free', x);
    forall side, p | p in SideLevels(s', side) ensures LevelOk(slots', free', side, p, SideLevels(s', side)[p]) {
      InsertedLevels(s, o, slots', free', x, side, p);
    }
    assert SideLevels(s', Buy) == s'.bids && SideLevels(s', Sell) == s'.asks;
  }

  /** The order joins the back of one queue; every other queue stays. */
  lemma InsertedQueues(s: Store, o: Order, slots': seq<Order>, free': seq<nat>, x: nat, side: Side, p: Price)
    requires Core(s) && o.remaining > 0 && o.id !in s.locate && Placed(s, o, slots', free', x)
    ensures Core(Inserted(s, o, slots', free', x))
    ensures QueueOf(Inserted(s, o, slots', free', x), side, p) ==
              QueueOf(s, side, p) + if side == o.side && p == o.price then [o] else []
  {
    hide Core, Live, Placed;
    InsertedCore(s, o, slots', free', x);
    if p in SideLevels(Inserted(s, o, slots', free', x), side) {
      InsertedLevels(s, o, slots', free', x, side, p);
    }
  }

  // --- step 3: one level is maintained -----------------------------------------------------

  ghost function Swept(s: Store, side: Side, p: Price, kept: seq<nat>, removed: seq<nat>): Store
    requires p in SideLevels(s, side)
  {
    var m' := Maintained(SideLevels(s, side), p, kept);
    var s' := s.(free := s.free + removed);
    if side.Buy? then s'.(bids := m') else s'.(asks := m')
  }

  lemma SweptFree(s: Store, side: Side, p: Price, kept: seq<nat>, removed: seq<nat>)
    requires FreeOk(s.slots, s.free) && p in SideLevels(s, side)
    requires LevelOk(s.slots, s.free, side, p, SideLevels(s, side)[p])
    requires Reclaims(s.slots, SideLevels(s, side)[p].orders, kept, removed)
    ensures FreeOk(s.slots, s.free + removed)
  {
    hide Live, Total;
    var queue := SideLevels(s, side)[p].orders;
    forall i, j | 0 <= i < |s.free| && 0 <= j < |removed| ensures s.free[i] != removed[j] {
      assert removed[j] in queue;
      var k :| 0 <= k < |queue| && queue[k] == removed[j];
    }
    forall j | 0 <= j < |removed| ensures s.slots[removed[j]].remaining == 0 {
      assert removed[j] in removed;
    }
  }

  lemma SweptLevel(slots: seq<Order>, free: seq<nat>, side: Side, p: Price, lv: Level,
                   kept: seq<nat>, removed: seq<nat>)
    requires LevelOk(slots, free, side, p, lv) && Reclaims(slots, lv.orders, kept, removed)
    ensures LevelOk(slots, free + removed, side, p, lv.(orders := kept))
  {
    hide Live, Total;
    forall i | 0 <= i < |kept|
      ensures kept[i] !in free + removed && slots[kept[i]].side == side && slots[kept[i]].price == p
    {
      assert kept[i] in kept;
      assert kept[i] in lv.orders;
      var k :| 0 <= k < |lv.orders| && lv.orders[k] == kept[i];
    }
  }

  lemma SweptOtherLevel(slots: seq<Order>, free: seq<nat>, side: Side, p: Price, lv: Level,
                        side': Side, p': Price, lv': Level, kept: seq<nat>, removed: seq<nat>)
    requires LevelOk(slots, free, side, p, lv) && Reclaims(slots, lv.orders, kept, removed)
    requires LevelOk(slots, free, side', p', lv') && (side != side' || p != p')
    ensures LevelOk(slots, free + removed, side', p', lv')
  {
    hide Live, Total;
    forall i | 0 <= i < |lv'.orders| ensures lv'.orders[i] !in removed {
      assert forall k :: 0 <= k < |lv.orders| ==> lv.orders[k] != lv'.orders[i];
    }
  }

  lemma SweptHomed(s: Store, side: Side, p: Price, kept: seq<nat>, removed: seq<nat>)
    requires Core(s) && p in SideLevels(s, side)
    requires Reclaims(s.slots, SideLevels(s, side)[p].orders, kept, removed)
    requires SideLevels(s, side)[p].live == 0 ==> kept == []
    ensures Homed(Swept(s, side, p, kept, removed))
  {
    hide LevelsOk, UsersOk, LocateOk, Live, Total, LevelOk, FreeOk;
    var s' := Swept(s, side, p, kept, removed);
    forall y | 0 <= y < |s'.slots| && y !in s'.free
      ensures var m := SideLevels(s', s'.slots[y].side);
              s'.slots[y].price in m && y in m[s'.slots[y].price].orders
    {
      assert y !in s.free && y !in removed;
    }
  }

  lemma SweptCore(s: Store, side: Side, p: Price, kept: seq<nat>, removed: seq<nat>)
    requires Core(s) && p in SideLevels(s, side)
    requires Reclaims(s.slots, SideLevels(s, side)[p].orders, kept, removed)
    requires SideLevels(s, side)[p].live == 0 ==> kept == []
    ensures Core(Swept(s, side, p, kept, removed))
  {
    hide Homed, UsersOk, LocateOk, Live, Total, LevelOk, FreeOk, Reclaims;
    SweptFree(s, side, p, kept, removed);
    SweptHomed(s, side, p, kept, removed);
    var s', lv := Swept(s, side, p, kept, removed), SideLevels(s, side)[p];
    forall side', p' | p' in SideLevels(s', side')
      ensures LevelOk(s'.slots, s'.free, side', p', SideLevels(s', side')[p'])
    {
      if side' == side && p' == p {
        SweptLevel(s.slots, s.free, side, p, lv, kept, removed);
      } else {
        SweptOtherLevel(s.slots, s.free, side, p, lv, side', p', SideLevels(s, side')[p'], kept, removed);
      }
    }
    assert SideLevels(s', Buy) == s'.bids && SideLevels(s', Sell) == s'.asks;
  }

  /** Maintenance changes no queue. */
  lemma SweptQueues(s: Store, side: Side, p: Price, kept: seq<nat>, removed: seq<nat>, side': Side, p': Price)
    requires Core(s) && p in SideLevels(s, side)
    requires Reclaims(s.slots, SideLevels(s, side)[p].orders, kept, removed)
    requires SideLevels(s, side)[p].live == 0 ==> kept == []
    ensures Core(Swept(s, side, p, kept, removed))
    ensures QueueOf(Swept(s, side, p, kept, removed), side', p') == QueueOf(s, side', p')
  {
    hide Homed, UsersOk, LocateOk, Live, Total, FreeOk;
    SweptCore(s, side, p, kept, removed);
  }
}
