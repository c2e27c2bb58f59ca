/** The book on a slab and two level indexes. `Shows()` is the plain book it stands for. */
module OrderBooks {
  import opened Types
  import opened Books
  import opened Pools
  import opened LevelIndexes
  import opened Stores
  import opened StoreViews

  class OrderBook {
    const pool: OrderPool
    const bids: LevelIndex
    const asks: LevelIndex
    var locate: map<OrderId, nat>
    var userCounts: map<User, nat>

    ghost function Repr(): set<object> {
      {this, pool, bids, bids.l0, asks, asks.l0}
    }

    ghost function Snapshot(): Store
      reads this, pool, bids, asks
    {
      Store(pool.slots, pool.free, bids.contents, asks.contents, locate, userCounts)
    }

    ghost predicate Indexed()
      reads this, pool, bids, bids.l0, asks, asks.l0
    {
      bids != asks && bids.l0 != asks.l0 && bids.Valid() && asks.Valid()
    }

    ghost predicate Valid()
      reads this, pool, bids, bids.l0, asks, asks.l0
    {
      Indexed() && Inv(Snapshot())
    }

    /** The plain book this structure stands for. */
    ghost function Shows(): Book
      requires Core(Snapshot())
      reads this, pool, bids, bids.l0, asks, asks.l0
    {
      View(Snapshot())
    }

    constructor ()
      ensures Valid() && Shows() == Book(map[], map[])
      ensures fresh(Repr())
    {
      hide Inv, Core, View, LevelIndex.Valid;
      pool := new OrderPool();
      bids := new LevelIndex();
      asks := new LevelIndex();
      locate := map[];
      userCounts := map[];
      new;
      EmptyStore();
    }

    /** The level map of one side. */
    ghost function Contents(side: Side): map<Price, Level>
      reads bids, asks
    {
      if side.Buy? then bids.contents else asks.contents
    }

    method PushLevel(side: Side, price: Price, slot: nat, remaining: Qty)
      requires Indexed() && remaining > 0
      requires price in Contents(side) ==> Contents(side)[price].live > 0
      requires Fits(Appended(Contents(side), price, slot, remaining))
      modifies bids, bids.l0, asks, asks.l0
      ensures Indexed() && Contents(side.Opposite()) == old(Contents(side.Opposite()))
      ensures Contents(side) == old(Contents(side))[price := Appended(old(Contents(side)), price, slot, remaining)]
    {
      hide LevelIndex.Valid, Fits, Appended;
      match side
      case Buy => bids.Push(price, slot, remaining);
      case Sell => asks.Push(price, slot, remaining);
    }

    /** Write through a borrowed level of one side. */
    method UpdateLevel(side: Side, price: Price, lv: Level)
      requires Indexed() && price in Contents(side)
      modifies bids, bids.l0, asks, asks.l0
      ensures Indexed() && Contents(side.Opposite()) == old(Contents(side.Opposite()))
      ensures Contents(side) == old(Contents(side))[price := lv]
    {
      hide LevelIndex.Valid;
      match side
      case Buy => bids.Update(price, lv);
      case Sell => asks.Update(price, lv);
    }

    method CountUp(user: User)
      requires user in userCounts ==> userCounts[user] < 0xFFFF_FFFF
      modifies this`userCounts
      ensures userCounts == Remember(old(userCounts), user)
    {
      if user != 0 {
        userCounts := userCounts[user := if user in userCounts then userCounts[user] + 1 else 1];
      }
    }

    method CountDown(user: User)
      requires user != 0 ==> user in userCounts && userCounts[user] > 0
      modifies this`userCounts
      ensures userCounts == Forget(old(userCounts), user)
    {
      if user != 0 {
        var n := userCounts[user] - 1;
        userCounts := if n == 0 then userCounts - {user} else userCounts[user := n];
      }
    }

    /** Join the back of a queue, unless the id already rests or nothing is left to rest. */
    method TryInsert(o: Order) returns (ok: bool)
      requires Valid() && (o.remaining > 0 && !HasId(Shows(), o.id) ==> RoomFor(Shows(), o))
      modifies this, pool, bids, bids.l0, asks, asks.l0
      ensures Valid()
      ensures ok <==> o.remaining > 0 && !HasId(old(Shows()), o.id)
      ensures !ok ==> Snapshot() == old(Snapshot())
      ensures ok ==> Shows() == Joined(old(Shows()), o)
    {
      hide Core, View, Placed, Inv, WithQueue, Queue, Total, RoomFor, HasId, FreeOk, InPool, LevelIndex.Valid, Fits,
        Appended;
      ghost var s := Snapshot();
      InvCore(s);
      ViewIds(s);
      if o.remaining == 0 || o.id in locate {
        return false;
      }
      InsertFits(s, o);
      var slot := pool.Alloc(o);
      assert Placed(s, o, pool.slots, pool.free, slot) by { PlacedByAlloc(s, o, pool.slots, pool.free, slot); }
      InsertedInv(s, o, pool.slots, pool.free, slot);
      ViewInserted(s, o, pool.slots, pool.free, slot);
      locate := locate[o.id := slot];
      PushLevel(o.side, o.price, slot, o.remaining);
      CountUp(o.user);
      assert Snapshot() == Inserted(s, o, pool.slots, pool.free, slot);
      return true;
    }

    /** The level at `price`, when something lives there (`get`). */
    method LevelAtPrice(side: Side, price: Price) returns (r: Option<Level>)
      requires Indexed()
      ensures r.Some? <==> price in Contents(side) && Contents(side)[price].live > 0
      ensures r.Some? ==> r.value == Contents(side)[price]
    {
      hide LevelIndex.Valid;
      match side
      case Buy => r := bids.Get(price);
      case Sell => r := asks.Get(price);
    }

    /** Reclaim tombstones of one level; invisible from outside. */
    method Maintain(side: Side, price: Price)
      requires Indexed() && Core(Snapshot()) && TidyExcept(Snapshot(), side, price)
      modifies pool`free, bids, bids.l0, asks, asks.l0
      ensures Valid() && Shows() == old(Shows())
    {
      hide Core, LevelIndex.Valid, Reclaims, Tidy, TidyExcept, Maintained, Inv, View, Counted;
      ghost var s := Snapshot();
      ghost var kept, removed;
      LevelCounted(s, side, price);
      match side {
        case Buy => kept, removed := bids.MaintainLevel(price, pool);
        case Sell => kept, removed := asks.MaintainLevel(price, pool);
      }
      if price in SideLevels(s, side) {
        SweptInv(s, side, price, kept, removed);
        ViewSwept(s, side, price, kept, removed);
        assert Snapshot() == Swept(s, side, price, kept, removed);
      } else {
        assert Snapshot() == s;
        AbsentInv(s, side, price);
      }
    }

    /** Look an id up in the index. */
    method Find(id: OrderId) returns (r: Option<Order>)
      requires Valid()
      ensures r.Some? ==> r.value.id == id && Rests(Shows(), r.value)
      ensures r.None? ==> !HasId(Shows(), id)
    {
      hide Core, View, Inv;
      InvCore(Snapshot());
      ViewIds(Snapshot());
      if id !in locate {
        return None;
      }
      LocateAt(Snapshot(), id);
      ViewRests(Snapshot(), pool.slots[locate[id]]);
      return Some(pool.slots[locate[id]]);
    }

    /**
     Bring a live order down to `r` lots: its slot, its level's aggregates and, at zero, the
     id index and the user counter. The level is left for `Maintain`.
     */
    method BringDown(id: OrderId, r: Qty)
      requires Indexed() && Core(Snapshot())
      requires id in locate && r <= pool.slots[locate[id]].remaining
      modifies this, pool`slots, bids, bids.l0, asks, asks.l0
      ensures Indexed() && Snapshot() == Shrunk(old(Snapshot()), id, r)
    {
      hide Core, LevelIndex.Valid, LevelOk;
      ghost var s := Snapshot();
      var slot := locate[id];
      LocateAt(s, id);
      var o := pool.slots[slot];
      ShrunkFits(s, id, r);
      var found := LevelAtPrice(o.side, o.price);
      var lv := found.value;
      pool.slots := pool.slots[slot := o.(remaining := r)];
      UpdateLevel(o.side, o.price, Level(lv.orders, lv.qty - (o.remaining - r), lv.live - if r == 0 then 1 else 0));
      if r == 0 {
        locate := locate - {id};
        CountDown(o.user);
      }
      assert Contents(Buy) == bids.contents && Contents(Sell) == asks.contents;
    }

    /** Bring the order down to nothing; its slot stays as a tombstone until the level is maintained. */
    method Cancel(id: OrderId) returns (r: Option<Order>)
      requires Valid()
      modifies this, pool, bids, bids.l0, asks, asks.l0
      ensures Valid()
      ensures r.None? ==> !HasId(old(Shows()), id) && Shows() == old(Shows())
      ensures r.Some? ==>
        && r.value.id == id && Rests(old(Shows()), r.value)
        && Shows() == Removed(old(Shows()), r.value)
    {
      hide Core, View, Inv, Shrunk, TidyExcept, Tidy, LevelIndex.Valid, SetRemaining, WithQueue, Queue;
      r := Find(id);
      if r.Some? {
        ghost var s := Snapshot();
        FoundAt(s, r.value);
        InvTidyExcept(s, r.value.side, r.value.price);
        BringDown(id, 0);
        ShrunkCore(s, id, 0);
        ShrunkTidyExcept(s, id, 0);
        ViewShrunk(s, id, 0);
        Maintain(r.value.side, r.value.price);
      }
    }

    /** Lower what an order has left where it stands; nothing left is a cancel. */
    method Reduce(id: OrderId, newRemaining: Qty) returns (ok: bool)
      requires Valid()
      modifies this, pool, bids, bids.l0, asks, asks.l0
      ensures Valid()
      ensures ok <==> exists o :: Rests(old(Shows()), o) && o.id == id && newRemaining <= o.remaining
      ensures !ok ==> Shows() == old(Shows())
      ensures forall o :: Rests(old(Shows()), o) && o.id == id && newRemaining <= o.remaining ==>
                Shows() == Reduced(old(Shows()), o, newRemaining)
    {
      hide Core, View, Inv, Shrunk, TidyExcept, Tidy, LevelIndex.Valid, SetRemaining, WithQueue, Queue, Rests;
      ghost var s := Snapshot();
      InvCore(s);
      ViewIds(s);
      var found := Find(id);
      if found.None? {
        return false;
      }
      FoundAt(s, found.value);
      if newRemaining == 0 {
        var gone := Cancel(id);
        return gone.Some?;
      }
      if newRemaining > found.value.remaining {
        return false;
      }
      BringDown(id, newRemaining);
      ReducedInv(s, id, newRemaining);
      ViewShrunk(s, id, newRemaining);
      return true;
    }

    /** Take a list of fills out of one queue, one after the other. */
    method ApplyFills(side: Side, price: Price, fills: seq<Fill>)
      requires Valid() && FillsFit(Queue(Shows(), side, price), fills)
      modifies this, pool, bids, bids.l0, asks, asks.l0
      ensures Valid()
      ensures Shows() == WithQueue(old(Shows()), side, price, FilledAll(Queue(old(Shows()), side, price), fills))
    {
      hide Core, View, Inv, Shrunk, TidyExcept, LevelIndex.Valid, WithQueue, Queue, FilledAll, FillsFit, NoEmptyLevel;
      FillsStart(Snapshot(), side, price, fills);
      ghost var b := Shows();
      ghost var q := Queue(b, side, price);
      var i := 0;
      while i < |fills|
        invariant 0 <= i <= |fills|
        invariant Indexed() && Core(Snapshot()) && TidyExcept(Snapshot(), side, price)
        invariant Shows() == WithQueue(b, side, price, q) && Queue(Shows(), side, price) == q
        invariant FillsFit(q, fills[i..])
        invariant FilledAll(q, fills[i..]) == FilledAll(Queue(b, side, price), fills)
      {
        ghost var s := Snapshot();
        var f := fills[i];
        FillStep(s, side, price, b, q, fills, i);
        BringDown(f.id, pool.slots[locate[f.id]].remaining - f.qty);
        q := Filled(q, f);
        i := i + 1;
      }
      FillsEnd(q, fills);
      Maintain(side, price);
    }

    /** Copy a level for a strategy, reclaiming tombstones first; stop once `cap` lots are covered. */
    method LevelViewCapped(side: Side, price: Price, cap: Qty) returns (out: seq<RestingOrder>)
      requires Valid() && Total(Queue(Shows(), side, price)) <= U64_MAX
      modifies pool`free, bids, bids.l0, asks, asks.l0
      ensures Valid() && Shows() == old(Shows())
      ensures out == SeenAll(Capped(Queue(Shows(), side, price), cap))
    {
      hide Core, View, Inv, LevelIndex.Valid, Queue, Live, Capped, SeenAll, Total, TidyExcept;
      InvTidyExcept(Snapshot(), side, price);
      InvCore(Snapshot());
      Maintain(side, price);
      var found := LevelAtPrice(side, price);
      LevelShown(Snapshot(), side, price);
      out := [];
      if found.Some? {
        out := CopyFront(found.value.orders, cap);
      } else {
        CappedNothing(cap);
      }
    }

    /** The copying loop of `LevelViewCapped`: live orders of a queue until `cap` lots are covered. */
    method CopyFront(orders: seq<nat>, cap: Qty) returns (out: seq<RestingOrder>)
      requires InPool(pool.slots, orders) && Total(Live(pool.slots, orders)) <= U64_MAX
      ensures out == SeenAll(Capped(Live(pool.slots, orders), cap))
    {
      hide Live, Capped, SeenAll, Total;
      out := [];
      ghost var q, copied := Live(pool.slots, orders), [];
      assert orders[0..] == orders;
      CappedNothing(cap);
      var covered, i := 0, 0;
      while i < |orders|
        invariant 0 <= i <= |orders|
        invariant covered == Total(copied) && out == SeenAll(copied)
        invariant q == copied + Live(pool.slots, orders[i..])
        invariant Capped(q, cap) == copied + Capped(Live(pool.slots, orders[i..]), cap - covered)
      {
        var o := pool.slots[orders[i]];
        LiveFront(pool.slots, orders, i);
        if o.remaining > 0 {
          CopyStep(q, copied, o, Live(pool.slots, orders[i + 1..]), cap);
          out := out + [Seen(o)];
          covered := covered + o.remaining;
          copied := copied + [o];
          if covered >= cap {
            return;
          }
        }
        i := i + 1;
      }
      CopyEnd(pool.slots, orders, q, copied, cap);
    }

    /** `Best` of the plain book, from the index of the side. */
    method BestPrice(side: Side) returns (r: Option<Price>)
      requires Valid()
      ensures r == Best(Shows(), side)
    {
      hide Core, View, Inv, LevelIndex.Valid, Best;
      ShownLevels(Snapshot(), side);
      match side
      case Buy =>
        r := bids.MaxPrice();
        BestEither(Shows(), side, bids.contents, r);
      case Sell =>
        r := asks.MinPrice();
        BestEither(Shows(), side, asks.contents, r);
    }

    /** Occupied prices of one side in the order of their priority. */
    method Ladder(side: Side) returns (ps: seq<Price>)
      requires Valid()
      ensures BestFirst(side, ps) && forall p :: p in ps <==> p in Levels(Shows(), side)
    {
      hide Core, View, Inv, LevelIndex.Valid;
      ShownLevels(Snapshot(), side);
      match side
      case Buy => ps := bids.PricesDescending();
      case Sell => ps := asks.PricesAscending();
    }

    /** `CrossableLots` of the plain book, from the level aggregates. */
    method CrossableQty(aggressor: Side, limit: Price) returns (sum: Qty)
      requires Valid() && CrossableLots(Shows(), aggressor.Opposite(), limit) <= U64_MAX
      ensures sum == CrossableLots(Shows(), aggressor.Opposite(), limit)
    {
      hide Core, View, Inv, LevelIndex.Valid, Best, CrossableLots, Remaining, BestFirst, Total, Queue, Without, Better;
      var maker := aggressor.Opposite();
      var ps := Ladder(maker);
      InvCore(Snapshot());
      ghost var rest := Shows();
      WalkStart(Shows(), maker, ps);
      sum := 0;
      var i := 0;
      while i < |ps|
        invariant 0 <= i <= |ps| && Remaining(Shows(), rest, maker, ps, i)
        invariant sum + CrossableLots(rest, maker, limit) == CrossableLots(Shows(), maker, limit)
      {
        WalkStep(Shows(), rest, maker, ps, i);
        CrossableStep(rest, maker, limit);
        if Better(maker, limit, ps[i]) {
          return;
        }
        var qty := LevelQty(maker, ps[i]);
        sum := sum + qty;
        rest := Without(rest, maker, ps[i]);
        i := i + 1;
      }
      WalkEnd(Shows(), rest, maker, ps);
      CrossableStep(rest, maker, limit);
    }

    /** The aggregate quantity of an occupied level. */
    method LevelQty(side: Side, price: Price) returns (qty: nat)
      requires Valid() && price in Levels(Shows(), side)
      ensures qty == Total(Queue(Shows(), side, price))
    {
      hide Core, View, Inv, LevelIndex.Valid, Queue, Total;
      ShownLevels(Snapshot(), side);
      LevelTotal(Snapshot(), side, price);
      var found := LevelAtPrice(side, price);
      return found.value.qty;
    }

    /** Lots fillable and their total cost, best price first: the FOK_BUDGET precheck. */
    method CostToFill(aggressor: Side, qty: Qty) returns (fillable: Qty, cost: nat)
      requires Valid()
      ensures fillable == qty - SweepCost(Shows(), aggressor.Opposite(), qty).0
      ensures cost == SweepCost(Shows(), aggressor.Opposite(), qty).1
    {
      hide Core, View, Inv, LevelIndex.Valid, Best, SweepCost, Remaining, BestFirst, Total, Queue, Without, Notional;
      var maker := aggressor.Opposite();
      var ps := Ladder(maker);
      InvCore(Snapshot());
      ghost var rest := Shows();
      WalkStart(Shows(), maker, ps);
      var left: nat := qty;
      cost := 0;
      var i := 0;
      while i < |ps|
        invariant 0 <= i <= |ps| && Remaining(Shows(), rest, maker, ps, i)
        invariant left <= qty
        invariant SweepCost(rest, maker, left).0 == SweepCost(Shows(), maker, qty).0
        invariant cost + SweepCost(rest, maker, left).1 == SweepCost(Shows(), maker, qty).1
      {
        WalkStep(Shows(), rest, maker, ps, i);
        SweepStep(rest, maker, left);
        NotionalZero(ps[i]);
        var total := LevelQty(maker, ps[i]);
        var take := if left <= total then left else total;
        cost := cost + Notional(ps[i], take);
        left := left - take;
        rest := Without(rest, maker, ps[i]);
        i := i + 1;
        if left == 0 {
          SweepStep(rest, maker, left);
          return qty, cost;
        }
      }
      WalkEnd(Shows(), rest, maker, ps);
      SweepStep(rest, maker, left);
      fillable := qty - left;
    }

    /** `Rests` as a list; its order is left open. */
    method IterOrders() returns (out: seq<Order>)
      requires Valid()
      ensures forall o :: o in out <==> Rests(Shows(), o)
      ensures forall i, j :: 0 <= i < j < |out| ==> out[i].id != out[j].id
    {
      hide Core, View, Inv, Rests;
      out := [];
      var ids := locate.Keys;
      InvCore(Snapshot());
      forall o | Rests(Shows(), o) ensures o.id in locate {
        ViewRests(Snapshot(), o);
      }
      while ids != {}
        invariant ids <= locate.Keys
        invariant forall o :: o in out <==> o.id !in ids && Rests(Shows(), o)
        invariant forall i, j :: 0 <= i < j < |out| ==> out[i].id != out[j].id
        decreases |ids|
      {
        var id :| id in ids;
        LocateAt(Snapshot(), id);
        var o := pool.slots[locate[id]];
        forall o' ensures Rests(Shows(), o') && o'.id == id ==> o' == o {
          ViewRests(Snapshot(), o');
        }
        ViewRests(Snapshot(), o);
        out, ids := out + [o], ids - {id};
      }
    }

    /** The ids of one user's resting orders, in no particular order. */
    method OrdersOfUser(user: User) returns (out: seq<OrderId>)
      requires Valid()
      ensures forall id :: id in out <==> id in IdsOfUser(Shows(), user)
      ensures forall i, j :: 0 <= i < j < |out| ==> out[i] != out[j]
    {
      hide Core, View, Inv, IdsOfUser;
      out := [];
      var ids := locate.Keys;
      InvCore(Snapshot());
      forall id ensures id in IdsOfUser(Shows(), user) <==> id in locate && OwnerIs(Snapshot(), id, user) {
        IdOfUser(Snapshot(), id, user);
      }
      while ids != {}
        invariant ids <= locate.Keys
        invariant forall id :: id in out <==> id !in ids && id in IdsOfUser(Shows(), user)
        invariant forall i, j :: 0 <= i < j < |out| ==> out[i] != out[j]
        decreases |ids|
      {
        var id :| id in ids;
        LocateAt(Snapshot(), id);
        if pool.slots[locate[id]].user == user {
          out := out + [id];
        }
        ids := ids - {id};
      }
    }

    /** The counter of a user; user 0 has none. */
    method UserOpenOrders(user: User) returns (n: nat)
      requires Valid()
      ensures n == if user == 0 then 0 else |IdsOfUser(Shows(), user)|
    {
      hide FreeOk, Homed, LocateOk, View, LevelsOk, AllTidy, LevelIndex.Valid, IdsOf;
      ViewUsers(Snapshot(), user);
      n := if user in userCounts then userCounts[user] else 0;
    }
  }

  ghost predicate OwnerIs(s: Store, id: OrderId, user: User) {
    id in s.locate && s.locate[id] < |s.slots| && s.slots[s.locate[id]].user == user
  }

  lemma IdOfUser(s: Store, id: OrderId, user: User)
    requires Core(s)
    ensures id in IdsOfUser(View(s), user) <==> OwnerIs(s, id, user)
  {
    hide Core, View, Resting;
    ViewGood(s);
    if id in s.locate {
      LocateAt(s, id);
      ViewRests(s, s.slots[s.locate[id]]);
      RestingAre(View(s), s.slots[s.locate[id]]);
    }
    if o :| o in Resting(View(s)) && o.user == user && o.id == id {
      RestingAre(View(s), o);
      ViewRests(s, o);
    }
  }

  lemma InvCore(s: Store)
    requires Inv(s)
    ensures Core(s) && FreeOk(s.slots, s.free) && InPool(s.slots, s.free)
  {}

  /** Room in the view is room in the level and in the user counter. */
  lemma InsertFits(s: Store, o: Order)
    requires Inv(s) && RoomFor(View(s), o)
    ensures var m := SideLevels(s, o.side);
            && (o.price in m ==> m[o.price].live > 0)
            && (forall x :: Fits(Appended(m, o.price, x, o.remaining)))
    ensures o.user in s.users ==> s.users[o.user] < 0xFFFF_FFFF
  {
    hide FreeOk, Live, Total, Homed, LocateOk, View, IdsOf;
    ViewQueue(s, o.side, o.price);
    ViewUsers(s, o.user);
    if o.price in SideLevels(s, o.side) {
      LevelAt(s, o.side, o.price);
    }
  }

  lemma PlacedByAlloc(s: Store, o: Order, slots': seq<Order>, free': seq<nat>, x: nat)
    requires FreeOk(s.slots, s.free) && x < |slots'|
    requires s.free != [] ==>
      free' == s.free[..|s.free| - 1] && x == s.free[|s.free| - 1] && slots' == s.slots[x := o]
    requires s.free == [] ==> free' == [] && x == |s.slots| && slots' == s.slots + [o]
    ensures Placed(s, o, slots', free', x)
  {}

  lemma EmptyStore()
    ensures var s := Store([], [], map[], map[], map[], map[]);
            Inv(s) && View(s) == Book(map[], map[])
  {}

  lemma LevelCounted(s: Store, side: Side, p: Price)
    requires Core(s)
    ensures p in SideLevels(s, side) ==> Counted(s.slots, SideLevels(s, side)[p])
  {
    hide Homed, FreeOk, LocateOk, UsersOk, Live;
    if p in SideLevels(s, side) {
      LevelAt(s, side, p);
    }
  }

  lemma AbsentInv(s: Store, side: Side, p: Price)
    requires Core(s) && TidyExcept(s, side, p) && p !in SideLevels(s, side)
    ensures Inv(s)
  {
    hide Core, Tidy;
    TidyInv(s);
  }

  lemma FoundAt(s: Store, o: Order)
    requires Inv(s) && Rests(View(s), o)
    ensures Core(s) && o.id in s.locate && s.locate[o.id] < |s.slots| && s.slots[s.locate[o.id]] == o
  {
    hide Core, View;
    ViewRests(s, o);
    LocateAt(s, o.id);
  }

  lemma InvTidyExcept(s: Store, side: Side, p: Price)
    requires Inv(s)
    ensures TidyExcept(s, side, p)
  {
    hide Core, Tidy;
    InvTidy(s);
  }

  /** The checked subtractions of a fill, a reduction or a cancel do not underflow. */
  lemma ShrunkFits(s: Store, id: OrderId, r: Qty)
    requires Core(s) && id in s.locate && r <= s.slots[s.locate[id]].remaining
    ensures var o := s.slots[s.locate[id]];
            var m := SideLevels(s, o.side);
            && o.price in m && m[o.price].live > 0 && m[o.price].qty >= o.remaining
            && (o.user != 0 ==> o.user in s.users && s.users[o.user] > 0)
  {
    hide Homed, FreeOk, LocateOk, Live, Total;
    LocateAt(s, id);
    var o := s.slots[s.locate[id]];
    LiveIsHomed(s, s.locate[id]);
    LevelCovers(s.slots, SideLevels(s, o.side)[o.price].orders, s.locate[id]);
    assert id in IdsOf(s.slots, s.locate, o.user);
  }

  lemma FillsStart(s: Store, side: Side, p: Price, fills: seq<Fill>)
    requires Inv(s)
    ensures Core(s) && TidyExcept(s, side, p)
    ensures WithQueue(View(s), side, p, Queue(View(s), side, p)) == View(s)
    ensures fills[0..] == fills
  {
    hide Core, View;
    InvTidyExcept(s, side, p);
    ViewNoEmpty(s);
    WithSameQueue(View(s), side, p);
  }

  lemma FillsEnd(q: seq<Order>, fills: seq<Fill>)
    ensures FilledAll(q, fills[|fills|..]) == q
  {}

  /** One fill of the loop, as a step of the store and of the view. */
  lemma FillStep(s: Store, side: Side, p: Price, b: Book, q: seq<Order>, fills: seq<Fill>, i: nat)
    requires Core(s) && TidyExcept(s, side, p) && i < |fills|
    requires View(s) == WithQueue(b, side, p, q) && Queue(View(s), side, p) == q
    requires FillsFit(q, fills[i..])
    ensures fills[i].id in s.locate && s.locate[fills[i].id] < |s.slots|
    ensures 0 < fills[i].qty <= s.slots[s.locate[fills[i].id]].remaining
    ensures var s' := Shrunk(s, fills[i].id, s.slots[s.locate[fills[i].id]].remaining - fills[i].qty);
            && Core(s') && TidyExcept(s', side, p)
            && View(s') == WithQueue(b, side, p, Filled(q, fills[i]))
            && Queue(View(s'), side, p) == Filled(q, fills[i])
    ensures FillsFit(Filled(q, fills[i]), fills[i + 1..])
    ensures FilledAll(q, fills[i..]) == FilledAll(Filled(q, fills[i]), fills[i + 1..])
  {
    hide Core, View, TidyExcept, Shrunk, WithQueue, Queue;
    var f := fills[i];
    assert fills[i..][0] == f && fills[i..][1..] == fills[i + 1..];
    var o := MakerAt(s, side, p, f.id);
    var r := o.remaining - f.qty;
    ShrunkCore(s, f.id, r);
    ShrunkTidyExcept(s, f.id, r);
    ViewShrunk(s, f.id, r);
    WithQueueTwice(b, side, p, q, Filled(q, f));
    QueueWithQueue(b, side, p, Filled(q, f), side, p);
  }

  lemma MakerAt(s: Store, side: Side, p: Price, id: OrderId) returns (o: Order)
    requires Core(s) && Lots(Queue(View(s), side, p), id) > 0
    ensures id in s.locate && s.locate[id] < |s.slots| && s.slots[s.locate[id]] == o
    ensures o.side == side && o.price == p && o.id == id && o.remaining == Lots(Queue(View(s), side, p), id)
  {
    hide Core, View, Lots;
    var q := Queue(View(s), side, p);
    LotsFound(q, id);
    o :| o in q && o.id == id && o.remaining == Lots(q, id);
    ViewGood(s);
    ViewRests(s, o);
    LocateAt(s, id);
  }

  lemma LevelShown(s: Store, side: Side, p: Price)
    requires Inv(s)
    ensures Core(s)
    ensures var m := SideLevels(s, side);
            if p in m then m[p].live > 0 && InPool(s.slots, m[p].orders)
                           && Queue(View(s), side, p) == Live(s.slots, m[p].orders)
            else Queue(View(s), side, p) == []
  {
    hide View, Homed, FreeOk, LocateOk, UsersOk, Live, Total;
    ViewQueue(s, side, p);
    InvTidy(s);
  }

  lemma CappedNothing(cap: int)
    ensures SeenAll([]) == [] && Total([]) == 0 && Capped([], cap) == []
    ensures forall q: seq<Order> :: [] + q == q
  {}

  lemma LiveFront(slots: seq<Order>, queue: seq<nat>, i: nat)
    requires InPool(slots, queue) && i < |queue|
    ensures Live(slots, queue[i..]) ==
              (if slots[queue[i]].remaining > 0 then [slots[queue[i]]] else []) + Live(slots, queue[i + 1..])
    ensures slots[queue[i]].remaining == 0 ==> Live(slots, queue[i..]) == Live(slots, queue[i + 1..])
  {
    assert queue[i..][1..] == queue[i + 1..];
  }

  /** One order is copied into a capped view. */
  lemma CopyStep(q: seq<Order>, copied: seq<Order>, o: Order, rest: seq<Order>, cap: int)
    requires q == copied + ([o] + rest) && Total(q) <= U64_MAX
    requires Capped(q, cap) == copied + Capped([o] + rest, cap - Total(copied))
    ensures SeenAll(copied + [o]) == SeenAll(copied) + [Seen(o)]
    ensures Total(copied + [o]) == Total(copied) + o.remaining <= U64_MAX
    ensures q == (copied + [o]) + rest
    ensures if Total(copied) + o.remaining >= cap then Capped(q, cap) == copied + [o]
            else Capped(q, cap) == (copied + [o]) + Capped(rest, cap - (Total(copied) + o.remaining))
  {
    hide Capped, Total, SeenAll;
    assert q == (copied + [o]) + rest;
    CopyTotals(copied, o, rest);
    CopyCapped(copied, o, rest, cap - Total(copied));
  }

  lemma CopyTotals(copied: seq<Order>, o: Order, rest: seq<Order>)
    ensures SeenAll(copied + [o]) == SeenAll(copied) + [Seen(o)]
    ensures Total(copied + [o]) == Total(copied) + o.remaining <= Total(copied + ([o] + rest))
  {
    TotalConcat(copied, [o]);
    TotalConcat(copied + [o], rest);
    assert copied + ([o] + rest) == copied + [o] + rest;
  }

  lemma CopyCapped(copied: seq<Order>, o: Order, rest: seq<Order>, cap: int)
    ensures copied + Capped([o] + rest, cap) ==
              if o.remaining >= cap then copied + [o] else (copied + [o]) + Capped(rest, cap - o.remaining)
  {
    assert ([o] + rest)[1..] == rest;
    assert copied + ([o] + Capped(rest, cap - o.remaining)) == (copied + [o]) + Capped(rest, cap - o.remaining);
  }

  lemma CopyEnd(slots: seq<Order>, orders: seq<nat>, q: seq<Order>, copied: seq<Order>, cap: int)
    requires InPool(slots, orders) && q == copied + Live(slots, orders[|orders|..])
    requires Capped(q, cap) == copied + Capped(Live(slots, orders[|orders|..]), cap - Total(copied))
    ensures Capped(q, cap) == copied
  {}

  /** The levels of the view are the levels of the index. */
  lemma ShownLevels(s: Store, side: Side)
    requires Inv(s)
    ensures Core(s) && forall p :: p in SideLevels(s, side) <==> p in Levels(View(s), side)
  {
    hide Homed, FreeOk, LocateOk, UsersOk, Live, Total;
    InvTidy(s);
    forall p | p in SideLevels(s, side) ensures Live(s.slots, SideLevels(s, side)[p].orders) != [] {
      LevelAt(s, side, p);
    }
  }

  lemma LevelTotal(s: Store, side: Side, p: Price)
    requires Inv(s) && p in SideLevels(s, side)
    ensures Core(s) && SideLevels(s, side)[p].live > 0
    ensures SideLevels(s, side)[p].qty == Total(Queue(View(s), side, p))
  {
    hide View, Homed, FreeOk, LocateOk, UsersOk, Live, Total;
    InvTidy(s);
    ViewQueue(s, side, p);
    LevelAt(s, side, p);
  }

  lemma BestEither(b: Book, side: Side, m: map<Price, Level>, r: Option<Price>)
    requires forall p :: p in m <==> p in Levels(b, side)
    requires r.None? <==> m == map[]
    requires r.Some? ==> r.value in m && forall q :: q in m ==> !Better(side, q, r.value)
    ensures r == Best(b, side)
  {
    if r.Some? {
      BestIs(b, side, r.value);
    } else {
      assert Levels(b, side) == map[];
    }
  }

  lemma CrossableStep(b: Book, side: Side, limit: Price)
    ensures var best := Best(b, side);
            CrossableLots(b, side, limit) ==
              if best.None? || Better(side, limit, best.value) then 0
              else Total(Queue(b, side, best.value)) + CrossableLots(Without(b, side, best.value), side, limit)
  {
    hide Best, Total, Queue, Without;
  }

  lemma SweepStep(b: Book, side: Side, qty: nat)
    ensures var best := Best(b, side);
            if best.None? || qty == 0 then SweepCost(b, side, qty) == (qty, 0)
            else
              var total := Total(Queue(b, side, best.value));
              var take := if qty <= total then qty else total;
              var rest := SweepCost(Without(b, side, best.value), side, qty - take);
              SweepCost(b, side, qty) == (rest.0, rest.1 + Notional(best.value, take))
  {
    hide Best, Total, Queue, Without, Notional;
  }
}
