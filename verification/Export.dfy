/** Exporting a book as a list sorted by stamp, and rebuilding it from the list. */
module Exports {
  import opened Types
  import opened Books
  import opened Queues
  import opened Matching
  import opened Priority
  import opened Submissions
  import opened SelfTrades

  /** The orders of a list that belong to one queue, in list order. */
  function At(os: seq<Order>, side: Side, p: Price): seq<Order> {
    if os == [] then []
    else
      var o := os[|os| - 1];
      At(os[..|os| - 1], side, p) + if o.side == side && o.price == p then [o] else []
  }

  /** Re-inserting a list of orders one by one into an empty book. */
  function Rebuilt(os: seq<Order>): Book {
    if os == [] then Book(map[], map[]) else Joined(Rebuilt(os[..|os| - 1]), os[|os| - 1])
  }

  ghost predicate ByStamp(os: seq<Order>) {
    forall i, j :: 0 <= i < j < |os| ==> os[i].timestamp <= os[j].timestamp
  }

  ghost predicate Exported(b: Book, os: seq<Order>) {
    ByStamp(os) && DistinctIds(os) && forall o :: o in os <==> Rests(b, o)
  }

  lemma {:induction false} RebuiltQueue(os: seq<Order>, side: Side, p: Price)
    ensures Queue(Rebuilt(os), side, p) == At(os, side, p)
    ensures NoEmptyLevel(Rebuilt(os))
  {
    hide WithQueue, NoEmptyLevel;
    if os == [] {
      EmptyBook();
    } else {
      var rest, o := os[..|os| - 1], os[|os| - 1];
      RebuiltQueue(rest, side, p);
      QueueWithQueue(Rebuilt(rest), o.side, o.price, Queue(Rebuilt(rest), o.side, o.price) + [o], side, p);
      WithQueueNoEmpty(Rebuilt(rest), o.side, o.price, Queue(Rebuilt(rest), o.side, o.price) + [o]);
    }
  }

  lemma EmptyBook()
    ensures NoEmptyLevel(Book(map[], map[])) && forall side, p :: Queue(Book(map[], map[]), side, p) == []
  {}

  lemma {:induction false} AtMembers(os: seq<Order>, side: Side, p: Price, o: Order)
    ensures o in At(os, side, p) <==> o in os && o.side == side && o.price == p
  {
    if os != [] {
      var rest, last := os[..|os| - 1], os[|os| - 1];
      AtMembers(rest, side, p, o);
      assert os == rest + [last];
    }
  }

  lemma {:induction false} AtSorted(os: seq<Order>, side: Side, p: Price)
    requires ByStamp(os) && DistinctIds(os)
    ensures ByStamp(At(os, side, p)) && DistinctIds(At(os, side, p))
  {
    if os != [] {
      var rest, last := os[..|os| - 1], os[|os| - 1];
      AtSorted(rest, side, p);
      var a := At(rest, side, p);
      forall i | 0 <= i < |a| ensures a[i].timestamp <= last.timestamp && a[i].id != last.id {
        AtMembers(rest, side, p, a[i]);
        var j :| 0 <= j < |rest| && rest[j] == a[i];
        assert os[j] == a[i];
      }
      LastFits(a, last);
    }
  }

  lemma LastFits(a: seq<Order>, o: Order)
    requires ByStamp(a) && DistinctIds(a)
             && forall i :: 0 <= i < |a| ==> a[i].timestamp <= o.timestamp && a[i].id != o.id
    ensures ByStamp(a + [o]) && DistinctIds(a + [o]) && ByStamp(a + []) && DistinctIds(a + [])
  {
    assert a + [] == a;
  }

  /** A queue in strict time order is the only list sorted by stamp with its orders. */
  lemma {:induction false} OneOrder(a: seq<Order>, q: seq<Order>)
    requires ByStamp(a) && DistinctIds(a) && InTimeOrder(q) && forall o :: o in a <==> o in q
    ensures a == q
  {
    EmptyTogether(a, q);
    if a != [] {
      assert a[0] in q && q[0] in a;
      var i :| 0 <= i < |q| && q[i] == a[0];
      var j :| 0 <= j < |a| && a[j] == q[0];
      assert a[0] == q[0];
      forall o ensures o in a[1..] <==> o in q[1..] {
        InRest(a, o);
        RestOf(q, o);
      }
      assert forall k :: 0 <= k < |a| - 1 ==> a[1..][k] == a[k + 1];
      assert forall k :: 0 <= k < |q| - 1 ==> q[1..][k] == q[k + 1];
      OneOrder(a[1..], q[1..]);
    }
  }

  lemma EmptyTogether(a: seq<Order>, q: seq<Order>)
    requires forall o :: o in a <==> o in q
    ensures a == [] <==> q == []
  {
    if a != [] {
      assert a[0] in q;
    }
    if q != [] {
      assert q[0] in a;
    }
  }

  lemma InRest(a: seq<Order>, o: Order)
    requires a != [] && DistinctIds(a)
    ensures o in a[1..] <==> o in a && o != a[0]
  {
    assert a == [a[0]] + a[1..];
    if o in a[1..] {
      var k :| 0 <= k < |a[1..]| && a[1..][k] == o;
      assert a[k + 1] == o && a[0].id != a[k + 1].id;
    }
  }

  lemma RestOf(q: seq<Order>, o: Order)
    requires q != [] && InTimeOrder(q)
    ensures o in q[1..] <==> o in q && o != q[0]
  {
    assert q == [q[0]] + q[1..];
    if o in q[1..] {
      var k :| 0 <= k < |q[1..]| && q[1..][k] == o;
      assert q[k + 1] == o && q[0].timestamp < q[k + 1].timestamp;
    }
  }

  /** Export then restore gives back the same book: every queue in the same order. */
  lemma RestoreExported(b: Book, os: seq<Order>)
    requires Sound(b) && TimeOrdered(b) && Exported(b, os)
    ensures Rebuilt(os) == b
  {
    hide InTimeOrder, ByStamp, DistinctIds, At, Rebuilt, IdsUnique, Fitting;
    SoundNoEmpty(b);
    forall side, p ensures Queue(Rebuilt(os), side, p) == Queue(b, side, p) && NoEmptyLevel(Rebuilt(os)) {
      RebuiltQueue(os, side, p);
      AtSorted(os, side, p);
      forall o ensures o in At(os, side, p) <==> o in Queue(b, side, p) {
        AtMembers(os, side, p, o);
        if o in Queue(b, side, p) {
          RestsAt(b, side, p, o);
        }
      }
      OneOrder(At(os, side, p), Queue(b, side, p));
    }
    RebuiltQueue(os, Buy, 0);
    SameQueues(Rebuilt(os), b);
  }

  // --- sorting by stamp ---------------------------------------------------------------------------------

  function InsertByStamp(os: seq<Order>, o: Order): seq<Order> {
    if os == [] || os[|os| - 1].timestamp <= o.timestamp then os + [o]
    else InsertByStamp(os[..|os| - 1], o) + [os[|os| - 1]]
  }

  function SortByStamp(os: seq<Order>): seq<Order> {
    if os == [] then [] else InsertByStamp(SortByStamp(os[..|os| - 1]), os[|os| - 1])
  }

  lemma {:induction false} InsertByStampSorts(os: seq<Order>, o: Order)
    requires ByStamp(os) && DistinctIds(os) && forall i :: 0 <= i < |os| ==> os[i].id != o.id
    ensures var r := InsertByStamp(os, o);
            ByStamp(r) && DistinctIds(r) && forall x :: x in r <==> x in os || x == o
  {
    if os != [] && os[|os| - 1].timestamp > o.timestamp {
      var rest, last := os[..|os| - 1], os[|os| - 1];
      assert os == rest + [last];
      InsertByStampSorts(rest, o);
      var r := InsertByStamp(rest, o);
      forall i | 0 <= i < |r| ensures r[i].timestamp <= last.timestamp && r[i].id != last.id {
        assert r[i] in rest || r[i] == o;
      }
      LastFits(r, last);
    } else {
      assert os != [] ==> os[|os| - 1].timestamp <= o.timestamp;
      LastFits(os, o);
    }
  }

  lemma {:induction false} SortByStampSorts(os: seq<Order>)
    requires DistinctIds(os)
    ensures var r := SortByStamp(os); ByStamp(r) && DistinctIds(r) && forall x :: x in r <==> x in os
  {
    if os != [] {
      var rest, last := os[..|os| - 1], os[|os| - 1];
      assert os == rest + [last];
      SortByStampSorts(rest);
      var r := SortByStamp(rest);
      forall i | 0 <= i < |r| ensures r[i].id != last.id {
        assert r[i] in rest;
        var j :| 0 <= j < |rest| && rest[j] == r[i];
        assert os[j] == r[i];
      }
      InsertByStampSorts(r, last);
    }
  }

  // --- room to restore -------------------------------------------------------------------------------------

  /** Counters of the book stay below their machine limits. */
  ghost predicate Roomy(b: Book) {
    && (forall side, p :: |Queue(b, side, p)| <= 0xFFFF_FFFF)
    && (forall user :: |IdsOfUser(b, user)| <= 0xFFFF_FFFF)
  }

  /** Each order of the list can be inserted when its turn comes. */
  ghost predicate Restorable(os: seq<Order>) {
    forall k :: 0 <= k < |os| ==>
      os[k].remaining > 0 && !HasId(Rebuilt(os[..k]), os[k].id) && RoomFor(Rebuilt(os[..k]), os[k])
  }

  lemma {:induction false} RebuiltRests(os: seq<Order>, o: Order)
    ensures Rests(Rebuilt(os), o) <==> o in os
  {
    hide WithQueue;
    if os != [] {
      RebuiltRests(os[..|os| - 1], o);
      JoinedRests(Rebuilt(os[..|os| - 1]), os[|os| - 1], o);
      assert os == os[..|os| - 1] + [os[|os| - 1]];
    }
  }

  lemma {:induction false} AtPrefix(os: seq<Order>, k: nat, side: Side, p: Price)
    requires k < |os|
    ensures Total(At(os[..k], side, p)) <= Total(At(os, side, p)) && |At(os[..k], side, p)| <= |At(os, side, p)|
    ensures os[k].side == side && os[k].price == p ==>
      && Total(At(os[..k], side, p)) + os[k].remaining <= Total(At(os, side, p))
      && |At(os[..k], side, p)| + 1 <= |At(os, side, p)|
  {
    var rest, last := os[..|os| - 1], os[|os| - 1];
    TotalConcat(At(rest, side, p), if last.side == side && last.price == p then [last] else []);
    if k < |os| - 1 {
      assert rest[..k] == os[..k];
      AtPrefix(rest, k, side, p);
    } else {
      assert os[..k] == rest;
    }
  }

  lemma RebuiltResting(os: seq<Order>, o: Order)
    ensures o in Resting(Rebuilt(os)) ==> o in os
  {
    hide Rebuilt, At;
    var b := Rebuilt(os);
    if o in Resting(b) {
      if p :| p in b.bids && o in b.bids[p] {
        RebuiltQueue(os, Buy, p);
        AtMembers(os, Buy, p, o);
        assert Queue(b, Buy, p) == b.bids[p];
      } else {
        var p :| p in b.asks && o in b.asks[p];
        RebuiltQueue(os, Sell, p);
        AtMembers(os, Sell, p, o);
        assert Queue(b, Sell, p) == b.asks[p];
      }
    }
  }

  lemma UsersGrow(b: Book, os: seq<Order>, k: nat)
    requires Sound(b) && Exported(b, os) && k < |os|
    ensures |IdsOfUser(Rebuilt(os[..k]), os[k].user)| + 1 <= |IdsOfUser(b, os[k].user)|
  {
    hide Rebuilt, Resting, GoodBook, IdsUnique, Fitting, Rests, ByStamp;
    var o := os[k];
    var before, all := IdsOfUser(Rebuilt(os[..k]), o.user), IdsOfUser(b, o.user);
    forall id | id in before ensures id in all && id != o.id {
      var m :| m in Resting(Rebuilt(os[..k])) && m.user == o.user && m.id == id;
      RebuiltResting(os[..k], m);
      var j :| 0 <= j < k && os[j] == m;
      RestingAre(b, m);
    }
    RestingAre(b, o);
    assert o in os && o in Resting(b) && o.id in all;
    assert before <= all - {o.id};
    CardinalityMono(before, all - {o.id});
  }

  /** What a valid engine exports can be restored into a fresh one. */
  lemma ExportedIsRestorable(b: Book, os: seq<Order>)
    requires Sound(b) && TimeOrdered(b) && Exported(b, os) && Roomy(b)
    ensures Restorable(os)
  {
    hide Rebuilt, At, IdsOfUser, GoodBook, IdsUnique, Total, ByStamp, Rests, TimeOrdered, GoodQueue;
    RestoreExported(b, os);
    forall k | 0 <= k < |os|
      ensures os[k].remaining > 0 && !HasId(Rebuilt(os[..k]), os[k].id) && RoomFor(Rebuilt(os[..k]), os[k])
    {
      var o := os[k];
      assert o in os;
      RestingPositive(b, o);
      RebuiltQueue(os[..k], o.side, o.price);
      RebuiltQueue(os, o.side, o.price);
      AtPrefix(os, k, o.side, o.price);
      UsersGrow(b, os, k);
      forall m | Rests(Rebuilt(os[..k]), m) ensures m.id != o.id {
        RebuiltRests(os[..k], m);
        var j :| 0 <= j < k && os[j] == m;
      }
    }
  }

  lemma RestingPositive(b: Book, o: Order)
    requires GoodBook(b) && Rests(b, o)
    ensures o.remaining > 0
  {
    GoodAt(b, o.side, o.price);
  }
}
