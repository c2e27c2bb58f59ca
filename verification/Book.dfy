/**
 What an order book stands for: per side, a map from price to the FIFO queue of the live
 orders resting there.
 */
module Books {
  import opened Types

  datatype Book = Book(bids: map<Price, seq<Order>>, asks: map<Price, seq<Order>>)

  function Levels(b: Book, side: Side): map<Price, seq<Order>> {
    match side
    case Buy => b.bids
    case Sell => b.asks
  }

  /** The queue at one price, empty when no level is there. */
  function Queue(b: Book, side: Side, p: Price): seq<Order> {
    if p in Levels(b, side) then Levels(b, side)[p] else []
  }

  /** The book with one queue replaced; an empty queue removes the level. */
  function WithQueue(b: Book, side: Side, p: Price, q: seq<Order>): Book {
    var m := if q == [] then Levels(b, side) - {p} else Levels(b, side)[p := q];
    match side
    case Buy => b.(bids := m)
    case Sell => b.(asks := m)
  }

  function Total(q: seq<Order>): nat {
    if q == [] then 0 else q[0].remaining + Total(q[1..])
  }

  /** The queue after order `id` is brought down to `r` lots in place; at zero it leaves. */
  function SetRemaining(q: seq<Order>, id: OrderId, r: Qty): seq<Order> {
    if q == [] then []
    else if q[0].id == id then (if r == 0 then [] else [q[0].(remaining := r)]) + q[1..]
    else [q[0]] + SetRemaining(q[1..], id, r)
  }

  lemma {:induction false} TotalConcat(a: seq<Order>, b: seq<Order>)
    ensures Total(a + b) == Total(a) + Total(b)
  {
    if a == [] {
      assert a + b == b;
    } else {
      assert (a + b)[1..] == a[1..] + b;
      TotalConcat(a[1..], b);
    }
  }

  lemma {:induction false} SetRemainingTotal(q: seq<Order>, o: Order, r: Qty)
    requires o in q && r <= o.remaining
    requires forall i :: 0 <= i < |q| && q[i].id == o.id ==> q[i] == o
    ensures Total(SetRemaining(q, o.id, r)) == Total(q) - (o.remaining - r)
    ensures |SetRemaining(q, o.id, r)| == |q| - if r == 0 then 1 else 0
  {
    if q[0].id == o.id {
      if r == 0 {
        assert SetRemaining(q, o.id, r) == q[1..];
      } else {
        assert SetRemaining(q, o.id, r)[1..] == q[1..];
      }
    } else {
      assert o in q[1..];
      SetRemainingTotal(q[1..], o, r);
      assert SetRemaining(q, o.id, r)[1..] == SetRemaining(q[1..], o.id, r);
    }
  }

  // --- well-formed books ------------------------------------------------------------------

  /** A queue holds live orders of its own side and price, with distinct ids. */
  ghost predicate GoodQueue(q: seq<Order>, side: Side, p: Price) {
    && (forall i :: 0 <= i < |q| ==> q[i].side == side && q[i].price == p && q[i].remaining > 0)
    && (forall i, j :: 0 <= i < j < |q| ==> q[i].id != q[j].id)
  }

  ghost predicate GoodBook(b: Book) {
    forall side, p :: p in Levels(b, side) ==> Queue(b, side, p) != [] && GoodQueue(Queue(b, side, p), side, p)
  }

  /** `o` rests on the book. */
  ghost predicate Rests(b: Book, o: Order) {
    o in Queue(b, o.side, o.price)
  }

  ghost predicate IdsUnique(b: Book) {
    forall o, o' :: Rests(b, o) && Rests(b, o') && o.id == o'.id ==> o == o'
  }

  ghost predicate HasId(b: Book, id: OrderId) {
    exists o :: Rests(b, o) && o.id == id
  }

  ghost function Resting(b: Book): set<Order> {
    (set p, o | p in b.bids && o in b.bids[p] :: o) + (set p, o | p in b.asks && o in b.asks[p] :: o)
  }

  /** Ids of the orders that `user` has resting. */
  ghost function IdsOfUser(b: Book, user: User): set<OrderId> {
    set o | o in Resting(b) && o.user == user :: o.id
  }

  lemma RestingAre(b: Book, o: Order)
    requires GoodBook(b)
    ensures o in Resting(b) <==> Rests(b, o)
  {
    if o in Resting(b) {
      if p :| p in b.bids && o in b.bids[p] {
        assert p in Levels(b, Buy) && Queue(b, Buy, p) == b.bids[p];
      } else {
        var p :| p in b.asks && o in b.asks[p];
        assert p in Levels(b, Sell) && Queue(b, Sell, p) == b.asks[p];
      }
    }
  }

  /** No level of the map is empty. */
  ghost predicate NoEmptyLevel(b: Book) {
    forall side, p :: p in Levels(b, side) ==> Queue(b, side, p) != []
  }

  /** Books without empty levels are determined by their queues. */
  lemma SameQueues(b: Book, b': Book)
    requires NoEmptyLevel(b) && NoEmptyLevel(b')
    requires forall side, p :: Queue(b, side, p) == Queue(b', side, p)
    ensures b == b'
  {
    forall p ensures p in b.bids <==> p in b'.bids {
      assert Queue(b, Buy, p) == Queue(b', Buy, p);
      assert p in Levels(b, Buy) || p !in Levels(b, Buy);
      assert p in Levels(b', Buy) || p !in Levels(b', Buy);
    }
    forall p | p in b.bids ensures b.bids[p] == b'.bids[p] {
      assert Queue(b, Buy, p) == Queue(b', Buy, p);
    }
    forall p ensures p in b.asks <==> p in b'.asks {
      assert Queue(b, Sell, p) == Queue(b', Sell, p);
      assert p in Levels(b, Sell) || p !in Levels(b, Sell);
      assert p in Levels(b', Sell) || p !in Levels(b', Sell);
    }
    forall p | p in b.asks ensures b.asks[p] == b'.asks[p] {
      assert Queue(b, Sell, p) == Queue(b', Sell, p);
    }
  }

  lemma QueueWithQueue(b: Book, side: Side, p: Price, q: seq<Order>, side': Side, p': Price)
    ensures Queue(WithQueue(b, side, p, q), side', p') == if side' == side && p' == p then q else Queue(b, side', p')
  {}

  lemma WithQueueNoEmpty(b: Book, side: Side, p: Price, q: seq<Order>)
    requires NoEmptyLevel(b)
    ensures NoEmptyLevel(WithQueue(b, side, p, q))
  {
    var b' := WithQueue(b, side, p, q);
    forall side', p' | p' in Levels(b', side') ensures Queue(b', side', p') != [] {
      QueueWithQueue(b, side, p, q, side', p');
      assert side' != side || p' != p ==> p' in Levels(b, side');
    }
  }

  // --- what a strategy sees ---------------------------------------------------------------------

  /** An order as a matching strategy sees it. */
  datatype RestingOrder = RestingOrder(id: OrderId, remaining: Qty, timestamp: u64, user: User)

  function Seen(o: Order): RestingOrder {
    RestingOrder(o.id, o.remaining, o.timestamp, o.user)
  }

  /** A level's orders as a strategy sees them. */
  function SeenAll(q: seq<Order>): (v: seq<RestingOrder>)
    ensures |v| == |q| && forall i :: 0 <= i < |q| ==> v[i] == Seen(q[i])
  {
    seq(|q|, i requires 0 <= i < |q| => Seen(q[i]))
  }

  /** The shortest front of a queue that covers `cap` lots (one order at least). */
  function Capped(q: seq<Order>, cap: int): seq<Order> {
    if q == [] then []
    else if q[0].remaining >= cap then [q[0]]
    else [q[0]] + Capped(q[1..], cap - q[0].remaining)
  }

  // --- fills ----------------------------------------------------------------------------------

  datatype Fill = Fill(id: OrderId, qty: Qty)

  /** Lots order `id` has left on a queue, 0 when it is not there. */
  function Lots(q: seq<Order>, id: OrderId): Qty {
    if q == [] then 0 else if q[0].id == id then q[0].remaining else Lots(q[1..], id)
  }

  /** One fill taken out of a queue. */
  function Filled(q: seq<Order>, f: Fill): seq<Order> {
    if f.qty <= Lots(q, f.id) then SetRemaining(q, f.id, Lots(q, f.id) - f.qty) else q
  }

  function FilledAll(q: seq<Order>, fills: seq<Fill>): seq<Order>
    decreases |fills|
  {
    if fills == [] then q else FilledAll(Filled(q, fills[0]), fills[1..])
  }

  /** Each fill, when its turn comes, is positive and within what the maker has left. */
  ghost predicate FillsFit(q: seq<Order>, fills: seq<Fill>)
    decreases |fills|
  {
    fills != [] ==>
      0 < fills[0].qty <= Lots(q, fills[0].id) && FillsFit(Filled(q, fills[0]), fills[1..])
  }

  lemma {:induction false} LotsFound(q: seq<Order>, id: OrderId)
    requires Lots(q, id) > 0
    ensures exists o :: o in q && o.id == id && o.remaining == Lots(q, id)
  {
    if q[0].id == id {
      assert q[0] in q;
    } else {
      LotsFound(q[1..], id);
      var o :| o in q[1..] && o.id == id && o.remaining == Lots(q[1..], id);
      assert o in q;
    }
  }

  lemma {:induction false} LotsOf(q: seq<Order>, o: Order)
    requires o in q && forall i :: 0 <= i < |q| && q[i].id == o.id ==> q[i] == o
    ensures Lots(q, o.id) == o.remaining
  {
    if q[0].id != o.id {
      assert o in q[1..];
      LotsOf(q[1..], o);
    }
  }

  lemma WithQueueTwice(b: Book, side: Side, p: Price, q: seq<Order>, q': seq<Order>)
    ensures WithQueue(WithQueue(b, side, p, q), side, p, q') == WithQueue(b, side, p, q')
  {
    var m := Levels(b, side);
    var less: map<Price, seq<Order>> := m - {p};
    var more: map<Price, seq<Order>> := m[p := q];
    assert less[p := q'] == m[p := q'] == more[p := q'];
    assert more - {p} == less == less - {p};
  }

  lemma WithSameQueue(b: Book, side: Side, p: Price)
    requires NoEmptyLevel(b)
    ensures WithQueue(b, side, p, Queue(b, side, p)) == b
  {
    var m := Levels(b, side);
    if p in m {
      assert m[p := m[p]] == m;
    } else {
      assert m - {p} == m;
    }
  }

  // --- best prices ------------------------------------------------------------------------------

  /** Resting price `p` on `side` has strict priority over `q`: bids from above, asks from below. */
  predicate Better(side: Side, p: Price, q: Price) {
    match side
    case Buy => p > q
    case Sell => p < q
  }

  ghost function Foremost(side: Side, keys: set<Price>): (p: Price)
    requires keys != {}
    ensures p in keys && forall q :: q in keys ==> !Better(side, q, p)
  {
    var k :| k in keys;
    if keys == {k} then k
    else
      var rest := Foremost(side, keys - {k});
      assert forall q :: q in keys ==> q == k || q in keys - {k};
      if Better(side, k, rest) then k else rest
  }

  /** The best price resting on `side`. */
  ghost function Best(b: Book, side: Side): (r: Option<Price>)
    ensures r.None? <==> Levels(b, side) == map[]
    ensures r.Some? ==> r.value in Levels(b, side) && forall q :: q in Levels(b, side) ==> !Better(side, q, r.value)
  {
    if Levels(b, side) == map[] then None else Some(Foremost(side, Levels(b, side).Keys))
  }

  lemma BestIs(b: Book, side: Side, p: Price)
    requires p in Levels(b, side) && forall q :: q in Levels(b, side) ==> !Better(side, q, p)
    ensures Best(b, side) == Some(p)
  {}

  /** The book with its best level on `side` taken away. */
  function Without(b: Book, side: Side, p: Price): Book {
    WithQueue(b, side, p, [])
  }

  lemma WithoutSmaller(b: Book, side: Side, p: Price)
    requires p in Levels(b, side)
    ensures Levels(Without(b, side, p), side) == Levels(b, side) - {p}
    ensures |Levels(Without(b, side, p), side)| < |Levels(b, side)|
  {
    var m := Levels(b, side);
    assert m.Keys == (m - {p}).Keys + {p};
  }

  /** Lots on `side` at prices an aggressor limited to `limit` may take, best level first. */
  ghost function CrossableLots(b: Book, side: Side, limit: Price): nat
    decreases |Levels(b, side)|
  {
    var best := Best(b, side);
    if best.None? || Better(side, limit, best.value) then 0
    else
      WithoutSmaller(b, side, best.value);
      Total(Queue(b, side, best.value)) + CrossableLots(Without(b, side, best.value), side, limit)
  }

  function Notional(p: nat, lots: nat): nat {
    p * lots
  }

  lemma NotionalZero(p: nat)
    ensures Notional(p, 0) == 0
  {}

  /** Lots left unfilled and the notional paid when `qty` lots are taken best level first. */
  ghost function SweepCost(b: Book, side: Side, qty: nat): (nat, nat)
    decreases |Levels(b, side)|
  {
    var best := Best(b, side);
    if best.None? || qty == 0 then (qty, 0)
    else
      WithoutSmaller(b, side, best.value);
      var total := Total(Queue(b, side, best.value));
      var take := if qty <= total then qty else total;
      var rest := SweepCost(Without(b, side, best.value), side, qty - take);
      (rest.0, rest.1 + Notional(best.value, take))
  }

  // --- walks ---------------------------------------------------------------------------------------

  /** Prices in the order of their priority on `side`. */
  ghost predicate BestFirst(side: Side, ps: seq<Price>) {
    forall i, j :: 0 <= i < j < |ps| ==> Better(side, ps[i], ps[j])
  }

  /** `ps` from `i` on lists the levels of `rest`, which agree with those of `b`. */
  ghost predicate Remaining(b: Book, rest: Book, side: Side, ps: seq<Price>, i: nat) {
    && i <= |ps|
    && (forall p :: p in Levels(rest, side) <==> p in ps[i..])
    && (forall p :: p in Levels(rest, side) ==> p in Levels(b, side) && Levels(rest, side)[p] == Levels(b, side)[p])
  }

  lemma WalkStart(b: Book, side: Side, ps: seq<Price>)
    requires forall p :: p in Levels(b, side) <==> p in ps
    ensures Remaining(b, b, side, ps, 0)
  {
    assert ps[0..] == ps;
  }

  /** The next price of a walk is the best level of what is left. */
  lemma WalkStep(b: Book, rest: Book, side: Side, ps: seq<Price>, i: nat)
    requires BestFirst(side, ps) && i < |ps| && Remaining(b, rest, side, ps, i)
    ensures Best(rest, side) == Some(ps[i])
    ensures Queue(rest, side, ps[i]) == Queue(b, side, ps[i])
    ensures Remaining(b, Without(rest, side, ps[i]), side, ps, i + 1)
  {
    hide Best, Without, BestFirst, Better;
    FrontIsBest(side, ps, i);
    RemainingFront(b, rest, side, ps, i);
    WithoutSmaller(rest, side, ps[i]);
  }

  lemma RemainingFront(b: Book, rest: Book, side: Side, ps: seq<Price>, i: nat)
    requires i < |ps| && Remaining(b, rest, side, ps, i)
    requires forall q :: q in ps[i..] <==> q == ps[i] || q in ps[i + 1..]
    requires forall q :: q in ps[i + 1..] ==> Better(side, ps[i], q)
    ensures ps[i] in Levels(rest, side) && Best(rest, side) == Some(ps[i])
    ensures ps[i] !in ps[i + 1..]
  {
    hide Best;
    forall q | q in Levels(rest, side) ensures !Better(side, q, ps[i]) {
      assert q in ps[i..];
      assert q == ps[i] || Better(side, ps[i], q);
    }
    assert ps[i] in ps[i..];
    BestIs(rest, side, ps[i]);
  }

  lemma FrontIsBest(side: Side, ps: seq<Price>, i: nat)
    requires BestFirst(side, ps) && i < |ps|
    ensures forall q :: q in ps[i..] <==> q == ps[i] || q in ps[i + 1..]
    ensures forall q :: q in ps[i + 1..] ==> Better(side, ps[i], q)
  {
    assert ps[i..] == [ps[i]] + ps[i + 1..];
    forall q | q in ps[i + 1..] ensures Better(side, ps[i], q) {
      var j :| 0 <= j < |ps[i + 1..]| && ps[i + 1..][j] == q;
      assert ps[i + 1 + j] == q;
    }
  }

  lemma WalkEnd(b: Book, rest: Book, side: Side, ps: seq<Price>)
    requires Remaining(b, rest, side, ps, |ps|)
    ensures Best(rest, side) == None
  {
    assert Levels(rest, side) == map[];
  }

  // --- single-order operations -----------------------------------------------------------------------

  /** Room for one more order: the checked additions of `push` and of the user counter do not overflow. */
  ghost predicate RoomFor(b: Book, o: Order) {
    && Total(Queue(b, o.side, o.price)) + o.remaining <= U64_MAX
    && |Queue(b, o.side, o.price)| + 1 <= 0xFFFF_FFFF
    && (o.user != 0 ==> |IdsOfUser(b, o.user)| + 1 <= 0xFFFF_FFFF)
  }

  /** The book after an order joined the back of its queue. */
  function Joined(b: Book, o: Order): Book {
    WithQueue(b, o.side, o.price, Queue(b, o.side, o.price) + [o])
  }

  /** The book after a resting order was reduced in place. */
  function Reduced(b: Book, o: Order, r: Qty): Book {
    WithQueue(b, o.side, o.price, SetRemaining(Queue(b, o.side, o.price), o.id, r))
  }

  /** The book after a resting order left. */
  function Removed(b: Book, o: Order): Book {
    Reduced(b, o, 0)
  }
}
