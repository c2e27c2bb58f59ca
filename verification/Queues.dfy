/** What lowering and removing orders keeps of a queue. */
module Queues {
  import opened Types
  import opened Books

  /** `o` is an order of `q`, with at most the quantity it had there. */
  ghost predicate Comes(q: seq<Order>, o: Order) {
    exists i :: 0 <= i < |q| && q[i].(remaining := o.remaining) == o && o.remaining <= q[i].remaining
  }

  ghost predicate AllCome(q: seq<Order>, q': seq<Order>) {
    forall j :: 0 <= j < |q'| ==> Comes(q, q'[j])
  }

  /** Time priority: strictly increasing timestamps. */
  ghost predicate InTimeOrder(q: seq<Order>) {
    forall i, j :: 0 <= i < j < |q| ==> q[i].timestamp < q[j].timestamp
  }

  /** `q'` is `q` with some orders lowered or gone. */
  ghost predicate Lowered(q: seq<Order>, q': seq<Order>, side: Side, p: Price) {
    && AllCome(q, q')
    && Total(q') <= Total(q)
    && (GoodQueue(q, side, p) ==> GoodQueue(q', side, p))
    && (InTimeOrder(q) ==> InTimeOrder(q'))
  }

  lemma ComesTwice(q: seq<Order>, q': seq<Order>, o: Order)
    requires AllCome(q, q') && Comes(q', o)
    ensures Comes(q, o)
  {
    var j :| 0 <= j < |q'| && q'[j].(remaining := o.remaining) == o && o.remaining <= q'[j].remaining;
    var i :| 0 <= i < |q| && q[i].(remaining := q'[j].remaining) == q'[j] && q'[j].remaining <= q[i].remaining;
    assert q[i].(remaining := o.remaining) == o;
  }

  lemma LoweredTwice(q: seq<Order>, q': seq<Order>, q'': seq<Order>, side: Side, p: Price)
    requires Lowered(q, q', side, p) && Lowered(q', q'', side, p)
    ensures Lowered(q, q'', side, p)
  {
    hide Comes, GoodQueue, InTimeOrder, Total;
    forall j | 0 <= j < |q''| ensures Comes(q, q''[j]) {
      ComesTwice(q, q', q''[j]);
    }
  }

  lemma LoweredSame(q: seq<Order>, side: Side, p: Price)
    ensures Lowered(q, q, side, p)
  {
    forall j | 0 <= j < |q| ensures Comes(q, q[j]) {
      assert q[j].(remaining := q[j].remaining) == q[j];
    }
  }

  lemma {:induction false} SetRemainingComes(q: seq<Order>, id: OrderId, r: Qty)
    requires r <= Lots(q, id)
    ensures AllCome(q, SetRemaining(q, id, r))
  {
    if q != [] {
      if q[0].id == id {
        FrontLowered(q, r);
      } else {
        SetRemainingComes(q[1..], id, r);
        ComesAfterFront(q, SetRemaining(q[1..], id, r));
      }
    }
  }

  lemma FrontLowered(q: seq<Order>, r: Qty)
    requires q != [] && r <= q[0].remaining
    ensures AllCome(q, (if r == 0 then [] else [q[0].(remaining := r)]) + q[1..])
  {
    var front := if r == 0 then [] else [q[0].(remaining := r)];
    var q' := front + q[1..];
    forall j | 0 <= j < |q'| ensures Comes(q, q'[j]) {
      var i := if j < |front| then 0 else j - |front| + 1;
      assert q[i].(remaining := q'[j].remaining) == q'[j];
    }
  }

  lemma ComesAfterFront(q: seq<Order>, rest: seq<Order>)
    requires q != [] && AllCome(q[1..], rest)
    ensures AllCome(q, [q[0]] + rest)
  {
    var q' := [q[0]] + rest;
    forall j | 0 <= j < |q'| ensures Comes(q, q'[j]) {
      if j == 0 {
        assert q[0].(remaining := q[0].remaining) == q'[0];
      } else {
        assert Comes(q[1..], rest[j - 1]);
        var i :| 0 <= i < |q[1..]| && q[1..][i].(remaining := rest[j - 1].remaining) == rest[j - 1]
                 && rest[j - 1].remaining <= q[1..][i].remaining;
        assert q[i + 1] == q[1..][i];
      }
    }
  }

  lemma {:induction false} SetRemainingTotals(q: seq<Order>, id: OrderId, r: Qty)
    requires r <= Lots(q, id)
    ensures Total(SetRemaining(q, id, r)) == Total(q) - (Lots(q, id) - r)
  {
    if q != [] {
      if q[0].id == id {
        if r == 0 {
          assert SetRemaining(q, id, r) == q[1..];
        } else {
          assert SetRemaining(q, id, r)[1..] == q[1..];
        }
      } else {
        SetRemainingTotals(q[1..], id, r);
        assert SetRemaining(q, id, r)[1..] == SetRemaining(q[1..], id, r);
      }
    }
  }

  lemma GoodTail(q: seq<Order>, side: Side, p: Price)
    requires q != []
    ensures GoodQueue(q, side, p) ==> GoodQueue(q[1..], side, p)
    ensures InTimeOrder(q) ==> InTimeOrder(q[1..])
  {}

  lemma ReplaceFront(q: seq<Order>, r: Qty, side: Side, p: Price)
    requires q != [] && r > 0
    ensures GoodQueue(q, side, p) ==> GoodQueue([q[0].(remaining := r)] + q[1..], side, p)
    ensures InTimeOrder(q) ==> InTimeOrder([q[0].(remaining := r)] + q[1..])
  {}

  lemma {:induction false} SetRemainingKeeps(q: seq<Order>, id: OrderId, r: Qty, side: Side, p: Price)
    requires r <= Lots(q, id)
    ensures GoodQueue(q, side, p) ==> GoodQueue(SetRemaining(q, id, r), side, p)
    ensures InTimeOrder(q) ==> InTimeOrder(SetRemaining(q, id, r))
  {
    hide GoodQueue, InTimeOrder;
    if q != [] {
      GoodTail(q, side, p);
      if q[0].id == id {
        if r == 0 {
          assert SetRemaining(q, id, r) == q[1..];
        } else {
          ReplaceFront(q, r, side, p);
        }
      } else {
        SetRemainingKeeps(q[1..], id, r, side, p);
        SetRemainingComes(q[1..], id, r);
        FrontKept(q, SetRemaining(q[1..], id, r), side, p);
      }
    }
  }

  lemma FrontKept(q: seq<Order>, rest: seq<Order>, side: Side, p: Price)
    requires q != [] && AllCome(q[1..], rest)
    ensures GoodQueue(q, side, p) && GoodQueue(rest, side, p) ==> GoodQueue([q[0]] + rest, side, p)
    ensures InTimeOrder(q) && InTimeOrder(rest) ==> InTimeOrder([q[0]] + rest)
  {
    forall j | 0 <= j < |rest|
      ensures GoodQueue(q, side, p) ==> rest[j].id != q[0].id
      ensures InTimeOrder(q) ==> q[0].timestamp < rest[j].timestamp
    {
      assert Comes(q[1..], rest[j]);
      var i :| 0 <= i < |q[1..]| && q[1..][i].(remaining := rest[j].remaining) == rest[j];
      assert q[i + 1] == q[1..][i];
    }
  }

  /** Bringing one order down lowers the queue. */
  lemma SetRemainingLowers(q: seq<Order>, id: OrderId, r: Qty, side: Side, p: Price)
    requires r <= Lots(q, id)
    ensures Lowered(q, SetRemaining(q, id, r), side, p)
  {
    hide GoodQueue, InTimeOrder, Comes, Lots, SetRemaining, Total;
    SetRemainingComes(q, id, r);
    SetRemainingTotals(q, id, r);
    SetRemainingKeeps(q, id, r, side, p);
  }

  /** How the lots of each id change. */
  lemma {:induction false} SetRemainingLots(q: seq<Order>, id: OrderId, r: Qty, id': OrderId)
    requires r <= Lots(q, id) && (forall i, j :: 0 <= i < j < |q| ==> q[i].id != q[j].id)
    ensures Lots(SetRemaining(q, id, r), id') == if id' == id then r else Lots(q, id')
  {
    if q != [] {
      if q[0].id == id {
        if r == 0 {
          assert SetRemaining(q, id, r) == q[1..];
          LotsAbsent(q[1..], id);
        } else {
          assert SetRemaining(q, id, r)[1..] == q[1..];
        }
      } else {
        SetRemainingLots(q[1..], id, r, id');
        assert SetRemaining(q, id, r)[1..] == SetRemaining(q[1..], id, r);
      }
    }
  }

  lemma {:induction false} LotsAbsent(q: seq<Order>, id: OrderId)
    requires forall i :: 0 <= i < |q| ==> q[i].id != id
    ensures Lots(q, id) == 0
  {
    if q != [] {
      LotsAbsent(q[1..], id);
    }
  }

  // --- fills and cancels of several orders -----------------------------------------------------

  function FillQty(fills: seq<Fill>): nat {
    if fills == [] then 0 else fills[0].qty + FillQty(fills[1..])
  }

  /** Lots taken from one maker. */
  function FillQtyOf(fills: seq<Fill>, id: OrderId): nat {
    if fills == [] then 0
    else (if fills[0].id == id then fills[0].qty else 0) + FillQtyOf(fills[1..], id)
  }

  ghost predicate DistinctIds(q: seq<Order>) {
    forall i, j :: 0 <= i < j < |q| ==> q[i].id != q[j].id
  }

  lemma GoodIsDistinct(q: seq<Order>, side: Side, p: Price)
    requires GoodQueue(q, side, p)
    ensures DistinctIds(q)
  {}

  lemma FilledLowers(q: seq<Order>, f: Fill, side: Side, p: Price)
    ensures Lowered(q, Filled(q, f), side, p)
  {
    hide Lowered;
    if f.qty <= Lots(q, f.id) {
      SetRemainingLowers(q, f.id, Lots(q, f.id) - f.qty, side, p);
    } else {
      LoweredSame(q, side, p);
    }
  }

  lemma {:induction false} FilledAllLowers(q: seq<Order>, fills: seq<Fill>, side: Side, p: Price)
    ensures Lowered(q, FilledAll(q, fills), side, p)
    decreases |fills|
  {
    hide Lowered, Filled;
    if fills == [] {
      LoweredSame(q, side, p);
    } else {
      FilledLowers(q, fills[0], side, p);
      FilledAllLowers(Filled(q, fills[0]), fills[1..], side, p);
      LoweredTwice(q, Filled(q, fills[0]), FilledAll(q, fills), side, p);
    }
  }

  /** Fills that fit take exactly their lots, each from its own maker. */
  lemma {:induction false} FilledAllLots(q: seq<Order>, fills: seq<Fill>, id: OrderId, side: Side, p: Price)
    requires GoodQueue(q, side, p) && FillsFit(q, fills)
    ensures Lots(FilledAll(q, fills), id) == Lots(q, id) - FillQtyOf(fills, id)
    ensures Total(FilledAll(q, fills)) == Total(q) - FillQty(fills)
    decreases |fills|
  {
    hide GoodQueue, Lots, SetRemaining, Total;
    if fills != [] {
      var f := fills[0];
      FilledLowers(q, f, side, p);
      GoodIsDistinct(q, side, p);
      SetRemainingLots(q, f.id, Lots(q, f.id) - f.qty, id);
      SetRemainingTotals(q, f.id, Lots(q, f.id) - f.qty);
      FilledAllLots(Filled(q, f), fills[1..], id, side, p);
    }
  }

  ghost predicate DistinctFills(fills: seq<Fill>) {
    forall i, j :: 0 <= i < j < |fills| ==> fills[i].id != fills[j].id
  }

  /** Positive fills of distinct makers, each within its order, fit. */
  lemma {:induction false} DistinctFillsFit(q: seq<Order>, fills: seq<Fill>, side: Side, p: Price)
    requires GoodQueue(q, side, p) && DistinctFills(fills)
    requires forall k :: 0 <= k < |fills| ==> 0 < fills[k].qty <= Lots(q, fills[k].id)
    ensures FillsFit(q, fills)
    decreases |fills|
  {
    hide GoodQueue, Lots, SetRemaining, Total;
    if fills != [] {
      var f := fills[0];
      FilledLowers(q, f, side, p);
      GoodIsDistinct(q, side, p);
      forall k | 0 <= k < |fills[1..]|
        ensures 0 < fills[1..][k].qty <= Lots(Filled(q, f), fills[1..][k].id)
      {
        SetRemainingLots(q, f.id, Lots(q, f.id) - f.qty, fills[k + 1].id);
      }
      DistinctFillsFit(Filled(q, f), fills[1..], side, p);
    }
  }

  /** Positive fills fit one after the other exactly when no maker is asked for more than it has in all. */
  lemma {:induction false} FillsFitExact(q: seq<Order>, fills: seq<Fill>, side: Side, p: Price)
    requires GoodQueue(q, side, p) && forall k :: 0 <= k < |fills| ==> fills[k].qty > 0
    ensures FillsFit(q, fills) <==> forall id: OrderId :: FillQtyOf(fills, id) <= Lots(q, id)
    decreases |fills|
  {
    hide GoodQueue, Lots, SetRemaining;
    if fills != [] {
      var f := fills[0];
      if f.qty <= Lots(q, f.id) {
        FilledLowers(q, f, side, p);
        GoodIsDistinct(q, side, p);
        FillsFitExact(Filled(q, f), fills[1..], side, p);
        if FillsFit(q, fills) {
          forall id: OrderId ensures FillQtyOf(fills, id) <= Lots(q, id) {
            assert FillQtyOf(fills[1..], id) <= Lots(Filled(q, f), id);
            SetRemainingLots(q, f.id, Lots(q, f.id) - f.qty, id);
          }
        } else {
          var id: OrderId :| FillQtyOf(fills[1..], id) > Lots(Filled(q, f), id);
          SetRemainingLots(q, f.id, Lots(q, f.id) - f.qty, id);
          assert FillQtyOf(fills, id) > Lots(q, id);
        }
      } else {
        assert FillQtyOf(fills, f.id) > Lots(q, f.id);
      }
    }
  }
}
