/** What self-trade prevention does to a run, and when a checked order still fills under it. */
module SelfTrades {
  import opened Types
  import opened Books
  import opened Queues
  import opened Strategies
  import opened Matching
  import opened Crossings
  import opened Arithmetic
  import opened Prechecks

  // --- the book without one user's orders ----------------------------------------------------------------

  function Others(q: seq<Order>, user: User): seq<Order> {
    if q == [] then []
    else if q[0].user == user then Others(q[1..], user)
    else [q[0]] + Others(q[1..], user)
  }

  /** The book as if `user` had nothing resting on `side`. */
  function WithoutUser(b: Book, side: Side, user: User): Book {
    var m := map p | p in Levels(b, side) && Others(Levels(b, side)[p], user) != [] :: Others(Levels(b, side)[p], user);
    match side
    case Buy => b.(bids := m)
    case Sell => b.(asks := m)
  }

  lemma WithoutUserQueue(b: Book, side: Side, user: User, side': Side, p: Price)
    ensures Queue(WithoutUser(b, side, user), side', p) ==
              if side' == side then Others(Queue(b, side, p), user) else Queue(b, side', p)
  {
    assert Others([], user) == [];
  }

  lemma WithoutUserNoEmpty(b: Book, side: Side, user: User)
    requires NoEmptyLevel(b)
    ensures NoEmptyLevel(WithoutUser(b, side, user))
  {
    hide Others;
    var w := WithoutUser(b, side, user);
    forall side', p | p in Levels(w, side') ensures Queue(w, side', p) != [] {
      if side' != side {
        assert p in Levels(b, side');
      }
    }
  }

  lemma {:induction false} OthersCome(q: seq<Order>, user: User, o: Order)
    ensures o in Others(q, user) <==> o in q && o.user != user
  {
    if q != [] {
      OthersCome(q[1..], user, o);
      assert o in q <==> o == q[0] || o in q[1..];
    }
  }

  lemma {:induction false} OthersTotal(q: seq<Order>, user: User)
    ensures Total(Others(q, user)) <= Total(q)
  {
    if q != [] {
      OthersTotal(q[1..], user);
      if q[0].user != user {
        assert Others(q, user)[1..] == Others(q[1..], user);
      }
    }
  }

  lemma {:induction false} OthersGood(q: seq<Order>, user: User, side: Side, p: Price)
    requires GoodQueue(q, side, p)
    ensures GoodQueue(Others(q, user), side, p)
  {
    if q != [] {
      var rest := Others(q[1..], user);
      assert forall i :: 0 <= i < |q| - 1 ==> q[1..][i] == q[i + 1];
      OthersGood(q[1..], user, side, p);
      forall j | 0 <= j < |rest| ensures rest[j].id != q[0].id {
        OthersCome(q[1..], user, rest[j]);
        var i :| 0 <= i < |q[1..]| && q[1..][i] == rest[j];
      }
      GoodFront(q[0], rest, side, p);
    }
  }

  lemma GoodFront(o: Order, q: seq<Order>, side: Side, p: Price)
    requires GoodQueue(q, side, p) && o.side == side && o.price == p && o.remaining > 0
    requires forall j :: 0 <= j < |q| ==> q[j].id != o.id
    ensures GoodQueue([o] + q, side, p)
  {}

  lemma WithoutUserSound(b: Book, side: Side, user: User)
    requires Sound(b)
    ensures Sound(WithoutUser(b, side, user))
  {
    hide WithoutUser, Others, GoodQueue, Total;
    var w := WithoutUser(b, side, user);
    WithoutUserNoEmpty(b, side, user);
    forall side', p
      ensures GoodQueue(Queue(w, side', p), side', p) && Total(Queue(w, side', p)) <= U64_MAX
      ensures forall o :: o in Queue(w, side', p) ==> o in Queue(b, side', p)
    {
      WithoutUserQueue(b, side, user, side', p);
      GoodAt(b, side', p);
      OthersGood(Queue(b, side', p), user, side', p);
      OthersTotal(Queue(b, side', p), user);
      forall o ensures o in Queue(w, side', p) ==> o in Queue(b, side', p) {
        OthersCome(Queue(b, side', p), user, o);
      }
    }
    forall o, o' | Rests(w, o) && Rests(w, o') && o.id == o'.id ensures o == o' {
      assert Rests(b, o) && Rests(b, o');
    }
  }

  // --- queues without the user ------------------------------------------------------------------------------

  ghost predicate NotOwn(q: seq<Order>, id: OrderId, user: User) {
    forall i :: 0 <= i < |q| && q[i].id == id ==> q[i].user != user
  }

  ghost predicate AllOwn(q: seq<Order>, ids: seq<OrderId>, user: User) {
    forall i :: 0 <= i < |q| && q[i].id in ids ==> q[i].user == user
  }

  lemma {:induction false} OthersCancelled(q: seq<Order>, id: OrderId, user: User)
    requires forall i :: 0 <= i < |q| && q[i].id == id ==> q[i].user == user
    ensures Others(SetRemaining(q, id, 0), user) == Others(q, user)
    ensures forall o :: o in SetRemaining(q, id, 0) ==> o in q
  {
    if q != [] {
      if q[0].id == id {
        assert SetRemaining(q, id, 0) == q[1..];
      } else {
        assert forall i :: 0 <= i < |q| - 1 ==> q[1..][i] == q[i + 1];
        OthersCancelled(q[1..], id, user);
        assert SetRemaining(q, id, 0)[1..] == SetRemaining(q[1..], id, 0);
      }
    }
  }

  /** Cancelling own makers changes nothing of the others. */
  lemma {:induction false} OthersPulled(q: seq<Order>, ids: seq<OrderId>, user: User)
    requires AllOwn(q, ids, user)
    ensures Others(Pulled(q, ids), user) == Others(q, user)
    decreases |ids|
  {
    if ids != [] {
      var q' := SetRemaining(q, ids[0], 0);
      assert ids[0] in ids;
      OthersCancelled(q, ids[0], user);
      forall i | 0 <= i < |q'| && q'[i].id in ids[1..] ensures q'[i].user == user {
        assert q'[i] in q && q'[i].id in ids;
      }
      OthersPulled(q', ids[1..], user);
    }
  }

  lemma {:induction false} OthersSet(q: seq<Order>, id: OrderId, r: Qty, user: User)
    requires NotOwn(q, id, user)
    ensures Others(SetRemaining(q, id, r), user) == SetRemaining(Others(q, user), id, r)
    ensures Lots(Others(q, user), id) == Lots(q, id)
  {
    if q != [] {
      var s := SetRemaining(q, id, r);
      assert forall i :: 0 <= i < |q| - 1 ==> q[1..][i] == q[i + 1];
      if q[0].id == id {
        assert s[(if r == 0 then 0 else 1)..] == q[1..];
        assert Others(q, user)[1..] == Others(q[1..], user);
      } else {
        OthersSet(q[1..], id, r, user);
        assert s[0] == q[0] && s[1..] == SetRemaining(q[1..], id, r);
        if q[0].user != user {
          assert Others(q, user)[1..] == Others(q[1..], user);
        }
      }
    }
  }

  lemma {:induction false} NotOwnSet(q: seq<Order>, id: OrderId, r: Qty, user: User, other: OrderId)
    requires NotOwn(q, other, user)
    ensures NotOwn(SetRemaining(q, id, r), other, user)
  {
    if q != [] {
      var s := SetRemaining(q, id, r);
      assert forall i :: 0 <= i < |q| - 1 ==> q[1..][i] == q[i + 1];
      if q[0].id == id {
        assert s[(if r == 0 then 0 else 1)..] == q[1..];
      } else {
        NotOwnSet(q[1..], id, r, user, other);
      }
    }
  }

  /** Fills of the others' orders are the same with or without the user's orders around. */
  lemma {:induction false} OthersFilled(q: seq<Order>, fills: seq<Fill>, user: User)
    requires forall k :: 0 <= k < |fills| ==> NotOwn(q, fills[k].id, user)
    ensures Others(FilledAll(q, fills), user) == FilledAll(Others(q, user), fills)
    decreases |fills|
  {
    hide Others, SetRemaining, Lots;
    if fills != [] {
      var f := fills[0];
      var left: Qty := if f.qty <= Lots(q, f.id) then Lots(q, f.id) - f.qty else 0;
      OthersSet(q, f.id, left, user);
      var q' := Filled(q, f);
      forall k | 0 <= k < |fills[1..]| ensures NotOwn(q', fills[1..][k].id, user) {
        assert NotOwn(q, fills[k + 1].id, user);
        NotOwnSet(q, f.id, left, user, fills[k + 1].id);
      }
      OthersFilled(q', fills[1..], user);
    }
  }

  lemma {:induction false} OthersOfNone(q: seq<Order>, user: User)
    requires !HasOwn(q, user)
    ensures Others(q, user) == q
  {
    if q != [] {
      assert q[0].user != user;
      OthersOfNone(q[1..], user);
    }
  }

  lemma {:induction false} CappedOthers(q: seq<Order>, cap: int, user: User)
    requires !HasOwn(Capped(q, cap), user)
    ensures Capped(Others(q, user), cap) == Capped(q, cap)
  {
    if q != [] {
      var v := Capped(q, cap);
      assert v[0] == q[0] && v[0].user != user;
      assert Others(q, user)[0] == q[0] && Others(q, user)[1..] == Others(q[1..], user);
      if q[0].remaining < cap {
        assert v[1..] == Capped(q[1..], cap - q[0].remaining);
        forall i | 0 <= i < |v[1..]| ensures v[1..][i].user != user {
          assert v[1..][i] == v[i + 1];
        }
        CappedOthers(q[1..], cap - q[0].remaining, user);
      }
    }
  }

  /** A view without own orders is what the strategy would be shown without them. */
  lemma ShownOthers(s: Strategy, q: seq<Order>, n: Qty, user: User)
    requires !HasOwn(Shown(s, q, n), user)
    ensures Shown(s, Others(q, user), n) == Shown(s, q, n)
  {
    if s.fullLevelRequired {
      OthersOfNone(q, user);
    } else {
      CappedOthers(q, n, user);
    }
  }

  // --- cancel-maker: the taker trades as if its user had nothing resting ------------------------------------

  function Allowing(r: Rules): Rules {
    r.(policy := Allow)
  }

  lemma WithoutUserLevels(b: Book, side: Side, user: User)
    ensures forall p :: p in Levels(WithoutUser(b, side, user), side) ==> p in Levels(b, side)
  {}

  lemma WithoutUserWith(b: Book, side: Side, user: User, p: Price, q: seq<Order>)
    requires NoEmptyLevel(b)
    ensures WithoutUser(WithQueue(b, side, p, q), side, user)
         == WithQueue(WithoutUser(b, side, user), side, p, Others(q, user))
  {
    hide WithoutUser, WithQueue, Others, Queue, NoEmptyLevel;
    var l, r := WithoutUser(WithQueue(b, side, p, q), side, user),
      WithQueue(WithoutUser(b, side, user), side, p, Others(q, user));
    WithQueueNoEmpty(b, side, p, q);
    WithoutUserNoEmpty(WithQueue(b, side, p, q), side, user);
    WithoutUserNoEmpty(b, side, user);
    WithQueueNoEmpty(WithoutUser(b, side, user), side, p, Others(q, user));
    forall side', p' ensures Queue(l, side', p') == Queue(r, side', p') {
      WithoutUserQueue(WithQueue(b, side, p, q), side, user, side', p');
      QueueWithQueue(b, side, p, q, side', p');
      QueueWithQueue(WithoutUser(b, side, user), side, p, Others(q, user), side', p');
      WithoutUserQueue(b, side, user, side', p');
    }
    SameQueues(l, r);
  }

  lemma SoundNoEmpty(b: Book)
    requires Sound(b)
    ensures NoEmptyLevel(b)
  {}

  /** Own makers pulled off a level leave the others' book as it was. */
  lemma PullKeepsOthers(r: Rules, b: Book, o: Order, budget: nat)
    requires Sound(b) && OneRound(r, b, o, budget).Pull?
    ensures WithoutUser(OneRound(r, b, o, budget).book, o.side.Opposite(), o.user) ==
            WithoutUser(b, o.side.Opposite(), o.user)
  {
    hide Best, Sound, WithQueue, Pulled, Capped, GoodQueue, Positive, Total, TotalSeen, WithoutUser, Others;
    var side := o.side.Opposite();
    ShownIsFront(r, b, o, budget);
    var px, q, v := Best(b, side).value, Level(b, o), ShownLevel(r, b, o, budget);
    var ids := OwnIds(v, o.user);
    PulledAreOwn(q, v, o.user, side, px);
    OthersPulled(q, ids, o.user);
    SoundNoEmpty(b);
    WithoutUserWith(b, side, o.user, px, Pulled(q, ids));
    WithoutUserQueue(b, side, o.user, side, px);
    WithoutUserNoEmpty(b, side, o.user);
    WithSameQueue(WithoutUser(b, side, o.user), side, px);
  }

  lemma PulledAreOwn(q: seq<Order>, v: seq<Order>, user: User, side: Side, p: Price)
    requires GoodQueue(q, side, p) && |v| <= |q| && v == q[..|v|]
    ensures AllOwn(q, OwnIds(v, user), user)
  {
    forall i | 0 <= i < |q| && q[i].id in OwnIds(v, user) ensures q[i].user == user {
      OwnIdsAre(v, user, q[i].id);
      var j :| 0 <= j < |v| && v[j].user == user && v[j].id == q[i].id;
      assert v[j] == q[j];
    }
  }

  lemma PulledByRound(r: Rules, b: Book, o: Order, budget: nat, id: OrderId)
    requires Sound(b) && var rd := OneRound(r, b, o, budget); (rd.Pull? || rd.StopTaker?) && id in rd.pulled
    ensures exists m :: Rests(b, m) && m.id == id && m.user == o.user && m.side == o.side.Opposite()
  {
    hide Best, Sound, WithQueue, Pulled, Capped, Positive, Total, TotalSeen;
    var side := o.side.Opposite();
    ShownIsFront(r, b, o, budget);
    var q, v := Level(b, o), ShownLevel(r, b, o, budget);
    OwnIdsAre(v, o.user, id);
    var j :| 0 <= j < |v| && v[j].user == o.user && v[j].id == id;
    assert v[j] == q[j];
    assert Rests(b, q[j]);
  }

  /** Self-trade prevention pulls the taker's own makers and nobody else's. */
  lemma {:induction false} PulledWereOwn(r: Rules, b: Book, o: Order, budget: nat, id: OrderId)
    requires Sound(b) && Lawful(r.strategy) && id in Cross(r, b, o, budget).pulled
    ensures exists m :: Rests(b, m) && m.id == id && m.user == o.user && m.side == o.side.Opposite()
    decreases o.remaining, |Resting(b)|
  {
    hide Sound, Lawful, OneRound, Resting, Rests;
    RoundProgress(r, b, o, budget);
    var rd := OneRound(r, b, o, budget);
    if (rd.Pull? || rd.StopTaker?) && id in rd.pulled {
      PulledByRound(r, b, o, budget, id);
    } else {
      var o' := if rd.Fills? then o.(remaining := rd.remaining) else o;
      PulledWereOwn(r, rd.book, o', if rd.Fills? then rd.budget else budget, id);
      var m :| Rests(rd.book, m) && m.id == id && m.user == o.user && m.side == o.side.Opposite();
      RoundLowers(r, b, o, budget, m);
    }
  }

  /** A trading round that met no own maker is the same round on the others' book. */
  lemma FillsKeepOthers(r: Rules, b: Book, o: Order, budget: nat)
    requires Sound(b) && Lawful(r.strategy) && OneRound(r, b, o, budget).Fills? && Prevents(r.policy, o.user)
    ensures var side, rd := o.side.Opposite(), OneRound(r, b, o, budget);
            var rd' := OneRound(Allowing(r), WithoutUser(b, side, o.user), o, budget);
            && rd'.Fills? && rd'.remaining == rd.remaining && rd'.budget == rd.budget && rd'.trades == rd.trades
            && rd'.book == WithoutUser(rd.book, side, o.user)
  {
    hide Best, Sound, Lawful, WithQueue, FilledAll, Capped, Positive, Total, TotalSeen, WithoutUser, Others, Honours,
      FillsFit;
    var side := o.side.Opposite();
    TradingRound(r, b, o, budget);
    ShownIsFront(r, b, o, budget);
    var w := WithoutUser(b, side, o.user);
    var px, q, v, n, out := Best(b, side).value, Level(b, o), ShownLevel(r, b, o, budget), Wanted(r, b, o, budget),
      Answer(r, b, o, budget);
    ShownOthers(r.strategy, q, n, o.user);
    WithoutUserQueue(b, side, o.user, side, px);
    OthersBest(b, side, o.user, px, v);
    assert Level(w, o) == Others(q, o.user) && ShownLevel(Allowing(r), w, o, budget) == v;
    AnswerFits(q, v, n, out, side, px);
    FillsAreOthers(q, v, out, o.user, side, px);
    OthersFilled(q, FillsOf(out), o.user);
    SoundNoEmpty(b);
    WithoutUserWith(b, side, o.user, px, FilledAll(q, FillsOf(out)));
    assert TradesOf(Allowing(r), o, px, v, out) == TradesOf(r, o, px, v, out);
  }

  lemma FillsAreOthers(q: seq<Order>, v: seq<Order>, out: seq<Allocation>, user: User, side: Side, p: Price)
    requires GoodQueue(q, side, p) && |v| <= |q| && v == q[..|v|] && !HasOwn(v, user)
    requires forall k :: 0 <= k < |out| ==> out[k].idx < |v| && out[k].id == v[out[k].idx].id
    ensures forall k :: 0 <= k < |FillsOf(out)| ==> NotOwn(q, FillsOf(out)[k].id, user)
  {
    forall k | 0 <= k < |out| ensures NotOwn(q, FillsOf(out)[k].id, user) {
      assert q[out[k].idx] == v[out[k].idx];
    }
  }

  lemma OthersBest(b: Book, side: Side, user: User, px: Price, v: seq<Order>)
    requires Best(b, side) == Some(px) && v != [] && !HasOwn(v, user)
    requires |v| <= |Queue(b, side, px)| && v == Queue(b, side, px)[..|v|]
    ensures Best(WithoutUser(b, side, user), side) == Some(px)
  {
    BestIsBest(b, side);
    hide Best;
    WithoutUserQueue(b, side, user, side, px);
    WithoutUserLevels(b, side, user);
    var q := Queue(b, side, px);
    assert q[0] == v[0];
    OthersCome(q, user, q[0]);
    BestIs(WithoutUser(b, side, user), side, px);
  }

  /** Where the run ends on the whole book, it ends on the others' book. */
  lemma HaltKeepsOthers(r: Rules, b: Book, o: Order, budget: nat)
    requires Sound(b) && Lawful(r.strategy) && OneRound(r, b, o, budget).Halt?
    requires o.side.Buy? || Ample(budget, o.remaining)
    ensures OneRound(Allowing(r), WithoutUser(b, o.side.Opposite(), o.user), o, budget).Halt?
  {
    hide Sound, Lawful, OneRound, WithoutUser, Ample, Best;
    var side := o.side.Opposite();
    var w := WithoutUser(b, side, o.user);
    HaltMeans(r, b, o, budget);
    if Best(w, side).Some? {
      BestIsBest(w, side);
      WithoutUserLevels(b, side, o.user);
      assert Best(w, side).value in Levels(b, side);
      BestExists(b, side, Best(w, side).value);
      HaltWorse(o, budget, Best(b, side).value, Best(w, side).value);
    }
    HaltWhen(Allowing(r), w, o, budget);
  }

  lemma BestExists(b: Book, side: Side, p: Price)
    requires p in Levels(b, side)
    ensures Best(b, side).Some? && !Better(side, p, Best(b, side).value)
  {}

  lemma HaltWhen(r: Rules, b: Book, o: Order, budget: nat)
    requires var best := Best(b, o.side.Opposite());
             o.remaining == 0 || best.None? || !Crosses(o, best.value)
               || Affordable(budget, best.value, o.remaining) == 0
    ensures OneRound(r, b, o, budget).Halt?
  {
    hide Best, Affordable, Crosses;
  }

  lemma HaltWorse(o: Order, budget: nat, px: Price, px': Price)
    requires !Better(o.side.Opposite(), px', px)
    requires o.remaining == 0 || !Crosses(o, px) || Affordable(budget, px, o.remaining) == 0
    requires o.side.Buy? || Ample(budget, o.remaining)
    ensures o.remaining == 0 || !Crosses(o, px') || Affordable(budget, px', o.remaining) == 0
  {
    hide Ample, Affordable;
    if o.remaining == 0 || !Crosses(o, px) {
    } else if o.side.Buy? {
      AffordableDrops(budget, px, px', o.remaining);
    } else {
      AmpleAffords(budget, px, o.remaining);
    }
  }

  lemma AffordableDrops(budget: nat, px: Price, px': Price, remaining: Qty)
    requires px <= px' && remaining > 0 && Affordable(budget, px, remaining) == 0
    ensures Affordable(budget, px', remaining) == 0
  {
    var d, d' := if px == 0 then 1 else px, if px' == 0 then 1 else px';
    if budget >= d {
      QuotientAtLeast(budget, d, 1);
    }
    DivisionLaw(budget, d');
    if budget / d' >= 1 {
      MulMono(d', 1, budget / d');
    }
  }

  /**
   Under cancel-maker an order makes exactly the trades it would make if its user had nothing
   resting on the side it hits.
   */
  lemma {:induction false} CancelMakerIsAbsence(r: Rules, b: Book, o: Order, budget: nat)
    requires Sound(b) && Lawful(r.strategy) && r.policy.CancelMaker? && o.user != 0
    requires o.side.Buy? || Ample(budget, o.remaining)
    ensures Sound(WithoutUser(b, o.side.Opposite(), o.user))
    ensures var c, side := Cross(r, b, o, budget), o.side.Opposite();
            var d := Cross(Allowing(r), WithoutUser(b, side, o.user), o, budget);
            && c.trades == d.trades && c.remaining == d.remaining && c.budget == d.budget && !c.stopped
            && WithoutUser(c.book, side, o.user) == d.book
    decreases o.remaining, |Resting(b)|
  {
    hide Sound, Lawful, OneRound, Resting, WithoutUser, Ample;
    var side := o.side.Opposite();
    WithoutUserSound(b, side, o.user);
    RoundProgress(r, b, o, budget);
    NeverStopped(r, b, o, budget);
    match OneRound(r, b, o, budget)
    case Halt =>
      HaltKeepsOthers(r, b, o, budget);
    case Pull(b', ids) =>
      PullKeepsOthers(r, b, o, budget);
      CancelMakerIsAbsence(r, b', o, budget);
    case Fills(b', remaining, budget', ts) =>
      FillsKeepOthers(r, b, o, budget);
      if o.side.Sell? {
        AmpleRound(r, b, o, budget);
      }
      CancelMakerIsAbsence(r, b', o.(remaining := remaining), budget');
  }

  lemma NeverStopped(r: Rules, b: Book, o: Order, budget: nat)
    requires r.policy.CancelMaker?
    ensures !OneRound(r, b, o, budget).StopTaker?
  {
    hide Best, WithQueue, FilledAll, Pulled, Capped;
  }

  // --- cancel-taker and cancel-both: the run is cut short ------------------------------------------------------

  predicate StopsTaker(policy: SelfTradePolicy) {
    policy.CancelTaker? || policy.CancelBoth?
  }

  /** Orders ahead of the first one of `user`. */
  function Front(q: seq<Order>, user: User): seq<Order> {
    if q == [] || q[0].user == user then [] else [q[0]] + Front(q[1..], user)
  }

  /** Crossable lots the taker reaches before it is shown an own maker. */
  ghost function LotsAhead(s: Strategy, b: Book, side: Side, limit: Price, user: User): nat
    decreases |Levels(b, side)|
  {
    var best := Best(b, side);
    if best.None? || Better(side, limit, best.value) then 0
    else
      WithoutSmaller(b, side, best.value);
      var q := Queue(b, side, best.value);
      if HasOwn(q, user) then (if s.fullLevelRequired then 0 else Total(Front(q, user)))
      else Total(q) + LotsAhead(s, Without(b, side, best.value), side, limit, user)
  }

  /** A run that is not stopped is the run without prevention. */
  lemma {:induction false} NotStoppedIsAllowed(r: Rules, b: Book, o: Order, budget: nat)
    requires Sound(b) && Lawful(r.strategy) && StopsTaker(r.policy)
    ensures !Cross(r, b, o, budget).stopped ==> Cross(r, b, o, budget) == Cross(Allowing(r), b, o, budget)
    ensures Cross(r, b, o, budget).stopped ==> Cross(r, b, o, budget).remaining > 0
    decreases o.remaining, |Resting(b)|
  {
    hide Sound, Lawful, OneRound, Resting;
    RoundProgress(r, b, o, budget);
    RoundProgress(Allowing(r), b, o, budget);
    StopOrSame(r, b, o, budget);
    match OneRound(r, b, o, budget)
    case Halt =>
    case StopTaker(_, _) =>
    case Fills(b', remaining, budget', ts) =>
      NotStoppedIsAllowed(r, b', o.(remaining := remaining), budget');
  }

  lemma StopOrSame(r: Rules, b: Book, o: Order, budget: nat)
    requires StopsTaker(r.policy)
    ensures !OneRound(r, b, o, budget).Pull?
    ensures OneRound(r, b, o, budget).StopTaker? ==> o.remaining > 0
    ensures !OneRound(r, b, o, budget).StopTaker? ==> OneRound(r, b, o, budget) == OneRound(Allowing(r), b, o, budget)
  {
    hide Best, WithQueue, FilledAll, Pulled, Capped;
    var best := Best(b, o.side.Opposite());
    if best.Some? {
      var px, q, v, out := best.value, Level(b, o), ShownLevel(r, b, o, budget), Answer(r, b, o, budget);
      assert TradesOf(Allowing(r), o, px, v, out) == TradesOf(r, o, px, v, out);
    }
  }

  lemma {:induction false} FrontTotals(q: seq<Order>, cap: int, user: User)
    requires HasOwn(q, user)
    ensures HasOwn(Capped(q, cap), user) <==> Total(Front(q, user)) < cap || q[0].user == user
  {
    var v := Capped(q, cap);
    assert v[0] == q[0];
    if q[0].user != user {
      var i :| 0 <= i < |q| && q[i].user == user;
      assert q[1..][i - 1] == q[i];
      assert Front(q, user)[1..] == Front(q[1..], user);
      if q[0].remaining < cap {
        FrontTotals(q[1..], cap - q[0].remaining, user);
        OwnBehind(q, cap, user);
      }
    }
  }

  lemma OwnBehind(q: seq<Order>, cap: int, user: User)
    requires q != [] && q[0].user != user && q[0].remaining < cap
    ensures HasOwn(Capped(q, cap), user) <==> HasOwn(Capped(q[1..], cap - q[0].remaining), user)
  {
    var v, w := Capped(q, cap), Capped(q[1..], cap - q[0].remaining);
    assert v == [q[0]] + w;
    assert forall i :: 0 <= i < |w| ==> v[i + 1] == w[i];
    assert forall i :: 0 < i < |v| ==> v[i] == w[i - 1];
  }

  lemma {:induction false} FrontSplits(q: seq<Order>, user: User)
    ensures |Front(q, user)| <= |q| && Front(q, user) == q[..|Front(q, user)|]
    ensures forall i :: 0 <= i < |Front(q, user)| ==> q[i].user != user
    ensures HasOwn(q, user) <==> |Front(q, user)| < |q|
    ensures |Front(q, user)| < |q| ==> q[|Front(q, user)|].user == user
  {
    if q != [] && q[0].user != user {
      FrontSplits(q[1..], user);
      assert forall i :: 0 <= i < |q| - 1 ==> q[1..][i] == q[i + 1];
      assert HasOwn(q, user) <==> HasOwn(q[1..], user);
    }
  }

  lemma {:induction false} FrontOfJoin(f: seq<Order>, r: seq<Order>, user: User)
    requires r != [] && r[0].user == user && forall i :: 0 <= i < |f| ==> f[i].user != user
    ensures Front(f + r, user) == f
  {
    if f == [] {
      assert f + r == r;
    } else {
      assert (f + r)[1..] == f[1..] + r;
      FrontOfJoin(f[1..], r, user);
    }
  }

  lemma {:induction false} SetRemainingSplit(f: seq<Order>, r: seq<Order>, id: OrderId, x: Qty)
    requires forall i :: 0 <= i < |r| ==> r[i].id != id
    ensures SetRemaining(f + r, id, x) == SetRemaining(f, id, x) + r
    ensures Lots(f + r, id) == Lots(f, id)
  {
    if f == [] {
      assert f + r == r;
      NotThere(r, id, x);
    } else {
      assert (f + r)[0] == f[0] && (f + r)[1..] == f[1..] + r;
      SetRemainingSplit(f[1..], r, id, x);
      var first := if f[0].id != id then [f[0]] else if x == 0 then [] else [f[0].(remaining := x)];
      var rest := if f[0].id != id then SetRemaining(f[1..], id, x) else f[1..];
      assert first + (rest + r) == (first + rest) + r;
    }
  }

  lemma {:induction false} NotThere(r: seq<Order>, id: OrderId, x: Qty)
    requires forall i :: 0 <= i < |r| ==> r[i].id != id
    ensures SetRemaining(r, id, x) == r && Lots(r, id) == 0
  {
    if r != [] {
      NotThere(r[1..], id, x);
    }
  }

  lemma {:induction false} FilledSplit(f: seq<Order>, r: seq<Order>, fills: seq<Fill>)
    requires forall k, i :: 0 <= k < |fills| && 0 <= i < |r| ==> r[i].id != fills[k].id
    ensures FilledAll(f + r, fills) == FilledAll(f, fills) + r
    decreases |fills|
  {
    hide SetRemaining, Lots;
    if fills != [] {
      var x: Qty := if fills[0].qty <= Lots(f, fills[0].id) then Lots(f, fills[0].id) - fills[0].qty else 0;
      SetRemainingSplit(f, r, fills[0].id, x);
      FilledSplit(Filled(f, fills[0]), r, fills[1..]);
    }
  }

  /** Fills within a view that shows no own maker come off the front ahead of the first one. */
  lemma FrontFilled(q: seq<Order>, v: seq<Order>, out: seq<Allocation>, user: User, side: Side, p: Price)
    requires GoodQueue(q, side, p) && |v| <= |q| && v == q[..|v|] && !HasOwn(v, user) && HasOwn(q, user)
    requires FillsFit(q, FillsOf(out))
    requires forall k :: 0 <= k < |out| ==> out[k].idx < |v| && out[k].id == v[out[k].idx].id
    ensures var q' := FilledAll(q, FillsOf(out));
            q' != [] && HasOwn(q', user) && Total(Front(q', user)) == Total(Front(q, user)) - FillQty(FillsOf(out))
  {
    hide Front, FilledAll, Total, FillsFit, Lowered, HasOwn;
    FrontSplits(q, user);
    var f, fills := Front(q, user), FillsOf(out);
    var r := q[|f|..];
    assert q == f + r;
    ViewInFront(v, q, |f|, user);
    forall k, i | 0 <= k < |fills| && 0 <= i < |r| ensures r[i].id != fills[k].id {
      assert r[i] == q[|f| + i] && q[out[k].idx] == v[out[k].idx];
    }
    FilledSplit(f, r, fills);
    FilledAllLots(q, fills, 0, side, p);
    TotalConcat(f, r);
    TotalConcat(FilledAll(f, fills), r);
    FilledAllLowers(f, fills, side, p);
    FilledNotOwn(f, FilledAll(f, fills), user, side, p);
    FrontOfJoin(FilledAll(f, fills), r, user);
    FrontSplits(FilledAll(q, fills), user);
  }

  lemma ViewInFront(v: seq<Order>, q: seq<Order>, n: nat, user: User)
    requires |v| <= |q| && v == q[..|v|] && !HasOwn(v, user) && n < |q| && q[n].user == user
    ensures |v| <= n
  {
    assert forall i :: 0 <= i < |v| ==> v[i] == q[i] && v[i].user != user;
  }

  lemma FilledNotOwn(f: seq<Order>, f': seq<Order>, user: User, side: Side, p: Price)
    requires Lowered(f, f', side, p) && forall i :: 0 <= i < |f| ==> f[i].user != user
    ensures forall i :: 0 <= i < |f'| ==> f'[i].user != user
  {
    forall i | 0 <= i < |f'| ensures f'[i].user != user {
      assert Comes(f, f'[i]);
    }
  }

  // --- when a taker-stopping policy lets an order through --------------------------------------------------------

  lemma AheadPartial(s: Strategy, b: Book, side: Side, limit: Price, user: User, px: Price, q': seq<Order>)
    requires Best(b, side) == Some(px) && !Better(side, limit, px) && !HasOwn(Queue(b, side, px), user)
    requires !HasOwn(q', user) && Total(q') <= Total(Queue(b, side, px))
    ensures LotsAhead(s, WithQueue(b, side, px, q'), side, limit, user) ==
              LotsAhead(s, b, side, limit, user) - (Total(Queue(b, side, px)) - Total(q'))
  {
    hide Best, WithQueue, Without, Better, HasOwn, Front;
    BestAfterPartial(b, side, px, q');
  }

  lemma AheadOwn(s: Strategy, b: Book, side: Side, limit: Price, user: User, px: Price, q': seq<Order>)
    requires Best(b, side) == Some(px) && !Better(side, limit, px) && q' != [] && HasOwn(q', user)
             && !s.fullLevelRequired
    ensures LotsAhead(s, WithQueue(b, side, px, q'), side, limit, user) == Total(Front(q', user))
  {
    hide Best, WithQueue, Without, Better, HasOwn, Front;
    BestAfterPartial(b, side, px, q');
  }

  lemma AheadTraded(r: Rules, b: Book, o: Order, budget: nat)
    requires Sound(b) && Lawful(r.strategy) && OneRound(r, b, o, budget).Fills?
    requires !HasOwn(ShownLevel(r, b, o, budget), o.user)
    ensures var rd, side, limit := OneRound(r, b, o, budget), o.side.Opposite(), EffectiveLimit(o);
            LotsAhead(r.strategy, b, side, limit, o.user) - LotsAhead(r.strategy, rd.book, side, limit, o.user) ==
              o.remaining - rd.remaining
  {
    hide Best, Sound, Lawful, WithQueue, FilledAll, Capped, Positive, Total, TotalSeen, Honours, FillsFit, LotsAhead,
      Front, EffectiveLimit, HasOwn, Prevents;
    var side, limit := o.side.Opposite(), EffectiveLimit(o);
    TradingRound(r, b, o, budget);
    ShownIsFront(r, b, o, budget);
    var px, q, v, n, out := Best(b, side).value, Level(b, o), ShownLevel(r, b, o, budget), Wanted(r, b, o, budget),
      Answer(r, b, o, budget);
    var q' := FilledAll(q, FillsOf(out));
    AnswerFits(q, v, n, out, side, px);
    CrossesWithin(o, px);
    FilledAllLots(q, FillsOf(out), 0, side, px);
    FillQtyIsAllocated(out);
    if HasOwn(q, o.user) {
      NotFull(r.strategy, q, n, o.user);
      FrontFilled(q, v, out, o.user, side, px);
      AheadOwn(r.strategy, b, side, limit, o.user, px, q');
      AheadHere(r.strategy, b, side, limit, o.user, px);
    } else {
      NoOwnAfter(q, FillsOf(out), o.user, side, px);
      AheadPartial(r.strategy, b, side, limit, o.user, px, q');
    }
  }

  lemma AheadHere(s: Strategy, b: Book, side: Side, limit: Price, user: User, px: Price)
    requires Best(b, side) == Some(px) && !Better(side, limit, px) && HasOwn(Queue(b, side, px), user)
    ensures LotsAhead(s, b, side, limit, user) ==
              if s.fullLevelRequired then 0 else Total(Front(Queue(b, side, px), user))
  {
    hide Best, Without, Better, HasOwn, Front;
  }

  lemma NotFull(s: Strategy, q: seq<Order>, n: Qty, user: User)
    requires HasOwn(q, user) && !HasOwn(Shown(s, q, n), user)
    ensures !s.fullLevelRequired
  {}

  lemma NoOwnAfter(q: seq<Order>, fills: seq<Fill>, user: User, side: Side, p: Price)
    requires !HasOwn(q, user)
    ensures !HasOwn(FilledAll(q, fills), user)
  {
    hide FilledAll, Lowered;
    FilledAllLowers(q, fills, side, p);
    FilledNotOwn(q, FilledAll(q, fills), user, side, p);
  }

  lemma StoppedBehind(r: Rules, b: Book, o: Order, budget: nat)
    requires Sound(b) && Lawful(r.strategy) && OneRound(r, b, o, budget).StopTaker?
    ensures LotsAhead(r.strategy, b, o.side.Opposite(), EffectiveLimit(o), o.user) < o.remaining
  {
    hide Best, Sound, Lawful, WithQueue, FilledAll, Pulled, Capped, Positive, Total, TotalSeen, LotsAhead,
      EffectiveLimit;
    var side, limit := o.side.Opposite(), EffectiveLimit(o);
    ShownIsFront(r, b, o, budget);
    var px, q, v, n := Best(b, side).value, Level(b, o), ShownLevel(r, b, o, budget), Wanted(r, b, o, budget);
    var i :| 0 <= i < |v| && v[i].user == o.user;
    assert q[i].user == o.user;
    CrossesWithin(o, px);
    AheadHere(r.strategy, b, side, limit, o.user, px);
    if !r.strategy.fullLevelRequired {
      FrontTotals(q, n, o.user);
      NoFront(q, o.user);
    }
  }

  lemma NoFront(q: seq<Order>, user: User)
    ensures q != [] && q[0].user == user ==> Total(Front(q, user)) == 0
  {}

  /**
   Under a policy that cancels the taker, an order that would fill completely without
   prevention is stopped exactly when it is shown an own maker too early.
   */
  lemma {:induction false} StoppedWhen(r: Rules, b: Book, o: Order, budget: nat)
    requires Sound(b) && Lawful(r.strategy) && StopsTaker(r.policy) && o.user != 0
    requires Cross(Allowing(r), b, o, budget).remaining == 0
    ensures Cross(r, b, o, budget).stopped <==>
              LotsAhead(r.strategy, b, o.side.Opposite(), EffectiveLimit(o), o.user) < o.remaining
    decreases o.remaining, |Resting(b)|
  {
    hide Sound, Lawful, OneRound, Resting, LotsAhead;
    RoundProgress(r, b, o, budget);
    RoundProgress(Allowing(r), b, o, budget);
    StopOrSame(r, b, o, budget);
    match OneRound(r, b, o, budget)
    case Halt =>
    case StopTaker(_, _) =>
      StoppedBehind(r, b, o, budget);
    case Fills(b', remaining, budget', ts) =>
      FillsShownNoOwn(r, b, o, budget);
      AheadTraded(r, b, o, budget);
      StoppedWhen(r, b', o.(remaining := remaining), budget');
  }

  /** An own maker shown is among the crossable lots, behind those counted as ahead. */
  lemma OwnIsCrossable(r: Rules, b: Book, o: Order, budget: nat)
    requires Sound(b) && Lawful(r.strategy) && OneRound(r, b, o, budget).StopTaker?
    ensures var side, limit := o.side.Opposite(), EffectiveLimit(o);
            LotsAhead(r.strategy, b, side, limit, o.user) < CrossableLots(b, side, limit)
  {
    hide Best, Sound, Lawful, WithQueue, FilledAll, Pulled, Capped, Positive, TotalSeen, LotsAhead, EffectiveLimit,
      Front;
    var side, limit := o.side.Opposite(), EffectiveLimit(o);
    ShownIsFront(r, b, o, budget);
    var px, q, v := Best(b, side).value, Level(b, o), ShownLevel(r, b, o, budget);
    var i :| 0 <= i < |v| && v[i].user == o.user;
    assert q[i].user == o.user;
    CrossesWithin(o, px);
    AheadHere(r.strategy, b, side, limit, o.user, px);
    SoundAt(b, side, px);
    FrontIsLess(q, o.user, side, px);
  }

  lemma SoundAt(b: Book, side: Side, p: Price)
    requires Sound(b)
    ensures GoodQueue(Queue(b, side, p), side, p)
  {}

  lemma FrontIsLess(q: seq<Order>, user: User, side: Side, p: Price)
    requires GoodQueue(q, side, p) && HasOwn(q, user)
    ensures Total(Front(q, user)) < Total(q)
  {
    hide Front, HasOwn;
    FrontSplits(q, user);
    var n := |Front(q, user)|;
    assert q == q[..n] + q[n..] && q[n..][0] == q[n];
    TotalConcat(q[..n], q[n..]);
  }

  /**
   Under a policy that cancels the taker, an ordinary order is stopped exactly when fewer lots lie
   ahead of the first own maker than it wants, and there is such a maker within its limit.
   */
  lemma {:induction false} StoppedExactly(r: Rules, b: Book, o: Order, budget: nat)
    requires Sound(b) && Lawful(r.strategy) && StopsTaker(r.policy) && o.user != 0 && Ample(budget, o.remaining)
    ensures var side, limit := o.side.Opposite(), EffectiveLimit(o);
            var ahead := LotsAhead(r.strategy, b, side, limit, o.user);
            Cross(r, b, o, budget).stopped <==> ahead < o.remaining && ahead < CrossableLots(b, side, limit)
    decreases o.remaining, |Resting(b)|
  {
    hide Sound, Lawful, OneRound, Resting, LotsAhead, CrossableLots, Ample;
    RoundProgress(r, b, o, budget);
    StopOrSame(r, b, o, budget);
    match OneRound(r, b, o, budget)
    case Halt =>
      HaltedEmpty(r, b, o, budget);
    case StopTaker(_, _) =>
      StoppedBehind(r, b, o, budget);
      OwnIsCrossable(r, b, o, budget);
    case Fills(b', remaining, budget', ts) =>
      FillsShownNoOwn(r, b, o, budget);
      AheadTraded(r, b, o, budget);
      AmpleRound(r, b, o, budget);
      StoppedExactly(r, b', o.(remaining := remaining), budget');
  }

  /** Cancelling the taker leaves its makers alone; cancelling both pulls makers exactly when the taker is stopped. */
  lemma {:induction false} StoppedPulls(r: Rules, b: Book, o: Order, budget: nat)
    requires Sound(b) && Lawful(r.strategy) && StopsTaker(r.policy)
    ensures var c := Cross(r, b, o, budget); c.pulled != [] <==> c.stopped && r.policy.CancelBoth?
    decreases o.remaining, |Resting(b)|
  {
    hide Sound, Lawful, OneRound, Resting;
    RoundProgress(r, b, o, budget);
    RoundStopPulls(r, b, o, budget);
    match OneRound(r, b, o, budget)
    case Halt =>
    case StopTaker(_, _) =>
    case Fills(b', remaining, budget', ts) =>
      StoppedPulls(r, b', o.(remaining := remaining), budget');
  }

  lemma RoundStopPulls(r: Rules, b: Book, o: Order, budget: nat)
    requires Sound(b) && StopsTaker(r.policy)
    ensures var rd := OneRound(r, b, o, budget);
            !rd.Pull? && (rd.StopTaker? ==> (rd.pulled != [] <==> r.policy.CancelBoth?))
  {
    hide Best, Sound, WithQueue, FilledAll, Pulled, Capped;
    if OneRound(r, b, o, budget).StopTaker? {
      var v := ShownLevel(r, b, o, budget);
      var i :| 0 <= i < |v| && v[i].user == o.user;
      OwnIdsFind(v, o.user, i);
    }
  }

  lemma {:induction false} OwnIdsFind(v: seq<Order>, user: User, i: nat)
    requires i < |v| && v[i].user == user
    ensures v[i].id in OwnIds(v, user)
  {
    if i > 0 {
      OwnIdsFind(v[1..], user, i - 1);
    }
  }

  /** Counting the levels ahead of an own maker, and not the lots in front of it on its own level. */
  function ByLevel(s: Strategy): Strategy {
    s.(fullLevelRequired := true)
  }

  /** An own maker on the level that is not shown leaves enough in front of it to fill the order. */
  lemma OwnUnseenFills(r: Rules, b: Book, o: Order, budget: nat)
    requires Sound(b) && Lawful(r.strategy) && OneRound(r, b, o, budget).Fills? && Ample(budget, o.remaining)
    requires !HasOwn(ShownLevel(r, b, o, budget), o.user) && HasOwn(Level(b, o), o.user)
    ensures OneRound(r, b, o, budget).remaining == 0
  {
    hide Best, Sound, Lawful, WithQueue, FilledAll, Capped, Positive, Total, TotalSeen, Honours, FillsFit, Ample,
      Prevents, GoodQueue;
    TradingRound(r, b, o, budget);
    ShownIsFront(r, b, o, budget);
    AmpleAffords(budget, Best(b, o.side.Opposite()).value, o.remaining);
    assert |ShownLevel(r, b, o, budget)| != |Level(b, o)|;
  }

  lemma BeforeTraded(r: Rules, b: Book, o: Order, budget: nat)
    requires Sound(b) && Lawful(r.strategy) && OneRound(r, b, o, budget).Fills? && Ample(budget, o.remaining)
    requires !HasOwn(ShownLevel(r, b, o, budget), o.user) && OneRound(r, b, o, budget).remaining > 0
    ensures var rd, side, limit, s := OneRound(r, b, o, budget), o.side.Opposite(), EffectiveLimit(o),
            ByLevel(r.strategy);
            LotsAhead(s, b, side, limit, o.user) - LotsAhead(s, rd.book, side, limit, o.user) ==
              o.remaining - rd.remaining
  {
    hide Best, Sound, Lawful, WithQueue, FilledAll, Capped, Positive, Total, TotalSeen, Honours, FillsFit, LotsAhead,
      EffectiveLimit, HasOwn, Prevents, Ample;
    var side, limit := o.side.Opposite(), EffectiveLimit(o);
    if HasOwn(Level(b, o), o.user) {
      OwnUnseenFills(r, b, o, budget);
    }
    TradingRound(r, b, o, budget);
    ShownIsFront(r, b, o, budget);
    var px, q, out := Best(b, side).value, Level(b, o), Answer(r, b, o, budget);
    CrossesWithin(o, px);
    FilledAllLots(q, FillsOf(out), 0, side, px);
    FillQtyIsAllocated(out);
    NoOwnAfter(q, FillsOf(out), o.user, side, px);
    AheadPartial(ByLevel(r.strategy), b, side, limit, o.user, px, FilledAll(q, FillsOf(out)));
  }

  lemma StoppedHere(r: Rules, b: Book, o: Order, budget: nat)
    requires Sound(b) && OneRound(r, b, o, budget).StopTaker?
    ensures LotsAhead(ByLevel(r.strategy), b, o.side.Opposite(), EffectiveLimit(o), o.user) == 0
  {
    hide Best, Sound, Lawful, WithQueue, FilledAll, Pulled, Capped, Positive, Total, TotalSeen, LotsAhead,
      EffectiveLimit;
    ShownIsFront(r, b, o, budget);
    var px, q, v := Best(b, o.side.Opposite()).value, Level(b, o), ShownLevel(r, b, o, budget);
    var i :| 0 <= i < |v| && v[i].user == o.user;
    assert q[i].user == o.user;
    CrossesWithin(o, px);
    AheadHere(ByLevel(r.strategy), b, o.side.Opposite(), EffectiveLimit(o), o.user, px);
  }

  /** A stopped order has taken the levels ahead of the first own maker, whole, and nothing of its level. */
  lemma {:induction false} StoppedTrades(r: Rules, b: Book, o: Order, budget: nat)
    requires Sound(b) && Lawful(r.strategy) && StopsTaker(r.policy) && o.user != 0 && Ample(budget, o.remaining)
    requires Cross(r, b, o, budget).stopped
    ensures o.remaining - Cross(r, b, o, budget).remaining ==
              LotsAhead(ByLevel(r.strategy), b, o.side.Opposite(), EffectiveLimit(o), o.user)
    decreases o.remaining, |Resting(b)|
  {
    hide Sound, Lawful, OneRound, Resting, LotsAhead, Ample;
    RoundProgress(r, b, o, budget);
    StopOrSame(r, b, o, budget);
    match OneRound(r, b, o, budget)
    case Halt =>
    case StopTaker(_, _) =>
      StoppedHere(r, b, o, budget);
    case Fills(b', remaining, budget', ts) =>
      FillsShownNoOwn(r, b, o, budget);
      AmpleRound(r, b, o, budget);
      StoppedHasMore(r, b', o.(remaining := remaining), budget');
      BeforeTraded(r, b, o, budget);
      StoppedTrades(r, b', o.(remaining := remaining), budget');
  }

  lemma StoppedHasMore(r: Rules, b: Book, o: Order, budget: nat)
    requires Sound(b) && Lawful(r.strategy)
    ensures o.remaining == 0 ==> !Cross(r, b, o, budget).stopped
  {
    hide Sound, Lawful, Best, WithQueue, FilledAll, Pulled, Capped;
  }

  lemma FillsShownNoOwn(r: Rules, b: Book, o: Order, budget: nat)
    requires OneRound(r, b, o, budget).Fills? && Prevents(r.policy, o.user)
    ensures !HasOwn(ShownLevel(r, b, o, budget), o.user)
  {
    hide Best, WithQueue, FilledAll, Pulled, Capped;
  }

  // --- fill-or-kill under prevention -----------------------------------------------------------------------------

  /** Lots an order can count on, given the policy; computable before the order is sent. */
  ghost function Available(r: Rules, b: Book, o: Order): nat {
    var side, limit := o.side.Opposite(), EffectiveLimit(o);
    if !Prevents(r.policy, o.user) then CrossableLots(b, side, limit)
    else if r.policy.CancelMaker? then CrossableLots(WithoutUser(b, side, o.user), side, limit)
    else LotsAhead(r.strategy, b, side, limit, o.user)
  }

  lemma {:induction false} AheadIsCrossable(s: Strategy, b: Book, side: Side, limit: Price, user: User)
    ensures LotsAhead(s, b, side, limit, user) <= CrossableLots(b, side, limit)
    decreases |Levels(b, side)|
  {
    hide Best, Front;
    var best := Best(b, side);
    if best.Some? && !Better(side, limit, best.value) {
      WithoutSmaller(b, side, best.value);
      AheadIsCrossable(s, Without(b, side, best.value), side, limit, user);
      FrontShorter(Queue(b, side, best.value), user);
    }
  }

  lemma FrontShorter(q: seq<Order>, user: User)
    ensures Total(Front(q, user)) <= Total(q)
  {
    FrontSplits(q, user);
    var n := |Front(q, user)|;
    assert q == q[..n] + q[n..];
    TotalConcat(q[..n], q[n..]);
  }

  /** An ordinary order fills completely exactly when enough lots are available to it under the policy. */
  lemma FillOrKillExact(r: Rules, b: Book, o: Order, budget: nat)
    requires Sound(b) && Lawful(r.strategy) && Ample(budget, o.remaining)
    ensures Cross(r, b, o, budget).remaining == 0 <==> o.remaining <= Available(r, b, o)
  {
    hide Sound, Lawful, Cross, Ample, CrossableLots, LotsAhead, WithoutUser, EffectiveLimit;
    var side, limit := o.side.Opposite(), EffectiveLimit(o);
    if !Prevents(r.policy, o.user) {
      FillsWhatIsCrossable(r, b, o, budget);
    } else if r.policy.CancelMaker? {
      CancelMakerIsAbsence(r, b, o, budget);
      FillsWhatIsCrossable(Allowing(r), WithoutUser(b, side, o.user), o, budget);
    } else {
      FillsWhatIsCrossable(Allowing(r), b, o, budget);
      AheadIsCrossable(r.strategy, b, side, limit, o.user);
      NotStoppedIsAllowed(r, b, o, budget);
      if Cross(Allowing(r), b, o, budget).remaining == 0 {
        StoppedWhen(r, b, o, budget);
      }
    }
  }

  /** The same for a budget buy: its budget has to cover the lots the policy lets it have. */
  lemma FillOrKillBudgetExact(r: Rules, b: Book, o: Order, budget: nat)
    requires Sound(b) && Lawful(r.strategy) && o.side == Buy && EffectiveLimit(o) == U64_MAX
    ensures Cross(r, b, o, budget).remaining == 0 <==>
              || o.remaining == 0
              || (&& budget > 0
                  && BudgetCovers(
                       if Prevents(r.policy, o.user) && r.policy.CancelMaker? then WithoutUser(b, Sell, o.user) else b,
                       Sell, o.remaining, budget)
                  && (Prevents(r.policy, o.user) && !r.policy.CancelMaker? ==>
                        o.remaining <= LotsAhead(r.strategy, b, Sell, U64_MAX, o.user)))
  {
    hide Sound, Lawful, Cross, BudgetCovers, LotsAhead, WithoutUser, EffectiveLimit;
    if !Prevents(r.policy, o.user) {
      FokBudgetExact(r, b, o, budget);
    } else if r.policy.CancelMaker? {
      CancelMakerIsAbsence(r, b, o, budget);
      FokBudgetExact(Allowing(r), WithoutUser(b, Sell, o.user), o, budget);
    } else {
      FokBudgetExact(Allowing(r), b, o, budget);
      NotStoppedIsAllowed(r, b, o, budget);
      if Cross(Allowing(r), b, o, budget).remaining == 0 {
        StoppedWhen(r, b, o, budget);
      }
    }
  }

  lemma OnlyOwn(own: Order, user: User)
    requires own.user == user
    ensures Total([own]) == own.remaining && own in [own]
    ensures Others([own], user) == [] && Front([own], user) == [] && HasOwn([own], user)
  {
    assert [own][0].user == user && [own][1..] == [];
  }

  /**
   The fill-or-kill precheck alone is not enough: it counts the taker's own makers, so under any
   preventing policy an order can pass it and still fill nothing.
   */
  lemma PrecheckCountsOwnMakers(r: Rules) returns (b: Book, o: Order)
    requires Lawful(r.strategy) && r.policy != Allow
    ensures Sound(b) && o.tif == Fok && CrossableLots(b, Sell, o.price) >= o.remaining
    ensures Cross(r, b, o, U128_MAX).remaining > 0
  {
    hide Lawful, Cross;
    var own := Order(1, 0, 7, Sell, Limit, Gtc, 10, 5, 5, 1);
    b := Book(map[], map[10 := [own]]);
    o := Order(2, 0, 7, Buy, Limit, Fok, 10, 5, 5, 2);
    var w := WithoutUser(b, Sell, 7);
    assert forall side, p :: Queue(b, side, p) == [own] || Queue(b, side, p) == [];
    assert Queue(b, Sell, 10) == [own];
    OnlyOwn(own, 7);
    BestIs(b, Sell, 10);
    assert Levels(w, Sell) == map[];
    OrdinaryIsAmple(5);
    FillOrKillExact(r, b, o, U128_MAX);
  }
}
