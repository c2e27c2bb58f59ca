/** Cancelling and amending a resting order: where its lots are afterwards, and what happens to the others. */
module Amendments {
  import opened Types
  import opened Books
  import opened Queues
  import opened Strategies
  import opened Matching
  import opened Crossings
  import opened Priority
  import opened SelfTrades
  import opened Submissions
  import opened Outcomes
  import opened Remainders
  import opened Processing
  import opened Narrations
  import opened Desks

  /** Unique ids: the lookup finds the order itself. */
  lemma FindIsIt(b: Book, o: Order)
    requires Sound(b) && Rests(b, o)
    ensures Submissions.Find(b, o.id) == Some(o)
  {
    hide GoodBook, Fitting, Rests;
  }

  /** Bringing one order down to `r` lots changes its own lots and no other order's. */
  lemma ReducedLots(b: Book, o: Order, r: Qty, side: Side, p: Price, id: OrderId)
    requires Sound(b) && Rests(b, o) && r <= o.remaining
    ensures LotsAt(Reduced(b, o, r), side, p, id) ==
              if side == o.side && p == o.price && id == o.id then r else LotsAt(b, side, p, id)
  {
    hide WithQueue, SetRemaining, IdsUnique, Fitting, Lots;
    var q := Queue(b, o.side, o.price);
    GoodAt(b, o.side, o.price);
    GoodIsDistinct(q, o.side, o.price);
    LotsOf(q, o);
    SetRemainingLots(q, o.id, r, id);
    QueueWithQueue(b, o.side, o.price, SetRemaining(q, o.id, r), side, p);
  }

  /** An order rests at one place only. */
  lemma ElsewhereNothing(b: Book, o: Order, side: Side, p: Price)
    requires Sound(b) && Rests(b, o)
    ensures LotsAt(b, side, p, o.id) == if side == o.side && p == o.price then o.remaining else 0
  {
    hide Fitting, Lots;
    var q := Queue(b, side, p);
    GoodAt(b, side, p);
    if side == o.side && p == o.price {
      LotsOf(q, o);
    } else {
      forall i | 0 <= i < |q| ensures q[i].id != o.id {
        RestsAt(b, side, p, q[i]);
      }
      NotThere(q, o.id, 0);
    }
  }

  /** A cancel takes exactly the named order off the book; without it nothing changes. */
  lemma CancelExactly(s: Setup, e: Engine, id: OrderId, side: Side, p: Price, other: OrderId)
    requires Sound(e.book) && Lawful(s.strategy)
    ensures Enabled(e, CancelOne(id))
    ensures var e' := Step(s, e, CancelOne(id));
            && LotsAt(e'.book, side, p, other) == (if other == id then 0 else LotsAt(e.book, side, p, other))
            && !HasId(e'.book, id) && e'.clock == e.clock && (!HasId(e.book, id) ==> e' == e)
  {
    hide Sound, Lawful, Removed, LotsAt;
    var found := Submissions.Find(e.book, id);
    if found.Some? {
      ReducedLots(e.book, found.value, 0, side, p, other);
      ElsewhereNothing(e.book, found.value, side, p);
      RemovedFresh(e.book, found.value);
      RemovedIs(e.book, found.value);
    } else {
      NoLotsOf(e.book, side, p, id);
    }
  }

  /** The same price and no more lots: the order stays where it is in its queue. */
  lemma ReducedInPlace(s: Setup, e: Engine, o: Order, qty: Qty, side: Side, p: Price, other: OrderId)
    requires Sound(e.book) && Lawful(s.strategy) && Rests(e.book, o) && qty <= o.remaining
    ensures Enabled(e, Amend(o.id, o.price, qty))
    ensures var e' := Step(s, e, Amend(o.id, o.price, qty));
            && e'.clock == e.clock
            && LotsAt(e'.book, side, p, other) ==
                 (if other != o.id then LotsAt(e.book, side, p, other)
                  else if side == o.side && p == o.price then qty else 0)
            && (qty > 0 ==>
                  var q := Queue(e.book, o.side, o.price);
                  exists i :: 0 <= i < |q| && q[i] == o
                              && Queue(e'.book, o.side, o.price) == q[i := o.(remaining := qty)])
  {
    hide Sound, Lawful, Reduced, LotsAt;
    UniqueEnabled(e, o, qty);
    FindIsIt(e.book, o);
    ReducedLots(e.book, o, qty, side, p, other);
    ElsewhereNothing(e.book, o, side, p);
    var q := Queue(e.book, o.side, o.price);
    var i :| 0 <= i < |q| && q[i] == o;
    if qty > 0 {
      ReductionKeepsPlace(e.book, o.side, o.price, i, qty);
    }
  }

  lemma UniqueEnabled(e: Engine, o: Order, qty: Qty)
    requires Sound(e.book) && Rests(e.book, o) && qty <= o.remaining
    ensures Enabled(e, Amend(o.id, o.price, qty))
  {
    hide GoodBook, Fitting, Rests;
  }

  // --- a new price or a larger quantity ------------------------------------------------------------------

  /** The order as it enters again: the same order, a limit at the new price for the new quantity. */
  function Again(o: Order, price: Price, qty: Qty): Order {
    Order(o.id, o.instrument, o.user, o.side, Limit, Gtc, price, qty, qty, o.timestamp)
  }

  lemma RestingMayRest(e: Engine, o: Order)
    requires EngineInv(e) && Rests(e.book, o)
    ensures MayRest(o)
  {
    hide Sound, Uncrossed, TimeOrdered, Rests;
  }

  /** An amendment of a resting order to another price, or to more lots. */
  ghost predicate Requotes(s: Setup, e: Engine, o: Order, price: Price, qty: Qty) {
    && EngineInv(e) && Lawful(s.strategy) && Rests(e.book, o) && (price != o.price || qty > o.remaining)
    && Enabled(e, Amend(o.id, price, qty))
  }

  /** The engine after the amendment, and the reports. */
  ghost function Amending(cfg: Config, e: Engine, o: Order, i: u32, price: Price, qty: Qty, cmdId: u64):
    (Engine, seq<Emission>)
    requires Requotes(cfg.setup, e, o, price, qty)
  {
    InvSound(e);
    (Step(cfg.setup, e, Amend(o.id, price, qty)), ToldAmended(cfg, e, Modify(i, o.id, price, qty, cmdId)))
  }

  /** What the amendment of a resting order does and tells, through the submission it makes. */
  lemma Requoting(cfg: Config, e: Engine, o: Order, i: u32, price: Price, qty: Qty, cmdId: u64)
    requires Requotes(cfg.setup, e, o, price, qty)
    ensures Sound(Removed(e.book, o)) && !HasId(Removed(e.book, o), o.id) && e.clock < U64_MAX
    ensures var (b', rep) := Submit(RulesAt(cfg.setup, e.clock + 1), Removed(e.book, o), Again(o, price, qty));
            Amending(cfg, e, o, i, price, qty, cmdId) ==
              (Engine(b', e.clock + 1), TradeReports(cfg, i, rep.trades) + [One(RequoteReport(i, o.id, qty, rep))])
  {
    hide Sound, Uncrossed, TimeOrdered, Stamped, Lawful, Submit, Removed, RoomFor, Rests, HasId, TradeReports;
    FindIsIt(e.book, o);
    RestingMayRest(e, o);
    LeavingKeeps(e, o);
    RemovedFresh(e.book, o);
    assert Requoted(o, price, qty) == Again(o, price, qty);
  }

  /** The last report of an amendment and the trades before it. */
  lemma AmendmentTold(cfg: Config, i: u32, ts: seq<Trade>, last: ExecReport, p: Price, maker: OrderId)
    requires !last.TradeReport?
    ensures var told := TradeReports(cfg, i, ts) + [One(last)];
            && ToldLots(told) == Traded(ts) && ToldWith(told, p, maker) == TradedWith(ts, p, maker)
            && |told| == |ts| + 1 && told[|ts|] == One(last)
            && forall k :: 0 <= k < |ts| ==> told[k] == TradeReports(cfg, i, ts)[k] && IsTrade(told[k])
  {
    hide Traded, TradedWith, ToldLots, ToldWith;
    TradesTold(cfg, i, ts, p, maker);
    ToldConcat(TradeReports(cfg, i, ts), [One(last)], p, maker);
    ToldNothing([One(last)], p, maker);
  }

  /**
   An amendment to another price or to more lots. Afterwards the order rests at the new price and
   nowhere else, with every lot of the new quantity that the reports do not tell as traded; only
   self-trade prevention drops what is left. Every trade told is within the new price.
   */
  lemma AmendedLots(cfg: Config, e: Engine, o: Order, i: u32, price: Price, qty: Qty, cmdId: u64, side: Side, p: Price)
    requires Requotes(cfg.setup, e, o, price, qty)
    ensures var (e', told) := Amending(cfg, e, o, i, price, qty, cmdId);
            var r, b := RulesAt(cfg.setup, e'.clock), Removed(e.book, o);
            && LotsAt(e'.book, side, p, o.id) ==
                 (if side == o.side && p == price && !Stops(r, b, Again(o, price, qty)) then
                   qty - ToldLots(told) else 0)
            && TellsTradesOf(cfg, told, i, o.id, o.side, Some(price))
            && e'.clock == e.clock + 1
  {
    hide EngineInv, Sound, Lawful, Submit, Removed, Enabled, Rests, HasId, LotsAt, Stops, Traded, TradedWith, ToldLots,
      ToldWith, TradeReports, Amending, ProperTrade, TellsTradesOf;
    Requoting(cfg, e, o, i, price, qty, cmdId);
    var r, b, a := RulesAt(cfg.setup, e.clock + 1), Removed(e.book, o), Again(o, price, qty);
    var rep := Submit(r, b, a).1;
    RemainderRests(r, b, a, side, p);
    AmendmentTold(cfg, i, rep.trades, RequoteReport(i, o.id, qty, rep), 0, 0);
    SubmissionTrades(r, b, a, 0, 0);
    var t := Ticketed(b, a, r.now).order;
    ProperTold(cfg, i, r, b, t, rep.trades);
    TellsMore(cfg, TradeReports(cfg, i, rep.trades), RequoteReport(i, o.id, qty, rep), i, o.id, o.side, Some(price));
  }

  lemma TellsMore(cfg: Config, told: seq<Emission>, last: ExecReport, i: u32, taker: OrderId, side: Side,
    limit: Option<Price>)
    requires TellsTradesOf(cfg, told, i, taker, side, limit) && !last.TradeReport?
    ensures TellsTradesOf(cfg, told + [One(last)], i, taker, side, limit)
  {}

  /** What an amendment does to every other resting order: makers lose what they are told to have traded. */
  lemma AmendedOthers(cfg: Config, e: Engine, o: Order, i: u32, price: Price, qty: Qty, cmdId: u64, m: Order)
    requires Requotes(cfg.setup, e, o, price, qty) && Rests(e.book, m) && m.id != o.id
    ensures var (e', told) := Amending(cfg, e, o, i, price, qty, cmdId);
            var lots, traded := LotsAt(e'.book, m.side, m.price, m.id), ToldWith(told, m.price, m.id);
            if m.side == o.side then lots == m.remaining
            else if Prevents(cfg.setup.policy, o.user) && m.user == o.user then
              traded == 0 && (lots == 0 || lots == m.remaining)
            else lots == m.remaining - traded
  {
    hide EngineInv, Sound, Lawful, Submit, Removed, Enabled, Rests, HasId, LotsAt, Traded, TradedWith, ToldLots,
      ToldWith, TradeReports, Amending;
    Requoting(cfg, e, o, i, price, qty, cmdId);
    var r, b, a := RulesAt(cfg.setup, e.clock + 1), Removed(e.book, o), Again(o, price, qty);
    var rep := Submit(r, b, a).1;
    AmendmentTold(cfg, i, rep.trades, RequoteReport(i, o.id, qty, rep), m.price, m.id);
    InvSound(e);
    StillRests(e.book, o, m);
    Bystanders(r, b, a, m);
  }

  /** Taking one order off leaves the others as they are. */
  lemma StillRests(b: Book, o: Order, m: Order)
    requires Sound(b) && Rests(b, o) && Rests(b, m) && m.id != o.id
    ensures Rests(Removed(b, o), m)
  {
    hide WithQueue, SetRemaining, IdsUnique, Fitting;
    var q := Queue(b, o.side, o.price);
    QueueWithQueue(b, o.side, o.price, SetRemaining(q, o.id, 0), m.side, m.price);
    if m.side == o.side && m.price == o.price {
      SetRemainingKeeps(q, o.id, 0, m);
    }
  }

  lemma {:induction false} SetRemainingKeeps(q: seq<Order>, id: OrderId, r: Qty, m: Order)
    requires m in q && m.id != id
    ensures m in SetRemaining(q, id, r)
  {
    if q[0].id != id && q[0] != m {
      assert m in q[1..];
      SetRemainingKeeps(q[1..], id, r, m);
    }
  }

  /** What rests of an amended order is at the back of its queue, behind older orders, with the newest stamp. */
  lemma AmendedPlace(cfg: Config, e: Engine, o: Order, i: u32, price: Price, qty: Qty, cmdId: u64)
    requires Requotes(cfg.setup, e, o, price, qty)
    ensures var e' := Amending(cfg, e, o, i, price, qty, cmdId).0;
            var lots, q := LotsAt(e'.book, o.side, price, o.id), Queue(Removed(e.book, o), o.side, price);
            lots > 0 ==>
              && e'.clock == e.clock + 1
              && Queue(e'.book, o.side, price) ==
                   q + [Order(o.id, o.instrument, o.user, o.side, Limit, Gtc, price, qty, lots, e'.clock)]
              && forall k :: 0 <= k < |q| ==> q[k].timestamp < e'.clock
  {
    hide EngineInv, Sound, Lawful, Submit, Removed, RoomFor, Rests, HasId, LotsAt, Stops, Traded, Step, TradeReports,
      Queue, RequoteReport, Amending;
    Requoting(cfg, e, o, i, price, qty, cmdId);
    var r, b, a := RulesAt(cfg.setup, e.clock + 1), Removed(e.book, o), Again(o, price, qty);
    RemainderRests(r, b, a, o.side, price);
    InvSound(e);
    ReducingKeeps(e, o, 0);
    RemovedIs(e.book, o);
    RestingMayRest(e, o);
    RestsAtBack(cfg.setup, e.(book := b), a);
    SubmitConserves(r, b, a);
  }

  /**
   The last report of an amendment, by what the trades before it tell. `Modified(n)` is told with n
   lots traded short of the quantity.
   */
  lemma AmendedReport(cfg: Config, e: Engine, o: Order, i: u32, price: Price, qty: Qty, cmdId: u64)
    requires Requotes(cfg.setup, e, o, price, qty)
    ensures var (e', told) := Amending(cfg, e, o, i, price, qty, cmdId);
            var r, b, a := RulesAt(cfg.setup, e.clock + 1), Removed(e.book, o), Again(o, price, qty);
            && ToldLots(told) == Takes(r, b, a) <= qty
            && |told| > 0 && (forall k :: 0 <= k < |told| - 1 ==> IsTrade(told[k]))
            && told[|told| - 1] == One(
                 if Takes(r, b, a) == qty then FilledReport(i, o.id)
                 else if Stops(r, b, a) && Takes(r, b, a) == 0 then CancelledReport(i, o.id)
                 else ModifiedReport(i, o.id, qty - Takes(r, b, a)))
  {
    hide EngineInv, Sound, Lawful, Submit, Removed, Enabled, Rests, HasId, LotsAt, Stops, Takes, Traded, TradedWith,
      ToldLots, ToldWith, TradeReports, Amending;
    Requoting(cfg, e, o, i, price, qty, cmdId);
    var r, b, a := RulesAt(cfg.setup, e.clock + 1), Removed(e.book, o), Again(o, price, qty);
    var rep := Submit(r, b, a).1;
    AmendmentTold(cfg, i, rep.trades, RequoteReport(i, o.id, qty, rep), 0, 0);
    TradesWhatIsThere(r, b, a);
    TakesAtMost(r, b, a);
    StatusMeans(r, b, a);
    RemainderRests(r, b, a, o.side, price);
  }

  /**
   Told to be modified with n lots, an order has n lots resting at its price; this holds exactly when
   prevention did not stop it after it had traded.
   */
  lemma ModifiedTellsWhatRests(cfg: Config, e: Engine, o: Order, i: u32, price: Price, qty: Qty, cmdId: u64)
    requires Requotes(cfg.setup, e, o, price, qty)
    ensures var (e', told) := Amending(cfg, e, o, i, price, qty, cmdId);
            var r, b, a := RulesAt(cfg.setup, e.clock + 1), Removed(e.book, o), Again(o, price, qty);
            && |told| > 0 && told[|told| - 1].One?
            && var last := told[|told| - 1].report;
               (last.ModifiedReport? ==> LotsAt(e'.book, o.side, price, o.id) == last.remaining) <==>
               !(Stops(r, b, a) && 0 < Takes(r, b, a))
  {
    hide EngineInv, Sound, Lawful, Submit, Removed, Enabled, Rests, HasId, LotsAt, LotsAhead, CrossableLots, Traded,
      TradedWith, ToldLots, ToldWith, TradeReports, Amending, TellsTradesOf;
    AmendedReport(cfg, e, o, i, price, qty, cmdId);
    AmendedLots(cfg, e, o, i, price, qty, cmdId, o.side, price);
    TakesAtMost(RulesAt(cfg.setup, e.clock + 1), Removed(e.book, o), Again(o, price, qty));
  }

  // --- the commands ---------------------------------------------------------------------------------------

  /** A modify command that finds its order away from what it asks for: one book and nothing else changes. */
  lemma ModifyOnDesk(cfg: Config, d: Desk, i: u32, o: Order, price: Price, qty: Qty, cmdId: u64, reference: Price)
    requires DeskInv(cfg, d) && Lawful(cfg.setup.strategy) && Fits(d, Modify(i, o.id, price, qty, cmdId))
    requires Rests(EngineOf(d, i).book, o) && (price != o.price || qty > o.remaining)
    ensures DeskSound(d) && Requotes(cfg.setup, EngineOf(d, i), o, price, qty)
    ensures var (e', told) := Amending(cfg, EngineOf(d, i), o, i, price, qty, cmdId);
            Perform(cfg, d, Input(Modify(i, o.id, price, qty, cmdId), reference)) ==
            (d.(engines := d.engines[i := e']), told)
  {
    hide EngineInv, Lawful, Enabled, Rests, Step, ToldAmended, IdsNoted, WithinCap, DeskInv, DeskSound;
    OkSound(cfg, d);
    FreshOk(cfg, d, i);
  }

  /** A modify command that leaves the order in place tells the lots it now has, or that it is cancelled. */
  lemma ModifyInPlaceOnDesk(cfg: Config, d: Desk, i: u32, o: Order, qty: Qty, cmdId: u64, reference: Price)
    requires DeskInv(cfg, d) && Lawful(cfg.setup.strategy) && Rests(EngineOf(d, i).book, o) && qty <= o.remaining
    ensures DeskSound(d) && Fits(d, Modify(i, o.id, o.price, qty, cmdId))
    ensures Sound(EngineOf(d, i).book) && Enabled(EngineOf(d, i), Amend(o.id, o.price, qty))
    ensures Perform(cfg, d, Input(Modify(i, o.id, o.price, qty, cmdId), reference)) ==
            (d.(engines := d.engines[i := Step(cfg.setup, EngineOf(d, i), Amend(o.id, o.price, qty))]),
             [One(if qty == 0 then CancelledReport(i, o.id) else ModifiedReport(i, o.id, qty))])
  {
    hide EngineInv, Sound, Lawful, Enabled, Rests, Step, IdsNoted, WithinCap, DeskInv, DeskSound;
    OkSound(cfg, d);
    FreshOk(cfg, d, i);
    InvSound(EngineOf(d, i));
    UniqueEnabled(EngineOf(d, i), o, qty);
    FindIsIt(EngineOf(d, i).book, o);
  }

  /** A cancel or modify command for an order that is not there changes no book, and says so. */
  lemma NotFoundOnDesk(cfg: Config, d: Desk, cmd: Command, reference: Price)
    requires DeskInv(cfg, d) && Lawful(cfg.setup.strategy) && (cmd.Cancel? || cmd.Modify?)
    requires !HasId(EngineOf(d, cmd.instrument).book, cmd.orderId)
    ensures DeskSound(d) && Fits(d, cmd)
    ensures Perform(cfg, d, Input(cmd, reference)) ==
            (d.(engines := d.engines[cmd.instrument := EngineOf(d, cmd.instrument)]),
             [One(NotFoundReport(cmd.instrument, cmd.orderId))])
  {
    hide EngineInv, Sound, Lawful, Rests, IdsNoted, WithinCap, DeskInv, DeskSound, RoomFor;
    OkSound(cfg, d);
    FreshSound(d, cmd.instrument);
    NoneRests(EngineOf(d, cmd.instrument).book, cmd.orderId);
  }

  lemma NoneRests(b: Book, id: OrderId)
    requires !HasId(b, id)
    ensures (forall o :: Rests(b, o) ==> o.id != id) && Submissions.Find(b, id) == None
  {
    hide Rests;
    var found := Submissions.Find(b, id);
    assert found.Some? ==> Rests(b, found.value) && found.value.id == id;
  }

  /** A cancel command takes the order it names, all of its lots and nothing else. */
  lemma CancelOnDesk(cfg: Config, d: Desk, i: u32, id: OrderId, cmdId: u64, reference: Price, side: Side, p: Price,
    other: OrderId)
    requires DeskInv(cfg, d) && Lawful(cfg.setup.strategy)
    ensures DeskSound(d)
    ensures var (d', told) := Perform(cfg, d, Input(Cancel(i, id, cmdId), reference));
            var b, b' := EngineOf(d, i).book, EngineOf(d', i).book;
            && d' == d.(engines := d.engines[i := EngineOf(d', i)])
            && EngineOf(d', i).clock == EngineOf(d, i).clock
            && LotsAt(b', side, p, other) == (if other == id then 0 else LotsAt(b, side, p, other))
            && told == [One(if HasId(b, id) then CancelledReport(i, id) else NotFoundReport(i, id))]
  {
    hide EngineInv, Sound, Lawful, Rests, IdsNoted, WithinCap, DeskInv, DeskSound, LotsAt, Step;
    OkSound(cfg, d);
    FreshSound(d, i);
    EnabledCancel(EngineOf(d, i), id);
    CancelExactly(cfg.setup, EngineOf(d, i), id, side, p, other);
  }

  // --- an order told to be modified that is gone -----------------------------------------------------------

  const OTHERS_ASK: Order := Order(1, 0, 2, Sell, Limit, Gtc, 10, 1, 1, 1)
  const OWN_ASK: Order := Order(2, 0, 1, Sell, Limit, Gtc, 11, 1, 1, 2)
  const OWN_BID: Order := Order(3, 0, 1, Buy, Limit, Gtc, 5, 1, 1, 3)
  const ASKS: Book := Book(map[], map[10 := [OTHERS_ASK], 11 := [OWN_ASK]])
  const QUOTED: Engine := Engine(ASKS.(bids := map[5 := [OWN_BID]]), 3)

  lemma QuotedQueue(side: Side, p: Price)
    ensures Queue(QUOTED.book, side, p) ==
              if side.Buy? then (if p == 5 then [OWN_BID] else [])
              else if p == 10 then [OTHERS_ASK] else if p == 11 then [OWN_ASK] else []
  {}

  lemma QuotedRests(o: Order)
    ensures Rests(QUOTED.book, o) <==> o == OTHERS_ASK || o == OWN_ASK || o == OWN_BID
  {
    hide Queue;
    QuotedQueue(o.side, o.price);
  }

  lemma QuotedLevel(side: Side, p: Price)
    ensures var q := Queue(QUOTED.book, side, p);
            && Total(q) <= 1 && InTimeOrder(q) && GoodQueue(q, side, p)
            && (p in Levels(QUOTED.book, side) ==> q != [])
  {
    hide Queue, Total;
    QuotedQueue(side, p);
    TotalOfOne(OTHERS_ASK);
    TotalOfOne(OWN_ASK);
    TotalOfOne(OWN_BID);
    NothingTotals();
  }

  lemma QuotedIsSound()
    ensures Sound(QUOTED.book) && TimeOrdered(QUOTED.book)
  {
    hide Queue, Total, InTimeOrder, GoodQueue, Rests;
    forall side, p
      ensures Total(Queue(QUOTED.book, side, p)) <= 1 && InTimeOrder(Queue(QUOTED.book, side, p))
      ensures GoodQueue(Queue(QUOTED.book, side, p), side, p)
      ensures p in Levels(QUOTED.book, side) ==> Queue(QUOTED.book, side, p) != []
    {
      QuotedLevel(side, p);
    }
    forall o | Rests(QUOTED.book, o) ensures o == OTHERS_ASK || o == OWN_ASK || o == OWN_BID {
      QuotedRests(o);
    }
  }

  lemma QuotedIsFine()
    ensures EngineInv(QUOTED) && Rests(QUOTED.book, OWN_BID) && Removed(QUOTED.book, OWN_BID) == ASKS
  {
    hide Sound, TimeOrdered, Rests, Removed;
    QuotedIsSound();
    BidLeaves();
    forall o ensures Rests(QUOTED.book, o) <==> o == OTHERS_ASK || o == OWN_ASK || o == OWN_BID {
      QuotedRests(o);
    }
  }

  lemma NothingTotals()
    ensures Total([]) == 0
  {}

  lemma BidLeaves()
    ensures Removed(QUOTED.book, OWN_BID) == ASKS
  {
    assert SetRemaining([OWN_BID], 3, 0) == [];
  }

  /** The other's ask lies ahead of the own one. */
  lemma AheadOfOwnAsk(s: Strategy)
    ensures LotsAhead(s, ASKS, Sell, 11, 1) == 1 && CrossableLots(ASKS, Sell, 11) >= 2
  {
    hide Best, Better;
    var rest := Without(ASKS, Sell, 10);
    assert Best(ASKS, Sell) == Some(10) by { BestAsk(ASKS, 10); }
    assert rest.asks == map[11 := [OWN_ASK]];
    BestAsk(rest, 11);
    TotalOfOne(OTHERS_ASK);
    TotalOfOne(OWN_ASK);
    assert HasOwn([OWN_ASK], 1) && !HasOwn([OTHERS_ASK], 1);
    NoFront([OWN_ASK], 1);
  }

  lemma BestAsk(b: Book, p: Price)
    requires p in b.asks && forall q :: q in b.asks ==> p <= q
    ensures Best(b, Sell) == Some(p) && !Better(Sell, 11, p) == (p <= 11)
  {
    BestIs(b, Sell, p);
  }

  lemma OwnAskCounts()
    ensures IdsOfUser(ASKS, 1) == {2}
  {
    assert ASKS.asks[10] == [OTHERS_ASK] && ASKS.asks[11] == [OWN_ASK];
    forall o ensures o in Resting(ASKS) <==> o == OTHERS_ASK || o == OWN_ASK {
      assert OTHERS_ASK in ASKS.asks[10] && OWN_ASK in ASKS.asks[11];
    }
    assert OWN_ASK in Resting(ASKS);
  }

  lemma BidMayBeAmended()
    ensures Enabled(QUOTED, Amend(3, 11, 5))
  {
    hide Rests, Removed, IdsOfUser, Total;
    forall o | Rests(QUOTED.book, o) && o.id == 3 ensures o == OWN_BID {
      QuotedRests(o);
    }
    QuotedIsFine();
    NothingTotals();
    OwnAskCounts();
  }

  /**
   A quote moved through another's ask into an own one trades a lot, is stopped, and is told to be
   modified with four lots, though nothing of it rests.
   */
  lemma ModifiedButGone(cfg: Config, i: u32, cmdId: u64)
    requires cfg.setup.policy.CancelTaker? && Lawful(cfg.setup.strategy)
    ensures Requotes(cfg.setup, QUOTED, OWN_BID, 11, 5)
    ensures var (e', told) := Amending(cfg, QUOTED, OWN_BID, i, 11, 5, cmdId);
            && |told| > 0 && told[|told| - 1] == One(ModifiedReport(i, 3, 4)) && LotsAt(e'.book, Buy, 11, 3) == 0
  {
    hide EngineInv, Lawful, Enabled, Rests, Removed, LotsAt, Amending, ToldLots, TellsTradesOf, CrossableLots,
      LotsAhead;
    QuotedIsFine();
    BidMayBeAmended();
    AheadOfOwnAsk(cfg.setup.strategy);
    AheadOfOwnAsk(ByLevel(cfg.setup.strategy));
    AmendedReport(cfg, QUOTED, OWN_BID, i, 11, 5, cmdId);
    AmendedLots(cfg, QUOTED, OWN_BID, i, 11, 5, cmdId, Buy, 11);
  }

  // --- an amendment that trades behind the gates and the ledger -------------------------------------------------

  /** The instrument is halted and the bidder suspended. */
  function Stilled(i: u32): Desk {
    Desk(map[i := QUOTED], {1, 2, 3}, 0, 0, {i}, {1}, map[])
  }

  lemma StilledIsFine(cfg: Config, i: u32)
    requires cfg.limits.None?
    ensures DeskInv(cfg, Stilled(i)) && EngineOf(Stilled(i), i) == QUOTED
  {
    hide EngineInv, Rests;
    QuotedIsFine();
    forall o | Rests(QUOTED.book, o) ensures o.id != 0 && o.id in Stilled(i).seen {
      QuotedRests(o);
    }
  }

  /**
   An amendment is not gated and not ledgered: on a halted instrument, for a suspended user, it trades,
   and no position moves.
   */
  lemma AmendmentTradesUnseen(cfg: Config, i: u32, cmdId: u64, reference: Price)
    requires cfg.setup.policy.Allow? && cfg.limits.None? && Lawful(cfg.setup.strategy)
    ensures var d, cmd := Stilled(i), Modify(i, 3, 11, 5, cmdId);
            && DeskInv(cfg, d) && DeskSound(d) && Fits(d, cmd) && i in d.halted && OWN_BID.user in d.suspended
            && var (d', told) := Perform(cfg, d, Input(cmd, reference));
               ToldLots(told) >= 2 && d'.positions == d.positions
  {
    hide EngineInv, Lawful, Enabled, Rests, Removed, LotsAt, Amending, ToldLots, TellsTradesOf, CrossableLots,
      LotsAhead, DeskInv, DeskSound, Perform;
    StilledIsFine(cfg, i);
    OkSound(cfg, Stilled(i));
    QuotedIsFine();
    BidMayBeAmended();
    ModifyOnDesk(cfg, Stilled(i), i, OWN_BID, 11, 5, cmdId, reference);
    AmendedReport(cfg, QUOTED, OWN_BID, i, 11, 5, cmdId);
    AheadOfOwnAsk(cfg.setup.strategy);
  }
}
