/** A new order from its acceptance to its outcome: what it trades, what rests of it, and what is told. */
module Arrivals {
  import opened Types
  import opened Books
  import opened Strategies
  import opened Matching
  import opened Crossings
  import opened Prechecks
  import opened Submissions
  import opened Outcomes
  import opened Remainders
  import opened Processing
  import opened Desks
  import opened Narrations
  import opened Gates

  /** An order that passes the gates and the cap, on a book that does not know its id. */
  ghost predicate Arrives(cfg: Config, d: Desk, o: Order, reference: Price) {
    var g, e := Gated(cfg, d.halted, d.suspended, o, reference), EngineOf(d, o.instrument);
    && DeskSound(d) && Lawful(cfg.setup.strategy) && BudgetFits(o) && e.clock < U64_MAX && !HasId(e.book, o.id)
    && g.Open? && !CapReached(cfg, e.book, g.order)
  }

  /** The order as its book meets it: the guard may have protected it. */
  ghost function Met(cfg: Config, d: Desk, o: Order, reference: Price): Order
    requires Arrives(cfg, d, o, reference)
  {
    Gated(cfg, d.halted, d.suspended, o, reference).order
  }

  /** The submission an arriving order makes, and what follows from it. */
  lemma Arriving(cfg: Config, d: Desk, o: Order, reference: Price)
    requires Arrives(cfg, d, o, reference)
    ensures var e, i, v := EngineOf(d, o.instrument), o.instrument, Met(cfg, d, o, reference);
            && Sound(e.book) && BudgetFits(v) && v.id == o.id && v.side == o.side && v.user == o.user
            && v.quantity == o.quantity && (MayRest(v) <==> MayRest(o)) && (MayRest(o) ==> v == o)
            && var (b', rep) := Submit(RulesAt(cfg.setup, e.clock + 1), e.book, v);
            && ProcessNew(cfg, d, o, reference).1 == Told(cfg, i, o.id, rep)
            && EngineOf(ProcessNew(cfg, d, o, reference).0, i) == Engine(b', e.clock + 1)
  {
    hide Lawful, Sound, Submit, Booked, Told, IdsOfUser, BudgetFits, HasId, NearReference, StaticCheck;
    OpenKeeps(cfg, d.halted, d.suspended, o, reference);
    VettedKeeps(cfg, reference, o);
    GuardExactly(cfg, reference, o);
    FreshSound(d, o.instrument);
  }

  /**
   Where an arriving order's lots are afterwards: a good-till-cancel limit rests, at its price, all that
   is not told as traded, unless prevention stops it; any other order leaves nothing.
   */
  lemma ArrivalLots(cfg: Config, d: Desk, o: Order, reference: Price, side: Side, p: Price)
    requires Arrives(cfg, d, o, reference)
    ensures var (d', told) := ProcessNew(cfg, d, o, reference);
            var e, e' := EngineOf(d, o.instrument), EngineOf(d', o.instrument);
            LotsAt(e'.book, side, p, o.id) ==
              if MayRest(o) && !Stops(RulesAt(cfg.setup, e.clock + 1), e.book, o) && side == o.side && p == o.price
              then o.quantity - ToldLots(told) else 0
  {
    hide Arrives, Lawful, Sound, Submit, Told, BudgetFits, HasId, Stops, LotsAt, ToldLots, ToldWith, Traded, TradedWith,
      ProcessNew, MayRest;
    ArrivesMeans(cfg, d, o, reference);
    Arriving(cfg, d, o, reference);
    var e, v := EngineOf(d, o.instrument), Met(cfg, d, o, reference);
    var r := RulesAt(cfg.setup, e.clock + 1);
    RemainderRests(r, e.book, v, side, p);
    SubmissionTold(cfg, o.instrument, o.id, Submit(r, e.book, v).1, 0, 0);
  }

  lemma ArrivesMeans(cfg: Config, d: Desk, o: Order, reference: Price)
    requires Arrives(cfg, d, o, reference)
    ensures DeskSound(d) && Lawful(cfg.setup.strategy) && BudgetFits(o) && EngineOf(d, o.instrument).clock < U64_MAX
    ensures !HasId(EngineOf(d, o.instrument).book, o.id)
  {
    hide Lawful, Sound, BudgetFits, HasId, Gated, CapReached;
  }

  /**
   What is told of an arriving order. It is told accepted first; without a budget, the lots it takes are
   those the book showed beforehand, all told within its limit; and the last report is its outcome.
   */
  lemma ArrivalTold(cfg: Config, d: Desk, o: Order, reference: Price)
    requires Arrives(cfg, d, o, reference)
    ensures BudgetFits(Met(cfg, d, o, reference))
    ensures var told := ProcessNew(cfg, d, o, reference).1;
            var i, e, v := o.instrument, EngineOf(d, o.instrument), Met(cfg, d, o, reference);
            var r, lots := RulesAt(cfg.setup, e.clock + 1), ToldLots(told);
            && |told| >= 2 && told[0] == One(Accepted(i, o.id)) && lots <= o.quantity
            && told[|told| - 1] == One(
                 if Refuses(e.book, v) then RejectedReport(i, o.id, Unfillable)
                 else if lots == o.quantity then FilledReport(i, o.id)
                 else if lots > 0 then PartialReport(i, o.id, lots)
                 else if MayRest(o) && !Stops(r, e.book, o) then RestingReport(i, o.id)
                 else CancelledReport(i, o.id))
            && (!Budgeted(v.tif) ==> lots == Takes(r, e.book, v))
  {
    hide Arrives, Lawful, Sound, Submit, Told, BudgetFits, HasId, Stops, Takes, LotsAt, ToldLots, ToldWith, Traded,
      TradedWith, ProcessNew, MayRest, Refuses, Met;
    ArrivesMeans(cfg, d, o, reference);
    Arriving(cfg, d, o, reference);
    var e, v := EngineOf(d, o.instrument), Met(cfg, d, o, reference);
    var r := RulesAt(cfg.setup, e.clock + 1);
    var rep := Submit(r, e.book, v).1;
    SubmissionTold(cfg, o.instrument, o.id, rep, 0, 0);
    StatusMeans(r, e.book, v);
    RemainderRests(r, e.book, v, o.side, v.price);
    if !Budgeted(v.tif) {
      TradesWhatIsThere(r, e.book, v);
    }
  }

  /** Every trade told of an arriving order is its own, on its side, with its fees, and within its limit. */
  lemma ArrivalTrades(cfg: Config, d: Desk, o: Order, reference: Price)
    requires Arrives(cfg, d, o, reference)
    ensures var told, v := ProcessNew(cfg, d, o, reference).1, Met(cfg, d, o, reference);
            TellsTradesOf(cfg, told, o.instrument, o.id, o.side,
                          if v.orderType.Limit? && !Budgeted(v.tif) then Some(v.price) else None)
  {
    hide Arrives, Lawful, Sound, Submit, Told, BudgetFits, HasId, LotsAt, ProcessNew, MayRest, Met, ProperTrade,
      BestFirstTrades, TradedWith;
    ArrivesMeans(cfg, d, o, reference);
    Arriving(cfg, d, o, reference);
    var e, v := EngineOf(d, o.instrument), Met(cfg, d, o, reference);
    var r := RulesAt(cfg.setup, e.clock + 1);
    SubmissionTrades(r, e.book, v, 0, 0);
    ProperSubmissionTold(cfg, o.instrument, Ticketed(e.book, v, r.now).order, r, e.book, Submit(r, e.book, v).1);
  }

  /**
   What an arriving order does to each order resting before it: nothing on its own side; a maker loses
   what it is told to have traded; under prevention an own maker trades nothing, and is gone exactly
   when it is told cancelled.
   */
  lemma ArrivalOthers(cfg: Config, d: Desk, o: Order, reference: Price, m: Order)
    requires Arrives(cfg, d, o, reference) && Rests(EngineOf(d, o.instrument).book, m)
    ensures var (d', told) := ProcessNew(cfg, d, o, reference);
            var lots := LotsAt(EngineOf(d', o.instrument).book, m.side, m.price, m.id);
            var traded, cancelled := ToldWith(told, m.price, m.id), One(CancelledReport(o.instrument, m.id)) in told;
            if m.side == o.side then lots == m.remaining
            else if Prevents(cfg.setup.policy, o.user) && m.user == o.user then
              traded == 0 && lots == (if cancelled then 0 else m.remaining)
            else lots == m.remaining - traded && !cancelled
  {
    hide Arrives, Lawful, Sound, Submit, Told, BudgetFits, LotsAt, ProcessNew, MayRest, Met, Rests, Traded, TradedWith,
      ToldLots, ToldWith;
    ArrivesMeans(cfg, d, o, reference);
    Arriving(cfg, d, o, reference);
    var e, v := EngineOf(d, o.instrument), Met(cfg, d, o, reference);
    var r := RulesAt(cfg.setup, e.clock + 1);
    var rep := Submit(r, e.book, v).1;
    assert m.id != o.id;
    Bystanders(r, e.book, v, m);
    SubmissionTold(cfg, o.instrument, o.id, rep, m.price, m.id);
    AllowPullsNothing(r, e.book, v);
    CancelsTold(cfg, o.instrument, o.id, rep, m.id);
  }

  lemma AllowPullsNothing(r: Rules, b: Book, o: Order)
    requires Sound(b) && Lawful(r.strategy) && BudgetFits(o)
    ensures r.policy.Allow? ==> Submit(r, b, o).1.pulled == []
  {
    hide Sound, Lawful, Cross, Joined, BudgetCovers, CrossableLots, FloorPrice;
    var t := Ticketed(b, o, r.now);
    if r.policy.Allow? && t.admitted {
      NothingPulled(r, b, t.order, t.budget);
    }
  }
}
