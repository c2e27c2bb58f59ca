/** What the reports of a command say, read from the reports alone. */
module Narrations {
  import opened Types
  import opened Books
  import opened Matching
  import opened Crossings
  import opened Submissions
  import opened Processing

  predicate IsTrade(e: Emission) {
    e.One? && e.report.TradeReport?
  }

  /** Lots reported as traded. */
  function ToldLots(told: seq<Emission>): nat {
    if told == [] then 0 else (if IsTrade(told[0]) then told[0].report.qty else 0) + ToldLots(told[1..])
  }

  /** Lots reported as traded with one maker at one price. */
  function ToldWith(told: seq<Emission>, p: Price, maker: OrderId): nat {
    if told == [] then 0
    else
      (if IsTrade(told[0]) && told[0].report.maker == maker && told[0].report.price == p then told[0].report.qty else 0)
      + ToldWith(told[1..], p, maker)
  }

  /** Every trade reported is one of this taker on this side, at a price within the limit, with its fees. */
  ghost predicate TellsTradesOf(cfg: Config, told: seq<Emission>, i: u32, taker: OrderId, side: Side,
    limit: Option<Price>) {
    forall k :: 0 <= k < |told| && IsTrade(told[k]) ==>
      var r := told[k].report;
      && r.instrument == i && r.taker == taker && r.aggressor == side && r.qty > 0 && r.fees == cfg.fees(r.price, r.qty)
      && (limit.Some? ==> if side.Buy? then r.price <= limit.value else r.price >= limit.value)
  }

  lemma {:induction false} ToldConcat(a: seq<Emission>, b: seq<Emission>, p: Price, maker: OrderId)
    ensures ToldLots(a + b) == ToldLots(a) + ToldLots(b)
    ensures ToldWith(a + b, p, maker) == ToldWith(a, p, maker) + ToldWith(b, p, maker)
    decreases |a|
  {
    if a == [] {
      assert a + b == b;
    } else {
      assert (a + b)[1..] == a[1..] + b;
      ToldConcat(a[1..], b, p, maker);
    }
  }

  /** Reports other than trades tell of no lots. */
  lemma {:induction false} ToldNothing(told: seq<Emission>, p: Price, maker: OrderId)
    requires forall k :: 0 <= k < |told| ==> !IsTrade(told[k])
    ensures ToldLots(told) == 0 && ToldWith(told, p, maker) == 0
  {
    if told != [] {
      ToldNothing(told[1..], p, maker);
    }
  }

  /** The trade reports are the trades, one for one. */
  lemma {:induction false} TradesTold(cfg: Config, i: u32, ts: seq<Trade>, p: Price, maker: OrderId)
    ensures var told := TradeReports(cfg, i, ts);
            && |told| == |ts| && ToldLots(told) == Traded(ts) && ToldWith(told, p, maker) == TradedWith(ts, p, maker)
            && forall k :: 0 <= k < |ts| ==>
                 told[k] == One(TradeReport(i, ts[k].taker, ts[k].maker, ts[k].aggressor, ts[k].price, ts[k].quantity,
                                            cfg.fees(ts[k].price, ts[k].quantity)))
  {
    if ts != [] {
      TradesTold(cfg, i, ts[1..], p, maker);
      assert TradeReports(cfg, i, ts)[1..] == TradeReports(cfg, i, ts[1..]);
    }
  }

  lemma {:induction false} PulledTold(i: u32, ids: seq<OrderId>)
    ensures var told := PulledReports(i, ids);
            |told| == |ids| && forall k :: 0 <= k < |ids| ==> told[k] == One(CancelledReport(i, ids[k]))
  {
    if ids != [] {
      PulledTold(i, ids[1..]);
    }
  }

  /** Trades that are proper are reported as such. */
  lemma ProperTold(cfg: Config, i: u32, r: Rules, b: Book, o: Order, ts: seq<Trade>)
    requires forall k :: 0 <= k < |ts| ==> ProperTrade(r, b, o, ts[k])
    ensures TellsTradesOf(cfg, TradeReports(cfg, i, ts), i, o.id, o.side, if o.orderType.Limit? then
            Some(o.price) else None)
  {
    TradesTold(cfg, i, ts, 0, 0);
    forall k | 0 <= k < |ts|
      ensures ts[k].taker == o.id && ts[k].aggressor == o.side && ts[k].quantity > 0 && Crosses(o, ts[k].price)
    {
      assert ProperTrade(r, b, o, ts[k]);
    }
  }

  lemma LastIsNoTrade(i: u32, id: OrderId, rep: Report)
    ensures !StatusReport(i, id, rep).TradeReport?
  {}

  /** Reports that are not trades, around those that are, tell no more. */
  lemma Surrounded(front: seq<Emission>, trades: seq<Emission>, last: ExecReport, p: Price, maker: OrderId)
    requires (forall k :: 0 <= k < |front| ==> !IsTrade(front[k])) && !last.TradeReport?
    ensures var told := front + trades + [One(last)];
            ToldLots(told) == ToldLots(trades) && ToldWith(told, p, maker) == ToldWith(trades, p, maker)
  {
    hide ToldLots, ToldWith;
    ToldNothing(front, p, maker);
    ToldNothing([One(last)], p, maker);
    ToldConcat(front, trades, p, maker);
    ToldConcat(front + trades, [One(last)], p, maker);
  }

  /** What comes before the trades of a submission: its acceptance and the makers it pulled. */
  function Preface(cfg: Config, i: u32, id: OrderId, rep: Report): seq<Emission> {
    [One(Accepted(i, id))] + if cfg.setup.policy.Allow? then [] else PulledReports(i, rep.pulled)
  }

  lemma PrefaceTells(cfg: Config, i: u32, id: OrderId, rep: Report)
    ensures var front := Preface(cfg, i, id, rep);
            && |front| == 1 + (if cfg.setup.policy.Allow? then 0 else |rep.pulled|) && front[0] == One(Accepted(i, id))
            && forall k :: 1 <= k < |front| ==> front[k] == One(CancelledReport(i, rep.pulled[k - 1]))
    ensures Told(cfg, i, id, rep) ==
            Preface(cfg, i, id, rep) + TradeReports(cfg, i, rep.trades) + [One(StatusReport(i, id, rep))]
  {
    hide PulledReports, TradeReports;
    PulledTold(i, rep.pulled);
  }

  /** A submission is told from acceptance to outcome, with all of its trades between and no others. */
  lemma SubmissionTold(cfg: Config, i: u32, id: OrderId, rep: Report, p: Price, maker: OrderId)
    ensures var told := Told(cfg, i, id, rep);
            && ToldLots(told) == Traded(rep.trades) && ToldWith(told, p, maker) == TradedWith(rep.trades, p, maker)
            && |told| >= 2 && told[0] == One(Accepted(i, id)) && told[|told| - 1] == One(StatusReport(i, id, rep))
  {
    hide ToldLots, ToldWith, Traded, TradedWith, TradeReports, StatusReport, Preface, Told;
    PrefaceTells(cfg, i, id, rep);
    LastIsNoTrade(i, id, rep);
    TradesTold(cfg, i, rep.trades, p, maker);
    Surrounded(Preface(cfg, i, id, rep), TradeReports(cfg, i, rep.trades), StatusReport(i, id, rep), p, maker);
  }

  lemma ProperSubmissionTold(cfg: Config, i: u32, o: Order, r: Rules, b: Book, rep: Report)
    requires forall k :: 0 <= k < |rep.trades| ==> ProperTrade(r, b, o, rep.trades[k])
    ensures TellsTradesOf(cfg, Told(cfg, i, o.id, rep), i, o.id, o.side,
                          if o.orderType.Limit? then Some(o.price) else None)
  {
    hide ProperTrade, TradeReports, StatusReport, Preface, Told;
    PrefaceTells(cfg, i, o.id, rep);
    LastIsNoTrade(i, o.id, rep);
    ProperTold(cfg, i, r, b, o, rep.trades);
  }

  /** The makers told cancelled are those pulled. */
  lemma CancelsTold(cfg: Config, i: u32, id: OrderId, rep: Report, maker: OrderId)
    requires maker != id && (cfg.setup.policy.Allow? ==> rep.pulled == [])
    ensures One(CancelledReport(i, maker)) in Told(cfg, i, id, rep) <==> maker in rep.pulled
  {
    hide TradeReports, Preface, Told, TradedWith, ToldWith, ToldLots, Traded;
    PrefaceTells(cfg, i, id, rep);
    TradesTold(cfg, i, rep.trades, 0, 0);
    var front, told := Preface(cfg, i, id, rep), Told(cfg, i, id, rep);
    if maker in rep.pulled {
      var k :| 0 <= k < |rep.pulled| && rep.pulled[k] == maker;
      assert told[k + 1] == front[k + 1];
    }
  }
}
