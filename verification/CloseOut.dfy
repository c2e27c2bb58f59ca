/** Force-closing a user: their orders leave the book, and one order flattens the position against the rest. */
module CloseOuts {
  import opened Types
  import opened Books
  import opened Strategies
  import opened Matching
  import opened Crossings
  import opened Prechecks
  import opened SelfTrades
  import opened Submissions
  import opened Outcomes
  import opened Remainders
  import opened Processing
  import opened Desks
  import opened Narrations
  import opened SnapshotFiles
  import opened SavedDesks
  import opened Ledgers
  import opened Gates

  // --- a book without the user -----------------------------------------------------------------------------

  ghost predicate NoneOf(b: Book, user: User) {
    forall m :: Rests(b, m) ==> m.user != user
  }

  /** Clearing takes off the user's orders, both sides, and leaves every other order as it is. */
  lemma ClearedExactly(b: Book, user: User, m: Order)
    ensures Rests(Cleared(b, user), m) <==> Rests(b, m) && m.user != user
  {
    hide WithoutUser, Others, Queue;
    WithoutUserQueue(WithoutUser(b, Buy, user), Sell, user, m.side, m.price);
    WithoutUserQueue(b, Buy, user, m.side, m.price);
    OthersCome(Queue(WithoutUser(b, Buy, user), m.side, m.price), user, m);
    OthersCome(Queue(b, m.side, m.price), user, m);
    assert m.side == Buy || m.side == Sell;
  }

  lemma ClearedSound(b: Book, user: User)
    requires Sound(b)
    ensures Sound(Cleared(b, user)) && NoneOf(Cleared(b, user), user)
  {
    hide Sound, WithoutUser, Rests;
    WithoutUserSound(b, Buy, user);
    WithoutUserSound(WithoutUser(b, Buy, user), Sell, user);
    forall m | Rests(Cleared(b, user), m) ensures m.user != user {
      ClearedExactly(b, user, m);
    }
  }

  lemma NoneOnLevel(b: Book, user: User, side: Side, p: Price)
    requires GoodBook(b) && NoneOf(b, user)
    ensures !HasOwn(Queue(b, side, p), user)
  {
    hide GoodBook, Rests;
    var q := Queue(b, side, p);
    forall i | 0 <= i < |q| ensures q[i].user != user {
      RestsAt(b, side, p, q[i]);
    }
  }

  /** With nothing of the user's on the book, all that is crossable lies ahead. */
  lemma {:induction false} AllAhead(s: Strategy, b: Book, side: Side, limit: Price, user: User)
    requires forall p :: !HasOwn(Queue(b, side, p), user)
    ensures LotsAhead(s, b, side, limit, user) == CrossableLots(b, side, limit)
    decreases |Levels(b, side)|
  {
    hide Best, Front, HasOwn, Better;
    var best := Best(b, side);
    if best.Some? && !Better(side, limit, best.value) {
      WithoutSmaller(b, side, best.value);
      NoneHere(user);
      forall p ensures !HasOwn(Queue(Without(b, side, best.value), side, p), user) {
        QueueWithQueue(b, side, best.value, [], side, p);
      }
      AllAhead(s, Without(b, side, best.value), side, limit, user);
    }
  }

  lemma NoneHere(user: User)
    ensures !HasOwn([], user)
  {}

  lemma WithoutNobody(b: Book, side: Side, user: User)
    requires GoodBook(b) && NoneOf(b, user)
    ensures WithoutUser(b, side, user) == b
  {
    hide WithoutUser, Others, NoneOf, HasOwn, GoodQueue, Queue;
    WithoutUserNoEmpty(b, side, user);
    forall side', p ensures Queue(WithoutUser(b, side, user), side', p) == Queue(b, side', p) {
      WithoutUserQueue(b, side, user, side', p);
      NoneOnLevel(b, user, side, p);
      OthersOfNone(Queue(b, side, p), user);
    }
    SameQueues(WithoutUser(b, side, user), b);
  }

  /** An order whose user has nothing resting is never stopped, and takes all it can reach. */
  lemma TakesAll(r: Rules, b: Book, o: Order)
    requires GoodBook(b) && NoneOf(b, o.user) && !o.tif.Fok?
    ensures Takes(r, b, o) == Min(o.quantity, CrossableLots(b, o.side.Opposite(), EffectiveLimit(o)))
  {
    hide GoodBook, NoneOf, LotsAhead, CrossableLots, WithoutUser, EffectiveLimit, HasOwn;
    var side := o.side.Opposite();
    forall p ensures !HasOwn(Queue(b, side, p), o.user) {
      NoneOnLevel(b, o.user, side, p);
    }
    AllAhead(r.strategy, b, side, EffectiveLimit(o), o.user);
    WithoutNobody(b, side, o.user);
  }

  // --- the closing order -------------------------------------------------------------------------------------

  /** The gates a close-out meets; the user's orders are gone, so the cap is never one of them. */
  ghost function CloseGate(cfg: Config, d: Desk, cmd: Command, reference: Price): Gate
    requires cmd.ForceClose?
  {
    Gated(cfg, d.halted, d.suspended, CloseOrder(cmd), reference)
  }

  /** What gets past the gates is an order of that user and side for that quantity that cannot rest. */
  lemma CloseGateKeeps(cfg: Config, d: Desk, cmd: Command, reference: Price)
    requires cmd.ForceClose? && CloseGate(cfg, d, cmd, reference).Open?
    ensures var v := CloseGate(cfg, d, cmd, reference).order;
            && v.id == cmd.closeId && v.user == cmd.user && v.side == cmd.closeSide && v.instrument == cmd.instrument
            && v.quantity == cmd.closeQty && v.tif == Ioc && !MayRest(v) && BudgetFits(v)
            && (cfg.bandBps.None? || reference == 0 ==> v.orderType.Market?)
            && (cfg.bandBps.Some? && reference > 0 ==>
                  v.orderType.Limit? && NearReference(cfg.bandBps.value, reference, cmd.closeSide, v.price))
  {
    hide Band, NearReference, StaticCheck;
    GuardExactly(cfg, reference, CloseOrder(cmd));
  }

  /** The desk with the user's orders off the instrument's book. */
  ghost function WithCleared(d: Desk, i: u32, user: User): Desk {
    d.(engines := d.engines[i := EngineOf(d, i).(book := Cleared(EngineOf(d, i).book, user))])
  }

  lemma NobodyCounts(b: Book, user: User)
    requires Sound(b) && NoneOf(b, user)
    ensures IdsOfUser(b, user) == {}
  {
    hide IdsUnique, Fitting, Resting, Rests;
    forall o | o in Resting(b) ensures o.user != user {
      RestingAre(b, o);
    }
  }

  /**
   A force-close that asks for lots: the user's orders are cleared and told, then one order is
   submitted or refused.
   */
  lemma Closing(cfg: Config, d: Desk, cmd: Command, reference: Price)
    requires DeskSound(d) && Lawful(cfg.setup.strategy) && Fits(d, cmd) && cmd.ForceClose? && cmd.closeQty > 0
    ensures var e, g := EngineOf(d, cmd.instrument), CloseGate(cfg, d, cmd, reference);
            var b, i := Cleared(e.book, cmd.user), cmd.instrument;
            && Sound(b) && NoneOf(b, cmd.user) && e.clock < U64_MAX
            && (g.Open? ==> BudgetFits(g.order))
            && var block := CancelBlock(i, IdsOfUser(e.book, cmd.user));
            Perform(cfg, d, Input(cmd, reference)) ==
            if g.Shut? then (WithCleared(d, i, cmd.user), [block, One(RejectedReport(i, cmd.closeId, g.reason))])
            else
              var (b', rep) := Submit(RulesAt(cfg.setup, e.clock + 1), b, g.order);
              (d.(engines := d.engines[i := Engine(b', e.clock + 1)], positions := Booked(d.positions, i, rep.trades)),
               [block] + Told(cfg, i, cmd.closeId, rep))
  {
    hide Lawful, Sound, Submit, Cleared, IdsOfUser, Booked, Told, NoneOf, Gated, NearReference;
    var i, user := cmd.instrument, cmd.user;
    FreshSound(d, i);
    ClearingSound(d, i, user);
    ClearedSound(EngineOf(d, i).book, user);
    NobodyCounts(Cleared(EngineOf(d, i).book, user), user);
    var g := CloseGate(cfg, d, cmd, reference);
    if g.Open? {
      CloseGateKeeps(cfg, d, cmd, reference);
      NewlyEntered(cfg, WithCleared(d, i, user), CloseOrder(cmd), reference);
      var b' := Submit(RulesAt(cfg.setup, EngineOf(d, i).clock + 1), Cleared(EngineOf(d, i).book, user), g.order).0;
      assert WithCleared(d, i, user).engines[i := Engine(b', EngineOf(d, i).clock + 1)] ==
        d.engines[i := Engine(b', EngineOf(d, i).clock + 1)];
    } else {
      var block := CancelBlock(i, IdsOfUser(EngineOf(d, i).book, user));
      assert [block] + Refused(i, cmd.closeId, g.reason) == [block, One(RejectedReport(i, cmd.closeId, g.reason))];
    }
  }

  lemma NewlyEntered(cfg: Config, d: Desk, o: Order, reference: Price)
    requires DeskSound(d) && Lawful(cfg.setup.strategy) && BudgetFits(o) && EngineOf(d, o.instrument).clock < U64_MAX
    requires Gated(cfg, d.halted, d.suspended, o, reference).Open?
    requires IdsOfUser(EngineOf(d, o.instrument).book, o.user) == {}
    ensures var v, e, i := Gated(cfg, d.halted, d.suspended, o, reference).order, EngineOf(d, o.instrument),
            o.instrument;
            && Sound(e.book) && BudgetFits(v)
            && var (b', rep) := Submit(RulesAt(cfg.setup, e.clock + 1), e.book, v);
            ProcessNew(cfg, d, o, reference) ==
            (d.(engines := d.engines[i := Engine(b', e.clock + 1)], positions := Booked(d.positions, i, rep.trades)),
             Told(cfg, i, o.id, rep))
  {
    hide Lawful, Sound, Submit, Gated, Booked, Told, IdsOfUser, BudgetFits;
    OpenKeeps(cfg, d.halted, d.suspended, o, reference);
    FreshSound(d, o.instrument);
  }

  // --- what a force-close does --------------------------------------------------------------------------------

  /** The reports of a submission, behind a block of cancels. */
  lemma ToldBehind(cfg: Config, i: u32, ids: set<OrderId>, o: Order, r: Rules, b: Book, rep: Report, p: Price,
    maker: OrderId)
    requires forall k :: 0 <= k < |rep.trades| ==> ProperTrade(r, b, o, rep.trades[k])
    ensures var told := [CancelBlock(i, ids)] + Told(cfg, i, o.id, rep);
            && ToldLots(told) == Traded(rep.trades) && ToldWith(told, p, maker) == TradedWith(rep.trades, p, maker)
            && TellsTradesOf(cfg, told, i, o.id, o.side, if o.orderType.Limit? then Some(o.price) else None)
  {
    hide ToldLots, ToldWith, Traded, TradedWith, ProperTrade, Told;
    SubmissionTold(cfg, i, o.id, rep, p, maker);
    ProperSubmissionTold(cfg, i, o, r, b, rep);
    ToldNothing([CancelBlock(i, ids)], p, maker);
    ToldConcat([CancelBlock(i, ids)], Told(cfg, i, o.id, rep), p, maker);
  }

  /**
   A force-close past the gates. Afterwards nothing of the user's rests. Every trade told is of the
   close id on the close side. It takes the lots asked for, or all there are within its limit once the
   user's own orders are gone.
   */
  lemma CloseOutTrades(cfg: Config, d: Desk, cmd: Command, reference: Price)
    requires DeskSound(d) && Lawful(cfg.setup.strategy) && Fits(d, cmd) && cmd.ForceClose? && cmd.closeQty > 0
    requires CloseGate(cfg, d, cmd, reference).Open?
    ensures var i, v := cmd.instrument, CloseGate(cfg, d, cmd, reference).order;
            var (d', told) := Perform(cfg, d, Input(cmd, reference));
            && |told| > 0 && told[0] == CancelBlock(i, IdsOfUser(EngineOf(d, i).book, cmd.user))
            && NoneOf(EngineOf(d', i).book, cmd.user)
            && TellsTradesOf(cfg, told, i, cmd.closeId, cmd.closeSide, if v.orderType.Limit? then
              Some(v.price) else None)
            && ToldLots(told) ==
                 Min(cmd.closeQty,
                     CrossableLots(Cleared(EngineOf(d, i).book, cmd.user), cmd.closeSide.Opposite(), EffectiveLimit(v)))
  {
    hide Lawful, Sound, Submit, Cleared, IdsOfUser, Booked, Told, NoneOf, CloseGate, NearReference, TellsTradesOf,
      ToldLots, ToldWith, Traded, TradedWith, Takes, CrossableLots, EffectiveLimit, ProperTrade, Perform, Fits, MayRest,
      BudgetFits, BestFirstTrades, LotsAt;
    Closing(cfg, d, cmd, reference);
    CloseGateKeeps(cfg, d, cmd, reference);
    var i, e, v := cmd.instrument, EngineOf(d, cmd.instrument), CloseGate(cfg, d, cmd, reference).order;
    var r, b := RulesAt(cfg.setup, e.clock + 1), Cleared(e.book, cmd.user);
    var (b', rep) := Submit(r, b, v);
    NothingLeft(r, b, v);
    TradesWhatIsThere(r, b, v);
    SoundIsGood(b);
    TakesAll(r, b, v);
    SubmissionTrades(r, b, v, 0, 0);
    var t := Ticketed(b, v, r.now).order;
    ToldBehind(cfg, i, IdsOfUser(e.book, cmd.user), t, r, b, rep, 0, 0);
  }

  lemma SoundIsGood(b: Book)
    requires Sound(b)
    ensures GoodBook(b)
  {}

  /** An order that may not rest leaves its user with nothing where the user had nothing. */
  lemma NothingLeft(r: Rules, b: Book, o: Order)
    requires Sound(b) && Lawful(r.strategy) && BudgetFits(o) && NoneOf(b, o.user) && !MayRest(o)
    ensures NoneOf(Submit(r, b, o).0, o.user)
  {
    hide Sound, Lawful, Submit, Rests, MayRest, BudgetFits;
    forall m | Rests(Submit(r, b, o).0, m) ensures m.user != o.user {
      SubmitRests(r, b, o, m);
    }
  }

  /** Every other user's order keeps its lots, less what it is told to have traded with the close-out. */
  lemma CloseOutOthers(cfg: Config, d: Desk, cmd: Command, reference: Price, m: Order)
    requires DeskSound(d) && Lawful(cfg.setup.strategy) && Fits(d, cmd) && cmd.ForceClose? && cmd.closeQty > 0
    requires Rests(EngineOf(d, cmd.instrument).book, m) && m.user != cmd.user && m.id != cmd.closeId
    ensures var (d', told) := Perform(cfg, d, Input(cmd, reference));
            LotsAt(EngineOf(d', cmd.instrument).book, m.side, m.price, m.id) ==
              m.remaining - if m.side == cmd.closeSide then 0 else ToldWith(told, m.price, m.id)
  {
    hide Lawful, Sound, Submit, Cleared, IdsOfUser, Booked, Told, NoneOf, CloseGate, NearReference, TellsTradesOf,
      ToldLots, ToldWith, Traded, TradedWith, CrossableLots, EffectiveLimit, ProperTrade, Perform, Fits, MayRest,
      BudgetFits, BestFirstTrades, LotsAt, Rests;
    Closing(cfg, d, cmd, reference);
    var i, e, g := cmd.instrument, EngineOf(d, cmd.instrument), CloseGate(cfg, d, cmd, reference);
    var r, b := RulesAt(cfg.setup, e.clock + 1), Cleared(e.book, cmd.user);
    ClearedExactly(e.book, cmd.user, m);
    if g.Open? {
      CloseGateKeeps(cfg, d, cmd, reference);
      var rep := Submit(r, b, g.order).1;
      Bystanders(r, b, g.order, m);
      SubmissionTrades(r, b, g.order, 0, 0);
      ToldBehind(cfg, i, IdsOfUser(e.book, cmd.user), Ticketed(b, g.order, r.now).order, r, b, rep, m.price, m.id);
    } else {
      RestingLots(b, m);
      ToldNothing(Perform(cfg, d, Input(cmd, reference)).1, m.price, m.id);
    }
  }

  /**
   With no halt, no suspension, no quantity limit in the way and no guard, every lot on the other
   side is in reach.
   */
  lemma PlainCloseOut(cfg: Config, d: Desk, cmd: Command, reference: Price)
    requires DeskSound(d) && Lawful(cfg.setup.strategy) && Fits(d, cmd) && cmd.ForceClose? && cmd.closeQty > 0
    requires cmd.instrument !in d.halted && (cmd.user == 0 || cmd.user !in d.suspended)
    requires cfg.bandBps.None? || reference == 0
    requires cfg.limits.None? || cfg.limits.value.maxOrderQty == 0 || cmd.closeQty <= cfg.limits.value.maxOrderQty
    ensures var (d', told) := Perform(cfg, d, Input(cmd, reference));
            var b, any := Cleared(EngineOf(d, cmd.instrument).book, cmd.user), if cmd.closeSide.Buy? then
              U64_MAX else 0;
            ToldLots(told) == Min(cmd.closeQty, CrossableLots(b, cmd.closeSide.Opposite(), any))
  {
    hide Lawful, Sound, Cleared, IdsOfUser, NoneOf, NearReference, TellsTradesOf, ToldLots, CrossableLots, Perform,
      Fits, MayRest, BudgetFits, Gated, Vetted;
    GateExactly(cfg, d.halted, d.suspended, CloseOrder(cmd), reference);
    NoBand(cfg, reference, CloseOrder(cmd));
    OpenIfVetted(cfg, d, cmd, reference);
    CloseGateKeeps(cfg, d, cmd, reference);
    CloseOutTrades(cfg, d, cmd, reference);
  }

  lemma NoBand(cfg: Config, reference: Price, o: Order)
    requires cfg.bandBps.None? || reference == 0
    ensures Vetted(cfg, reference, o) == Some(o)
  {
    hide Band;
  }

  lemma OpenIfVetted(cfg: Config, d: Desk, cmd: Command, reference: Price)
    requires cmd.ForceClose? && Vetted(cfg, reference, CloseOrder(cmd)).Some?
    requires cmd.instrument !in d.halted && (cmd.user == 0 || cmd.user !in d.suspended)
    requires cfg.limits.None? || cfg.limits.value.maxOrderQty == 0 || cmd.closeQty <= cfg.limits.value.maxOrderQty
    ensures CloseGate(cfg, d, cmd, reference).Open?
  {
    hide Vetted;
  }

  /** A force-close the gates refuse, or that asks for no lots, still clears the user and moves no position. */
  lemma OnlyClears(cfg: Config, d: Desk, cmd: Command, reference: Price)
    requires DeskSound(d) && Lawful(cfg.setup.strategy) && Fits(d, cmd) && cmd.ForceClose?
    requires cmd.closeQty == 0 || CloseGate(cfg, d, cmd, reference).Shut?
    ensures var (d', told) := Perform(cfg, d, Input(cmd, reference));
            && NoneOf(EngineOf(d', cmd.instrument).book, cmd.user) && d'.positions == d.positions
            && |told| > 0
              && told[0] == CancelBlock(cmd.instrument, IdsOfUser(EngineOf(d, cmd.instrument).book, cmd.user))
            && told[1..] == if cmd.closeQty == 0 then []
                            else [One(RejectedReport(cmd.instrument, cmd.closeId,
                                                     CloseGate(cfg, d, cmd, reference).reason))]
  {
    hide Lawful, Sound, Submit, Cleared, IdsOfUser, Booked, Told, NoneOf, CloseGate, ProcessNew;
    FreshSound(d, cmd.instrument);
    ClearedSound(EngineOf(d, cmd.instrument).book, cmd.user);
    if cmd.closeQty > 0 {
      Closing(cfg, d, cmd, reference);
    }
  }

  /** The user's position moves by exactly the lots told, towards the side closed on. */
  lemma CloseOutMoves(cfg: Config, d: Desk, cmd: Command, reference: Price)
    requires DeskSound(d) && Lawful(cfg.setup.strategy) && Fits(d, cmd) && cmd.ForceClose? && cmd.closeQty > 0
    requires CloseGate(cfg, d, cmd, reference).Open? && cmd.user != 0 && PositionsFit(d)
    ensures var (d', told) := Perform(cfg, d, Input(cmd, reference));
            Position(d'.positions, cmd.user, cmd.instrument) ==
              AsI64(Position(d.positions, cmd.user, cmd.instrument)
                    + if cmd.closeSide.Buy? then ToldLots(told) as int else 0 - ToldLots(told) as int)
  {
    hide Lawful, Sound, Submit, Cleared, IdsOfUser, Booked, Told, NoneOf, CloseGate, NearReference, TellsTradesOf,
      ToldLots, ToldWith, Traded, TradedWith, CrossableLots, EffectiveLimit, ProperTrade, Perform, Fits, MayRest,
      BudgetFits, BestFirstTrades, LotsAt, Position, AsI64, IsI64, BoughtBy, SoldBy;
    Closing(cfg, d, cmd, reference);
    CloseGateKeeps(cfg, d, cmd, reference);
    var i, e, v := cmd.instrument, EngineOf(d, cmd.instrument), CloseGate(cfg, d, cmd, reference).order;
    var r, b := RulesAt(cfg.setup, e.clock + 1), Cleared(e.book, cmd.user);
    var rep := Submit(r, b, v).1;
    SubmissionTrades(r, b, v, 0, 0);
    var t := Ticketed(b, v, r.now).order;
    ToldBehind(cfg, i, IdsOfUser(e.book, cmd.user), t, r, b, rep, 0, 0);
    FitsHere(d, cmd.user, i);
    BookedExactly(d.positions, i, rep.trades, cmd.user, i);
    AgainstOthers(r, b, t, rep.trades);
    TakersSide(rep.trades, cmd.closeSide, cmd.user, cmd.user);
  }

  /** Trades on a book without the taker's orders are all with others. */
  lemma AgainstOthers(r: Rules, b: Book, o: Order, ts: seq<Trade>)
    requires NoneOf(b, o.user) && forall k :: 0 <= k < |ts| ==> ProperTrade(r, b, o, ts[k])
    ensures forall k :: 0 <= k < |ts| ==>
              ts[k].aggressor == o.side && ts[k].takerUser == o.user && ts[k].makerUser != o.user
  {
    hide Rests;
    forall k | 0 <= k < |ts|
      ensures ts[k].aggressor == o.side && ts[k].takerUser == o.user && ts[k].makerUser != o.user
    {
      assert ProperTrade(r, b, o, ts[k]);
      var m :| MakerOf(b, o, ts[k], m);
    }
  }

  /** Closing the whole position against enough lots leaves the user flat. */
  lemma Flattens(cfg: Config, d: Desk, cmd: Command, reference: Price)
    requires DeskSound(d) && Lawful(cfg.setup.strategy) && Fits(d, cmd) && cmd.ForceClose? && cmd.closeQty > 0
    requires CloseGate(cfg, d, cmd, reference).Open? && cmd.user != 0 && PositionsFit(d)
    requires var was := Position(d.positions, cmd.user, cmd.instrument);
             if cmd.closeSide.Buy? then was + cmd.closeQty == 0 else was == cmd.closeQty
    requires cmd.closeQty <= CrossableLots(Cleared(EngineOf(d, cmd.instrument).book, cmd.user),
                                           cmd.closeSide.Opposite(),
                                           EffectiveLimit(CloseGate(cfg, d, cmd, reference).order))
    ensures var (d', told) := Perform(cfg, d, Input(cmd, reference));
            Position(d'.positions, cmd.user, cmd.instrument) == 0 && ToldLots(told) == cmd.closeQty
            && NoneOf(EngineOf(d', cmd.instrument).book, cmd.user)
  {
    hide Lawful, Sound, Cleared, IdsOfUser, NoneOf, CloseGate, TellsTradesOf, ToldLots, CrossableLots, EffectiveLimit,
      Perform, Fits, Position, PositionsFit;
    CloseOutTrades(cfg, d, cmd, reference);
    CloseOutMoves(cfg, d, cmd, reference);
  }
}
