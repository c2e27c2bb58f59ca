/** Small batches and what they tell: the commands of the runs that do not come back. */
module Samples {
  import opened Types
  import opened Books
  import opened Strategies
  import opened Matching
  import opened Submissions
  import opened Processing
  import opened Desks
  import opened Histories
  import opened Renderings
  import opened Batches

  /** A halt or a resume with a new id. */
  lemma SwitchTells(cfg: Config, d: Desk, cmd: Command)
    requires Lawful(cfg.setup.strategy) && !cfg.dedup && DeskInv(cfg, d)
    requires (cmd.Halt? || cmd.Resume?) && cmd.Id() != 0 && cmd.Id() !in d.seen
    ensures Takes(cfg, d, [cmd])
    ensures Tell(cfg, d, [cmd]) ==
              [One(if cmd.Halt? then HaltedReport(cmd.instrument) else ResumedReport(cmd.instrument))]
    ensures Batches.After(cfg, d, [cmd]) ==
              d.(seen := d.seen + {cmd.Id()},
                 halted := if cmd.Halt? then d.halted + {cmd.instrument} else d.halted - {cmd.instrument})
  {
    hide Lawful, DeskInv, Sound;
    OkSound(cfg, d);
    OneCommand(cfg, d, cmd);
  }

  /** A force-close without a closing order. */
  function Close(user: User, id: OrderId): Command {
    ForceClose(0, user, id, Buy, 0)
  }

  lemma CloseTells(cfg: Config, d: Desk, user: User, id: OrderId)
    requires Lawful(cfg.setup.strategy) && !cfg.dedup && DeskInv(cfg, d) && id != 0 && id !in d.seen
    ensures Takes(cfg, d, [Close(user, id)])
    ensures Tell(cfg, d, [Close(user, id)]) == [CancelBlock(0, IdsOfUser(EngineOf(d, 0).book, user))]
    ensures Batches.After(cfg, d, [Close(user, id)]).seen == d.seen + {id}
  {
    hide Lawful, DeskInv, Sound, IdsOfUser, Cleared;
    OkSound(cfg, d);
    OneCommand(cfg, d, Close(user, id));
  }

  lemma NobodyRests(user: User)
    ensures IdsOfUser(EngineOf(NEW_DESK, 0).book, user) == {}
  {
    assert Resting(FRESH.book) == {};
  }

  /** A buy of one lot at price 5 that rests, by user 9. */
  function Buying(id: OrderId): Order {
    Order(id, 0, 9, Buy, Limit, Gtc, 5, 1, 1, 0)
  }

  /** The book with these orders of user 9 and nothing to hit. */
  predicate OnlyBuys(b: Book, q: seq<Order>) {
    b == Book(if q == [] then map[] else map[5 := q], map[])
    && forall k :: 0 <= k < |q| ==> q[k] == Buying(q[k].id).(timestamp := q[k].timestamp)
  }

  lemma BuyRests(r: Rules, b: Book, q: seq<Order>, o: Order)
    requires Sound(b) && Lawful(r.strategy) && OnlyBuys(b, q) && o == Buying(o.id)
    ensures OnlyBuys(Submit(r, b, o).0, q + [o.(timestamp := r.now)])
  {
    hide Lawful, Sound, Honours;
    var t := Ticketed(b, o, r.now);
    assert OneRound(r, b, t.order, t.budget).Halt?;
    assert Queue(b, Buy, 5) == q;
  }

  lemma BuysOf(b: Book, q: seq<Order>)
    requires OnlyBuys(b, q)
    ensures IdsOfUser(b, 9) == set o | o in q :: o.id
  {
    forall o ensures o in Resting(b) <==> o in q {
      if o in q {
        assert 5 in b.bids && o in b.bids[5];
      }
    }
  }

  /** A desk with nothing but such a book. */
  predicate OnlyDesk(d: Desk, q: seq<Order>) {
    OnlyBuys(EngineOf(d, 0).book, q) && EngineOf(d, 0).clock == |q| && d.halted == {} && d.suspended == {}
  }

  lemma BuyHasRoom(b: Book, q: seq<Order>, o: Order)
    requires OnlyBuys(b, q) && |q| <= 1 && o == Buying(o.id)
    ensures RoomFor(b, o.(remaining := o.quantity)) && BudgetFits(o)
  {
    BuysOf(b, q);
    assert Queue(b, Buy, 5) == q;
    if q == [] {
      assert IdsOfUser(b, 9) == {};
    } else {
      assert q[1..] == [] && q == [q[0]];
      assert IdsOfUser(b, 9) == {q[0].id};
    }
  }

  lemma BuyProcessed(cfg: Config, d: Desk, q: seq<Order>, id: OrderId)
    requires Replayable(cfg) && cfg.limits.None? && !cfg.dedup && DeskInv(cfg, d) && id != 0 && id !in d.seen
    requires OnlyDesk(d, q) && |q| <= 1
    ensures DeskSound(d) && Fits(d, New(Buying(id)))
    ensures var d' := Process(cfg, d, Input(New(Buying(id)), 0)).0;
            && DeskInv(cfg, d') && d'.seen == d.seen + {id}
            && OnlyDesk(d', q + [Buying(id).(timestamp := |q| + 1)])
  {
    hide Lawful, DeskInv, Sound, Submit, RoomFor, Booked, Told, OnlyBuys;
    var o := Buying(id);
    OkSound(cfg, d);
    FreshSound(d, 0);
    BuyHasRoom(EngineOf(d, 0).book, q, o);
    ProcessKeeps(cfg, d, Input(New(o), 0));
    BuyRests(RulesAt(cfg.setup, |q| + 1), EngineOf(d, 0).book, q, o);
  }

  /** Two orders of one user come to rest on a new shard. */
  lemma TwoBuys(cfg: Config)
    requires Replayable(cfg) && cfg.limits.None? && !cfg.dedup
    ensures DeskInv(cfg, NEW_DESK)
    ensures var cmds := [New(Buying(1)), New(Buying(2))];
            && Takes(cfg, NEW_DESK, cmds)
            && var d := Batches.After(cfg, NEW_DESK, cmds);
               DeskInv(cfg, d) && d.seen == {1, 2} && IdsOfUser(EngineOf(d, 0).book, 9) == {1, 2}
  {
    hide Lawful, DeskInv, Takes, Tell, Batches.After, Process, Fits, OnlyBuys, IdsOfUser, DeskSound;
    NewDeskOk(cfg);
    assert OnlyBuys(FRESH.book, []) by {
      NoBuys();
    }
    var a, b := New(Buying(1)), New(Buying(2));
    BuyProcessed(cfg, NEW_DESK, [], 1);
    var d1 := Process(cfg, NEW_DESK, Input(a, 0)).0;
    var q := [] + [Buying(1).(timestamp := 1)];
    BuyProcessed(cfg, d1, q, 2);
    var d2 := Process(cfg, d1, Input(b, 0)).0;
    OneCommand(cfg, d1, b);
    TakesMore(cfg, NEW_DESK, a, [b]);
    assert [a] + [b] == [a, b] && [a, b][1..] == [b];
    TakesFirst(cfg, NEW_DESK, [a, b]);
    BuysOf(EngineOf(d2, 0).book, q + [Buying(2).(timestamp := 2)]);
    TwoIds(q + [Buying(2).(timestamp := 2)]);
    assert {} + {1} + {2} == {1, 2};
  }

  lemma NoBuys()
    ensures OnlyBuys(FRESH.book, [])
  {}

  lemma TwoIds(q: seq<Order>)
    requires |q| == 2 && q[0].id == 1 && q[1].id == 2
    ensures (set o | o in q :: o.id) == {1, 2}
  {
    assert q[0] in q && q[1] in q;
  }

  // --- a retry past a snapshot ------------------------------------------------------------------------------

  /** An immediate-or-cancel order that finds nothing. */
  const TAKER: Order := Order(7, 0, 0, Buy, Limit, Ioc, 5, 1, 1, 0)

  /** On a shard with an empty book it is accepted and cancelled: two reports. */
  lemma TakerTells(cfg: Config, d: Desk)
    requires Replayable(cfg) && cfg.limits.None? && !cfg.dedup && DeskInv(cfg, d) && 7 !in d.seen
    requires EngineOf(d, 0).book == FRESH.book && EngineOf(d, 0).clock < 9 && d.halted == {} && d.suspended == {}
    ensures Takes(cfg, d, [New(TAKER)])
    ensures |Tell(cfg, d, [New(TAKER)])| == 2 && Fixed(Tell(cfg, d, [New(TAKER)]))
  {
    hide Lawful, DeskInv, Sound, Submit, Booked;
    OkSound(cfg, d);
    FreshSound(d, 0);
    OneCommand(cfg, d, New(TAKER));
    NothingHit(RulesAt(cfg.setup, EngineOf(d, 0).clock + 1));
  }

  lemma NothingHit(r: Rules)
    requires Sound(FRESH.book) && Lawful(r.strategy)
    ensures BudgetFits(TAKER)
    ensures var (b, rep) := Submit(r, FRESH.book, TAKER); b == FRESH.book && rep.trades == [] && rep.pulled == []
  {
    hide Lawful, Sound;
    var t := Ticketed(FRESH.book, TAKER, r.now);
    assert OneRound(r, FRESH.book, t.order, t.budget).Halt?;
  }

  /** A shard that has seen its id refuses it: one report. */
  lemma RetryTells(cfg: Config, d: Desk)
    requires Lawful(cfg.setup.strategy) && DeskInv(cfg, d) && 7 in d.seen && EngineOf(d, 0).clock < 9
    ensures Takes(cfg, d, [New(TAKER)]) && Tell(cfg, d, [New(TAKER)]) == [One(RejectedReport(0, 7, Duplicate))]
  {
    hide Lawful, DeskInv, Sound, Perform;
    OkSound(cfg, d);
    OneCommand(cfg, d, New(TAKER));
  }
}
