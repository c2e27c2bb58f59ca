/** Runs of a desk over command histories: appending, splitting, and which ids they note. */
module Histories {
  import opened Types
  import opened Books
  import opened Strategies
  import opened Matching
  import opened Processing
  import opened Desks
  import opened Submissions

  /** The commands of a history as inputs. */
  function Inputs(h: seq<Command>): (r: seq<Input>)
    ensures |r| == |h| && forall k :: 0 <= k < |h| ==> r[k] == Input(h[k], 0)
  {
    seq(|h|, k requires 0 <= k < |h| => Input(h[k], 0))
  }

  /** Some command of the history carries this nonzero id. */
  ghost predicate Carries(h: seq<Command>, id: u64) {
    id != 0 && exists k :: 0 <= k < |h| && h[k].Id() == id
  }

  lemma PerformSeen(cfg: Config, d: Desk, input: Input)
    requires DeskSound(d) && Lawful(cfg.setup.strategy) && Fits(d, input.cmd)
    ensures var n := Perform(cfg, d, input).0; n.seen == d.seen && n.maxNew == d.maxNew && n.maxAdmin == d.maxAdmin
  {
    hide Lawful, ToldAmended, Step, Enabled, RoomFor, Find, Cleared, Gated, CapReached, Told, Booked;
    if input.cmd.ForceClose? {
      ClearingSound(d, input.cmd.instrument, input.cmd.user);
    }
  }

  /** A command's id is noted, whatever becomes of the command; the cursors of the streams only move up. */
  lemma ProcessSeen(cfg: Config, d: Desk, input: Input)
    requires DeskSound(d) && Lawful(cfg.setup.strategy) && Fits(d, input.cmd)
    ensures Process(cfg, d, input).0.seen == d.seen + if input.cmd.Id() == 0 then {} else {input.cmd.Id()}
    ensures d.maxNew <= Process(cfg, d, input).0.maxNew && d.maxAdmin <= Process(cfg, d, input).0.maxAdmin
  {
    hide Lawful, Perform, Enabled, RoomFor;
    if !Repeated(cfg, d, input.cmd) {
      PerformSeen(cfg, Noted(cfg, d, input.cmd), input);
    }
  }

  /** A repeated command that is already noted changes nothing. */
  lemma RepeatChangesNothing(cfg: Config, d: Desk, input: Input)
    requires DeskSound(d) && Lawful(cfg.setup.strategy) && Fits(d, input.cmd) && input.cmd.Id() != 0
             && input.cmd.Id() in d.seen
    ensures Process(cfg, d, input).0 == d
  {
    hide Lawful, Perform, Enabled, RoomFor;
    assert d.seen + {input.cmd.Id()} == d.seen;
  }

  /** A run in two parts. */
  lemma {:induction false} RunSplits(cfg: Config, d: Desk, a: seq<Input>, b: seq<Input>)
    requires DeskInv(cfg, d) && Lawful(cfg.setup.strategy)
    ensures Handles(cfg, d, a + b) ==> Handles(cfg, d, a) && DeskInv(cfg, DeskAfter(cfg, d, a))
    ensures Handles(cfg, d, a) && DeskInv(cfg, DeskAfter(cfg, d, a)) && Handles(cfg, DeskAfter(cfg, d, a), b) ==>
            Handles(cfg, d, a + b)
    ensures Handles(cfg, d, a + b) ==>
      Handles(cfg, DeskAfter(cfg, d, a), b) && DeskAfter(cfg, d, a + b) == DeskAfter(cfg, DeskAfter(cfg, d, a), b)
    decreases |a|
  {
    hide DeskInv, Lawful, Process, Fits;
    if a == [] {
      assert a + b == b;
    } else {
      assert (a + b)[0] == a[0] && (a + b)[1..] == a[1..] + b;
      if Fits(d, a[0].cmd) && (a[0].cmd.New? ==> a[0].cmd.order.id != 0) {
        ProcessKeeps(cfg, d, a[0]);
        RunSplits(cfg, Process(cfg, d, a[0]).0, a[1..], b);
      }
    }
  }

  lemma {:induction false} RunSeen(cfg: Config, d: Desk, h: seq<Command>, id: u64)
    requires DeskInv(cfg, d) && Lawful(cfg.setup.strategy) && Handles(cfg, d, Inputs(h))
    ensures id in DeskAfter(cfg, d, Inputs(h)).seen <==> id in d.seen || Carries(h, id)
    ensures var n := DeskAfter(cfg, d, Inputs(h)); d.maxNew <= n.maxNew && d.maxAdmin <= n.maxAdmin
    decreases |h|
  {
    hide DeskInv, Lawful, Process, Fits;
    if h != [] {
      assert Inputs(h)[1..] == Inputs(h[1..]);
      ProcessKeeps(cfg, d, Inputs(h)[0]);
      ProcessSeen(cfg, d, Inputs(h)[0]);
      var d' := Process(cfg, d, Inputs(h)[0]).0;
      RunSeen(cfg, d', h[1..], id);
      CarriesFirst(h, id);
    }
  }

  lemma CarriesFirst(h: seq<Command>, id: u64)
    requires h != []
    ensures Carries(h, id) <==> Carries(h[1..], id) || (id != 0 && h[0].Id() == id)
  {
    assert forall k :: 0 <= k < |h| - 1 ==> h[1..][k] == h[k + 1];
    if k :| 0 <= k < |h| && h[k].Id() == id {
      assert k > 0 ==> h[1..][k - 1] == h[k];
    }
  }

  /** The desk a new shard reaches by the history. */
  ghost function Ideal(cfg: Config, h: seq<Command>): Desk
    requires Lawful(cfg.setup.strategy) && DeskInv(cfg, NEW_DESK) && Handles(cfg, NEW_DESK, Inputs(h))
  {
    DeskAfter(cfg, NEW_DESK, Inputs(h))
  }

  lemma NewDeskOk(cfg: Config)
    ensures DeskInv(cfg, NEW_DESK)
  {}

  /** A front of a history leads to the state the rest starts from. */
  lemma IdealSplits(cfg: Config, h: seq<Command>, n: nat)
    requires Lawful(cfg.setup.strategy) && DeskInv(cfg, NEW_DESK) && Handles(cfg, NEW_DESK, Inputs(h)) && n <= |h|
    ensures Handles(cfg, NEW_DESK, Inputs(h[..n]))
    ensures var d := Ideal(cfg, h[..n]);
            && DeskInv(cfg, d) && Handles(cfg, d, Inputs(h[n..]))
            && Ideal(cfg, h) == DeskAfter(cfg, d, Inputs(h[n..]))
  {
    hide DeskInv, Lawful, Handles, DeskAfter;
    assert Inputs(h) == Inputs(h[..n]) + Inputs(h[n..]);
    RunSplits(cfg, NEW_DESK, Inputs(h[..n]), Inputs(h[n..]));
  }

  // --- replay and the price guard --------------------------------------------------------------------------

  /** A lawful strategy, and no price guard: the guard reads a live price that replay cannot know. */
  ghost predicate Replayable(cfg: Config) {
    Lawful(cfg.setup.strategy) && cfg.bandBps.None?
  }

  /** Without a guard the reference price does not matter. */
  lemma ReferenceIrrelevant(cfg: Config, d: Desk, cmd: Command, a: Price, b: Price)
    requires DeskSound(d) && Lawful(cfg.setup.strategy) && Fits(d, cmd) && cfg.bandBps.None?
    ensures Process(cfg, d, Input(cmd, a)) == Process(cfg, d, Input(cmd, b))
  {
    hide Lawful, Sound, Submit, Step, ToldAmended, RoomFor, Enabled, Told, Booked, CapReached, Cleared, IdsOfUser, Find;
    GatedAlike(cfg);
  }

  lemma GatedAlike(cfg: Config)
    requires cfg.bandBps.None?
    ensures forall halted, suspended, o, a, b ::
              Gated(cfg, halted, suspended, o, a) == Gated(cfg, halted, suspended, o, b)
  {}

  /** A sell of one lot at price 1: kept without a feed, refused when the feed is at its highest. */
  lemma GuardForks(cfg: Config) returns (cmd: Command)
    requires Lawful(cfg.setup.strategy) && cfg.bandBps.Some?
    ensures DeskSound(NEW_DESK) && Fits(NEW_DESK, cmd)
    ensures Process(cfg, NEW_DESK, Input(cmd, 0)).0 != Process(cfg, NEW_DESK, Input(cmd, U64_MAX)).0
  {
    hide Lawful, Submit, Booked, Told;
    var o := Order(7, 0, 0, Sell, Limit, Gtc, 1, 1, 1, 0);
    cmd := New(o);
    NothingRests();
    BandIsHigh(cfg.bandBps.value);
    var d := Noted(cfg, NEW_DESK, cmd);
    assert Gated(cfg, {}, {}, o, 0) == Open(o) && Gated(cfg, {}, {}, o, U64_MAX) == Shut(PriceBand);
    assert 0 in Process(cfg, NEW_DESK, Input(cmd, 0)).0.engines;
    assert 0 !in Process(cfg, NEW_DESK, Input(cmd, U64_MAX)).0.engines;
  }

  lemma BandIsHigh(bps: u64)
    ensures Band(bps, U64_MAX).0 > 1
  {}

  /** Replay is sure to agree with the live run, whatever the feeds were, exactly when there is no price guard. */
  lemma ReplayNeedsNoGuard(cfg: Config)
    requires Lawful(cfg.setup.strategy)
    ensures DeskSound(NEW_DESK)
    ensures cfg.bandBps.None? <==>
              forall cmd: Command, a: Price, b: Price :: Fits(NEW_DESK, cmd) ==>
                Process(cfg, NEW_DESK, Input(cmd, a)).0 == Process(cfg, NEW_DESK, Input(cmd, b)).0
  {
    hide Lawful, Process, Fits;
    if cfg.bandBps.None? {
      forall cmd: Command, a: Price, b: Price | Fits(NEW_DESK, cmd)
        ensures Process(cfg, NEW_DESK, Input(cmd, a)).0 == Process(cfg, NEW_DESK, Input(cmd, b)).0
      {
        ReferenceIrrelevant(cfg, NEW_DESK, cmd, a, b);
      }
    } else {
      var cmd := GuardForks(cfg);
    }
  }
}
