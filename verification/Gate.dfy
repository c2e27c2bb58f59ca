/**
 The gates in front of the books: what passes, what is refused and why, and what a halt or a
 suspension holds back.
 */
module Gates {
  import opened Types
  import opened Books
  import opened Strategies
  import opened Matching
  import opened Submissions
  import opened Processing
  import opened Desks
  import opened SelfTrades
  import opened Narrations
  import opened Ledgers
  import opened SavedDesks
  import opened SnapshotFiles
  import opened Restores

  // --- what passes ---------------------------------------------------------------------------------------

  ghost predicate Suspended(suspended: set<User>, o: Order) {
    o.user != 0 && o.user in suspended
  }

  /** Within the static limits; a limit of zero is none, and only limit orders have a notional. */
  ghost predicate QtyWithin(cfg: Config, o: Order) {
    cfg.limits.Some? && cfg.limits.value.maxOrderQty > 0 ==> o.quantity <= cfg.limits.value.maxOrderQty
  }

  ghost predicate NotionalWithin(cfg: Config, o: Order) {
    cfg.limits.Some? && cfg.limits.value.maxNotional > 0 && o.orderType.Limit? ==>
      o.price * o.quantity <= cfg.limits.value.maxNotional
  }

  /** No worse than `bps` ten-thousandths away from the reference, on the side that matters. */
  ghost predicate NearReference(bps: u64, reference: Price, side: Side, price: Price) {
    if side.Buy? then
      (price - reference) * 10_000 <= reference * bps else (reference - price) * 10_000 <= reference * bps
  }

  /** Is there a guard, a reference and a price to hold against it? */
  ghost predicate Guarded(cfg: Config, reference: Price, o: Order) {
    cfg.bandBps.Some? && reference > 0 && !Budgeted(o.tif)
  }

  lemma Deviation(bps: u64, reference: Price) returns (delta: nat)
    ensures delta * 10_000 <= reference * bps
    ensures reference * bps <= U64_MAX ==> reference * bps < (delta + 1) * 10_000
    ensures Band(bps, reference) == (if delta <= reference then reference - delta else 0,
                                     if reference + delta <= U64_MAX then reference + delta else U64_MAX)
  {
    var product := reference * bps;
    delta := (if product <= U64_MAX then product else U64_MAX) / 10_000;
  }

  /** The band edge lies near the reference; below the word's limit it is the last price that does. */
  lemma BandIsNear(bps: u64, reference: Price, price: Price)
    ensures price <= Band(bps, reference).1 ==> NearReference(bps, reference, Buy, price)
    ensures price >= Band(bps, reference).0 ==> NearReference(bps, reference, Sell, price)
    ensures reference * bps <= U64_MAX ==>
      && (NearReference(bps, reference, Buy, price) ==> price <= Band(bps, reference).1)
      && (NearReference(bps, reference, Sell, price) ==> price >= Band(bps, reference).0)
  {
    hide Band;
    var delta := Deviation(bps, reference);
  }

  /**
   The gates, exactly. An order passes only on an instrument that is not halted, for a user who is not
   suspended, within the static limits and, where a guard has a reference, at a price near it; each
   refusal names the first gate that is shut.
   */
  lemma GateExactly(cfg: Config, halted: set<u32>, suspended: set<User>, o: Order, reference: Price)
    ensures var g := Gated(cfg, halted, suspended, o, reference);
            var gone, barred := o.instrument in halted, Suspended(suspended, o);
            && (g.Open? ==> !gone && !barred && QtyWithin(cfg, o) && NotionalWithin(cfg, o))
            && (g == Shut(OnHalt) <==> gone)
            && (g == Shut(UserSuspended) <==> !gone && barred)
            && (g == Shut(MaxQty) <==> !gone && !barred && !QtyWithin(cfg, o))
            && (g == Shut(MaxNotional) <==> !gone && !barred && QtyWithin(cfg, o) && !NotionalWithin(cfg, o))
            && (g.Shut? ==> g.reason in {OnHalt, UserSuspended, MaxQty, MaxNotional, PriceBand})
  {
    hide Vetted;
  }

  /** The price guard, exactly: what it lets through is near the reference, and it changes only market orders. */
  lemma GuardExactly(cfg: Config, reference: Price, o: Order)
    ensures var v := Vetted(cfg, reference, o);
            && (v.None? ==> Guarded(cfg, reference, o) && o.orderType.Limit?)
            && (v.Some? && Guarded(cfg, reference, o) ==>
                  v.value.orderType.Limit? && NearReference(cfg.bandBps.value, reference, o.side, v.value.price))
            && (v.Some? && (o.orderType.Limit? || !Guarded(cfg, reference, o)) ==> v.value == o)
            && (o.orderType.Market? && Guarded(cfg, reference, o) ==>
                  v.Some? && v.value == o.(orderType := Limit, price := v.value.price, tif := v.value.tif)
                  && !MayRest(v.value) && (!o.tif.Gtc? ==> v.value.tif == o.tif))
            && (Guarded(cfg, reference, o) && o.orderType.Limit? && reference * cfg.bandBps.value <= U64_MAX ==>
                  (v.Some? <==> NearReference(cfg.bandBps.value, reference, o.side, o.price)))
  {
    hide Band, NearReference;
    assert o.side == Buy || o.side == Sell;
    if Guarded(cfg, reference, o) {
      var (lo, hi) := Band(cfg.bandBps.value, reference);
      BandIsNear(cfg.bandBps.value, reference, o.price);
      BandIsNear(cfg.bandBps.value, reference, lo);
      BandIsNear(cfg.bandBps.value, reference, hi);
    }
  }

  /** A market order is protected at the edge: the prices a limit order may have are those up to its own. */
  lemma ProtectedAtEdge(cfg: Config, reference: Price, o: Order, x: Price)
    requires Guarded(cfg, reference, o) && o.orderType.Market?
    ensures var v := Vetted(cfg, reference, o);
            v.Some? && (Vetted(cfg, reference, o.(orderType := Limit, price := x)).Some? <==>
                        if o.side.Buy? then x <= v.value.price else x >= v.value.price)
  {
    hide Band;
  }

  /**
   A new order either reaches its book, within every limit and with room under the cap, and is told
   accepted; or it is refused in one report, and no book and no position changes.
   */
  lemma ReachesBook(cfg: Config, d: Desk, o: Order, reference: Price, j: u32)
    requires DeskSound(d) && Lawful(cfg.setup.strategy) && BudgetFits(o) && EngineOf(d, o.instrument).clock < U64_MAX
    ensures var (d', told) := ProcessNew(cfg, d, o, reference);
            var limits, open := cfg.limits, |IdsOfUser(EngineOf(d, o.instrument).book, o.user)|;
            && |told| > 0
            && if told[0] == One(Accepted(o.instrument, o.id)) then
                 && o.instrument !in d.halted && !Suspended(d.suspended, o)
                 && QtyWithin(cfg, o) && NotionalWithin(cfg, o)
                 && (limits.Some? && limits.value.maxUserOrders > 0 && o.user != 0 ==>
                   open < limits.value.maxUserOrders)
                 && EngineOf(d', o.instrument).clock == EngineOf(d, o.instrument).clock + 1
               else
                 && |told| == 1 && told[0].One? && told[0].report.RejectedReport? && told[0].report.orderId == o.id
                 && EngineOf(d', j) == EngineOf(d, j) && d'.positions == d.positions
  {
    hide Lawful, Sound, Submit, Gated, IdsOfUser, Booked, QtyWithin, NotionalWithin, BudgetFits;
    OpenKeeps(cfg, d.halted, d.suspended, o, reference);
    GateExactly(cfg, d.halted, d.suspended, o, reference);
  }

  // --- a halted instrument ----------------------------------------------------------------------------------

  /** On a halted instrument a new order is refused and changes nothing. */
  lemma HaltedRefuses(cfg: Config, d: Desk, o: Order, reference: Price)
    requires DeskSound(d) && Lawful(cfg.setup.strategy) && BudgetFits(o) && EngineOf(d, o.instrument).clock < U64_MAX
    requires o.instrument in d.halted
    ensures ProcessNew(cfg, d, o, reference) == (d, [One(RejectedReport(o.instrument, o.id, OnHalt))])
    ensures EntryTrades(cfg, d, o, reference) == []
  {
    hide Lawful, Sound, Submit, Gated, Booked, BudgetFits;
    GateExactly(cfg, d.halted, d.suspended, o, reference);
  }

  /**
   What is told of a command on a halted instrument: new orders and close-outs are refused, only an
   amendment may trade.
   */
  ghost predicate HeldBack(cmd: Command, told: seq<Emission>) {
    var i := cmd.Target();
    || (cmd.Id() != 0 && told == [One(RejectedReport(i, cmd.Id(), Duplicate))])
    || match cmd
       case New(o) => told == [One(RejectedReport(i, o.id, OnHalt))]
       case ForceClose(_, user, id, _, qty) =>
         && |told| == (if qty == 0 then 1 else 2) && told[0].CancelBlock?
         && (qty > 0 ==> told[1] == One(RejectedReport(i, id, OnHalt)))
       case Modify(_, _, _, _, _) => true
       case _ => forall k :: 0 <= k < |told| ==> !IsTrade(told[k])
  }

  lemma HaltedStep(cfg: Config, d: Desk, input: Input, i: u32, user: User)
    requires DeskInv(cfg, d) && Lawful(cfg.setup.strategy) && Fits(d, input.cmd) && PositionsFit(d) && i in d.halted
    requires input.cmd.New? ==> input.cmd.order.id != 0
    ensures DeskSound(d)
    ensures var (d', told) := Process(cfg, d, input);
            && (!(input.cmd.Resume? && input.cmd.instrument == i) ==> i in d'.halted)
            && Position(d'.positions, user, i) == Position(d.positions, user, i)
            && (input.cmd.Target() == i ==> HeldBack(input.cmd, told))
  {
    hide DeskInv, Lawful, Sound, ProcessNew, EntryTrades, ToldAmended, Step, Enabled, RoomFor, Find, IdsOfUser, Cleared,
      IsI64, BoughtBy, SoldBy, AsI64, Position, PositionsFit;
    OkSound(cfg, d);
    FitsHere(d, user, i);
    NothingMoves(d.positions, i, user, i);
    CommandMoves(cfg, d, input, user, i);
    var cmd, d' := input.cmd, Noted(cfg, d, input.cmd);
    if !Repeated(cfg, d, cmd) {
      FreshSound(d', cmd.Target());
      match cmd
      case New(o) =>
        if o.instrument == i {
          HaltedRefuses(cfg, d', o, input.reference);
        }
        KeepsGates(cfg, d', o, input.reference);
      case ForceClose(j, closed, _, _, qty) =>
        ClearingSound(d', j, closed);
        if qty > 0 {
          var e := EngineOf(d', j);
          var d1 := d'.(engines := d'.engines[j := e.(book := Cleared(e.book, closed))]);
          if j == i {
            HaltedRefuses(cfg, d1, CloseOrder(cmd), input.reference);
          }
          KeepsGates(cfg, d1, CloseOrder(cmd), input.reference);
        }
      case _ =>
    }
  }

  lemma KeepsGates(cfg: Config, d: Desk, o: Order, reference: Price)
    requires DeskSound(d) && Lawful(cfg.setup.strategy) && BudgetFits(o) && EngineOf(d, o.instrument).clock < U64_MAX
    ensures var d' := ProcessNew(cfg, d, o, reference).0; d'.halted == d.halted && d'.suspended == d.suspended
  {
    hide Lawful, Sound, Submit, Gated, Booked, BudgetFits, CapReached, Told;
    OpenKeeps(cfg, d.halted, d.suspended, o, reference);
    FreshSound(d, o.instrument);
  }

  ghost predicate Resumes(inputs: seq<Input>, i: u32) {
    exists n :: 0 <= n < |inputs| && inputs[n].cmd.Resume? && inputs[n].cmd.instrument == i
  }

  lemma LaterResumes(inputs: seq<Input>, i: u32)
    requires inputs != [] && !Resumes(inputs, i)
    ensures !Resumes(inputs[1..], i) && !(inputs[0].cmd.Resume? && inputs[0].cmd.instrument == i)
  {
    assert forall n :: 0 <= n < |inputs[1..]| ==> inputs[1..][n] == inputs[n + 1];
  }

  /**
   A halt holds until the instrument is resumed: over every run without a resume, no position on it
   moves, and every new order and every close-out there is refused.
   */
  lemma {:induction false} HaltHolds(cfg: Config, d: Desk, inputs: seq<Input>, i: u32, user: User)
    requires DeskInv(cfg, d) && Lawful(cfg.setup.strategy) && Handles(cfg, d, inputs) && PositionsFit(d)
    requires i in d.halted && !Resumes(inputs, i)
    ensures var d', told := DeskAfter(cfg, d, inputs), Reports(cfg, d, inputs);
            && i in d'.halted && Position(d'.positions, user, i) == Position(d.positions, user, i)
            && |told| == |inputs|
            && forall k :: 0 <= k < |inputs| && inputs[k].cmd.Target() == i ==> HeldBack(inputs[k].cmd, told[k])
    decreases |inputs|
  {
    hide DeskInv, Lawful, Process, Fits, PositionsFit, Position, HeldBack, Resumes;
    if inputs != [] {
      ProcessKeeps(cfg, d, inputs[0]);
      ProcessFits(cfg, d, inputs[0]);
      LaterResumes(inputs, i);
      HaltedStep(cfg, d, inputs[0], i, user);
      HaltHolds(cfg, Process(cfg, d, inputs[0]).0, inputs[1..], i, user);
      OneMore(inputs, Process(cfg, d, inputs[0]).1, Reports(cfg, Process(cfg, d, inputs[0]).0, inputs[1..]), i);
    }
  }

  lemma OneMore(inputs: seq<Input>, told: seq<Emission>, rest: seq<seq<Emission>>, i: u32)
    requires inputs != [] && |rest| == |inputs| - 1
    requires inputs[0].cmd.Target() == i ==> HeldBack(inputs[0].cmd, told)
    requires forall k :: 0 <= k < |rest| && inputs[1..][k].cmd.Target() == i ==> HeldBack(inputs[1..][k].cmd, rest[k])
    ensures forall k :: 0 <= k < |inputs| && inputs[k].cmd.Target() == i ==> HeldBack(inputs[k].cmd, ([told] + rest)[k])
  {
    hide HeldBack;
    forall k | 0 < k < |inputs| && inputs[k].cmd.Target() == i ensures HeldBack(inputs[k].cmd, ([told] + rest)[k]) {
      assert inputs[1..][k - 1] == inputs[k] && ([told] + rest)[k] == rest[k - 1];
    }
  }

  /** A halt or a suspension that is not a repeat takes hold, and a resume that is not a repeat lifts it. */
  lemma SwitchTakesHold(cfg: Config, d: Desk, cmd: Command, reference: Price)
    requires DeskSound(d) && Lawful(cfg.setup.strategy) && Fits(d, cmd) && !Repeated(cfg, d, cmd)
    ensures var (d', told) := Process(cfg, d, Input(cmd, reference));
            var i := cmd.Target();
            match cmd
            case Halt(_, _) =>
              i in d'.halted && told == [One(HaltedReport(i))]
                && forall j :: j != i ==> (j in d'.halted <==> j in d.halted)
            case Resume(_, _) =>
              i !in d'.halted && told == [One(ResumedReport(i))]
              && forall j :: j != i ==> (j in d'.halted <==> j in d.halted)
            case HaltUser(_, user, _) =>
              user in d'.suspended && told == [One(UserHaltedReport(i, user))]
              && forall u :: u != user ==> (u in d'.suspended <==> u in d.suspended)
            case ResumeUser(_, user, _) =>
              user !in d'.suspended && told == [One(UserResumedReport(i, user))]
              && forall u :: u != user ==> (u in d'.suspended <==> u in d.suspended)
            case _ => cmd.New? || cmd.ForceClose? || (d'.halted == d.halted && d'.suspended == d.suspended)
  {
    hide Lawful, Sound, ProcessNew, ToldAmended, Step, Enabled, RoomFor, Find, IdsOfUser, Cleared;
  }

  // --- the book of a halted instrument ------------------------------------------------------------------------

  /** Commands leave the books of other instruments alone. */
  lemma OtherBooks(cfg: Config, d: Desk, input: Input, j: u32)
    requires DeskSound(d) && Lawful(cfg.setup.strategy) && Fits(d, input.cmd) && j != input.cmd.Target()
    ensures EngineOf(Process(cfg, d, input).0, j) == EngineOf(d, j)
  {
    hide Lawful, Sound, Submit, Gated, CapReached, Booked, Told, ToldAmended, Step, Enabled, RoomFor, Find, IdsOfUser,
      Cleared, ProcessNew;
    var cmd, d' := input.cmd, Noted(cfg, d, input.cmd);
    if !Repeated(cfg, d, cmd) {
      FreshSound(d', cmd.Target());
      if cmd.New? {
        OtherBooksNew(cfg, d', cmd.order, input.reference, j);
      } else if cmd.ForceClose? && cmd.closeQty > 0 {
        ClearingSound(d', cmd.instrument, cmd.user);
        var e := EngineOf(d', cmd.instrument);
        OtherBooksNew(cfg, d'.(engines := d'.engines[cmd.instrument := e.(book := Cleared(e.book, cmd.user))]),
          CloseOrder(cmd), input.reference, j);
      }
    }
  }

  lemma OtherBooksNew(cfg: Config, d: Desk, o: Order, reference: Price, j: u32)
    requires DeskSound(d) && Lawful(cfg.setup.strategy) && BudgetFits(o) && EngineOf(d, o.instrument).clock < U64_MAX
    requires j != o.instrument
    ensures EngineOf(ProcessNew(cfg, d, o, reference).0, j) == EngineOf(d, j)
  {
    hide Lawful, Sound, Submit, Gated, CapReached, Booked, Told, BudgetFits;
    OpenKeeps(cfg, d.halted, d.suspended, o, reference);
    FreshSound(d, o.instrument);
  }

  lemma ShrunkenSame(b: Book)
    ensures Shrunken(b, b)
  {
    hide Rests;
    forall m | Rests(b, m) ensures exists m0 :: Rests(b, m0) && m0.(remaining := m.remaining) == m {
      assert m.(remaining := m.remaining) == m;
    }
  }

  lemma ShrunkenTwice(a: Book, b: Book, c: Book)
    requires Shrunken(a, b) && Shrunken(b, c)
    ensures Shrunken(a, c)
  {
    hide Rests;
    forall m | Rests(c, m) ensures exists m0 :: Rests(a, m0) && m0.(remaining := m.remaining) == m {
      var m1 :| Rests(b, m1) && m1.(remaining := m.remaining) == m;
      var m0 :| Rests(a, m0) && m0.(remaining := m1.remaining) == m1;
      assert m0.(remaining := m.remaining) == m;
    }
  }

  lemma HaltedBookStep(cfg: Config, d: Desk, input: Input, i: u32)
    requires DeskInv(cfg, d) && Lawful(cfg.setup.strategy) && Fits(d, input.cmd) && i in d.halted
    requires !(input.cmd.Modify? && input.cmd.instrument == i)
    ensures DeskSound(d)
    ensures var e, e' := EngineOf(d, i), EngineOf(Process(cfg, d, input).0, i);
            e'.clock == e.clock && Shrunken(e.book, e'.book)
  {
    hide DeskInv, Lawful, Sound, ProcessNew, EntryTrades, ToldAmended, Step, Enabled, RoomFor, Find, IdsOfUser, Cleared,
      Shrunken;
    OkSound(cfg, d);
    ShrunkenSame(EngineOf(d, i).book);
    var cmd, d' := input.cmd, Noted(cfg, d, input.cmd);
    if cmd.Target() != i {
      OtherBooks(cfg, d, input, i);
    } else if !Repeated(cfg, d, cmd) {
      FreshSound(d', i);
      match cmd
      case New(o) =>
        HaltedRefuses(cfg, d', o, input.reference);
      case Cancel(_, id, _) =>
        CancelShrinks(cfg.setup, EngineOf(d', i), id);
      case ForceClose(_, user, _, _, qty) =>
        ClearingSound(d', i, user);
        ClearedShrinks(EngineOf(d', i).book, user);
        if qty > 0 {
          var e := EngineOf(d', i);
          HaltedRefuses(cfg, d'.(engines := d'.engines[i := e.(book := Cleared(e.book, user))]), CloseOrder(cmd),
            input.reference);
        }
      case _ =>
    }
  }

  lemma CancelShrinks(s: Setup, e: Engine, id: OrderId)
    requires Sound(e.book) && Lawful(s.strategy)
    ensures Enabled(e, CancelOne(id))
    ensures var e' := Step(s, e, CancelOne(id)); e'.clock == e.clock && Shrunken(e.book, e'.book)
  {
    hide Sound, Lawful, Removed, Rests, Shrunken;
    ShrunkenSame(e.book);
    var found := Submissions.Find(e.book, id);
    if found.Some? {
      ReducedShrinks(e.book, found.value, 0);
      RemovedIs(e.book, found.value);
    }
  }

  /** While an instrument is halted and nobody amends there, its book only shrinks and its clock stands still. */
  lemma {:induction false} HaltedBookShrinks(cfg: Config, d: Desk, inputs: seq<Input>, i: u32)
    requires DeskInv(cfg, d) && Lawful(cfg.setup.strategy) && Handles(cfg, d, inputs) && PositionsFit(d)
    requires i in d.halted && !Resumes(inputs, i)
    requires forall n :: 0 <= n < |inputs| ==> !(inputs[n].cmd.Modify? && inputs[n].cmd.instrument == i)
    ensures var e, e' := EngineOf(d, i), EngineOf(DeskAfter(cfg, d, inputs), i);
            e'.clock == e.clock && Shrunken(e.book, e'.book)
    decreases |inputs|
  {
    hide DeskInv, Lawful, Process, Fits, PositionsFit, Position, HeldBack, Resumes, Shrunken, EngineOf;
    ShrunkenSame(EngineOf(d, i).book);
    if inputs != [] {
      ProcessKeeps(cfg, d, inputs[0]);
      ProcessFits(cfg, d, inputs[0]);
      LaterResumes(inputs, i);
      HaltedStep(cfg, d, inputs[0], i, 0);
      HaltedBookStep(cfg, d, inputs[0], i);
      var d' := Process(cfg, d, inputs[0]).0;
      assert forall n :: 0 <= n < |inputs[1..]| ==> inputs[1..][n] == inputs[n + 1];
      HaltedBookShrinks(cfg, d', inputs[1..], i);
      ShrunkenTwice(EngineOf(d, i).book, EngineOf(d', i).book, EngineOf(DeskAfter(cfg, d', inputs[1..]), i).book);
    }
  }

  // --- a suspended user -----------------------------------------------------------------------------------------

  /** A suspended user's new order is refused and changes nothing. */
  lemma SuspendedRefuses(cfg: Config, d: Desk, o: Order, reference: Price)
    requires DeskSound(d) && Lawful(cfg.setup.strategy) && BudgetFits(o) && EngineOf(d, o.instrument).clock < U64_MAX
    requires Suspended(d.suspended, o)
    ensures ProcessNew(cfg, d, o, reference) ==
            (d, [One(RejectedReport(o.instrument, o.id, if o.instrument in d.halted then OnHalt else UserSuspended))])
  {
    hide Lawful, Sound, Submit, Gated, Booked, BudgetFits;
    GateExactly(cfg, d.halted, d.suspended, o, reference);
  }

  lemma ShrunkenUsers(b: Book, b': Book, user: User)
    requires Sound(b) && Sound(b') && Shrunken(b, b')
    ensures IdsOfUser(b', user) <= IdsOfUser(b, user)
  {
    hide Sound, Rests, IdsOfUser;
    UsersShrink(b, b', user);
  }

  /** Cancelling and amending give no user another resting order. */
  lemma StepUsers(cfg: Config, e: Engine, seen: set<u64>, ev: Event, user: User)
    requires EngineOk(cfg, e, seen) && Lawful(cfg.setup.strategy) && Enabled(e, ev) && (ev.CancelOne? || ev.Amend?)
    ensures Sound(e.book) && IdsOfUser(Step(cfg.setup, e, ev).book, user) <= IdsOfUser(e.book, user)
  {
    hide Lawful, Submit, EngineInv, WithinCap, IdsNoted, Rests, Reduced, Find, RoomFor, HasId, Cleared, Shrunken,
      IdsOfUser;
    InvSound(e);
    StepOk(cfg, e, seen, ev);
    var e' := Step(cfg.setup, e, ev);
    InvSound(e');
    var found := Submissions.Find(e.book, ev.id);
    if found.Some? {
      var o := found.value;
      if ev.CancelOne? {
        ReducedShrinks(e.book, o, 0);
        ShrunkenUsers(e.book, e'.book, user);
      } else if InPlace(o, ev.price, ev.qty) {
        ReducedShrinks(e.book, o, ev.qty);
        ShrunkenUsers(e.book, e'.book, user);
      } else {
        LeavingKeeps(e, o);
        ReducedShrinks(e.book, o, 0);
        ShrunkenUsers(e.book, Removed(e.book, o), user);
        SubmitUsers(RulesAt(cfg.setup, e.clock + 1), Removed(e.book, o), Requoted(o, ev.price, ev.qty), user);
        ItsIdIsThere(e.book, o);
      }
    }
  }

  lemma ItsIdIsThere(b: Book, o: Order)
    requires Sound(b) && Rests(b, o)
    ensures o.id in IdsOfUser(b, o.user)
  {
    hide IdsUnique, Fitting, Resting, Rests;
    RestingAre(b, o);
  }

  /** An order entered gives nobody but its own user another resting order. */
  lemma EntryUsers(cfg: Config, d: Desk, o: Order, reference: Price, user: User)
    requires DeskSound(d) && Lawful(cfg.setup.strategy) && BudgetFits(o) && EngineOf(d, o.instrument).clock < U64_MAX
    requires user != 0 && user in d.suspended && DeskSound(ProcessNew(cfg, d, o, reference).0)
    ensures IdsOfUser(EngineOf(ProcessNew(cfg, d, o, reference).0, o.instrument).book, user) <=
            IdsOfUser(EngineOf(d, o.instrument).book, user)
  {
    hide Lawful, Sound, Submit, Gated, CapReached, Booked, Told, BudgetFits, IdsOfUser;
    OpenKeeps(cfg, d.halted, d.suspended, o, reference);
    FreshSound(d, o.instrument);
    FreshSound(ProcessNew(cfg, d, o, reference).0, o.instrument);
    if o.user == user {
      SuspendedRefuses(cfg, d, o, reference);
    } else {
      var g, e := Gated(cfg, d.halted, d.suspended, o, reference), EngineOf(d, o.instrument);
      if g.Open? && !CapReached(cfg, e.book, g.order) {
        SubmitUsers(RulesAt(cfg.setup, e.clock + 1), e.book, g.order, user);
      }
    }
  }

  /** What is told of a suspended user's new order or close-out. */
  ghost predicate Barred(cmd: Command, told: seq<Emission>) {
    var i := cmd.Target();
    || (cmd.Id() != 0 && told == [One(RejectedReport(i, cmd.Id(), Duplicate))])
    || match cmd
       case New(o) => exists reason ::
         reason in {OnHalt, UserSuspended} && told == [One(RejectedReport(i, o.id, reason))]
       case ForceClose(_, _, id, _, qty) =>
         && |told| == (if qty == 0 then 1 else 2) && told[0].CancelBlock?
         && (qty > 0 ==>
               exists reason :: reason in {OnHalt, UserSuspended} && told[1] == One(RejectedReport(i, id, reason)))
       case _ => true
  }

  /** Does the command enter an order for this user? */
  predicate EntersFor(cmd: Command, user: User) {
    (cmd.New? && cmd.order.user == user) || (cmd.ForceClose? && cmd.user == user)
  }

  lemma SuspendedTold(cfg: Config, d: Desk, input: Input, user: User)
    requires DeskSound(d) && Lawful(cfg.setup.strategy) && Fits(d, input.cmd) && user != 0 && user in d.suspended
    ensures var (d', told) := Process(cfg, d, input);
            && (!(input.cmd.ResumeUser? && input.cmd.user == user) ==> user in d'.suspended)
            && (EntersFor(input.cmd, user) ==> Barred(input.cmd, told))
  {
    hide Lawful, Sound, ProcessNew, EntryTrades, ToldAmended, Step, Enabled, RoomFor, Find, IdsOfUser, Cleared;
    var cmd, d' := input.cmd, Noted(cfg, d, input.cmd);
    if !Repeated(cfg, d, cmd) {
      FreshSound(d', cmd.Target());
      match cmd
      case New(o) =>
        if o.user == user {
          SuspendedRefuses(cfg, d', o, input.reference);
        }
        KeepsGates(cfg, d', o, input.reference);
      case ForceClose(j, closed, _, _, qty) =>
        ClearingSound(d', j, closed);
        if qty > 0 {
          var e := EngineOf(d', j);
          var d1 := d'.(engines := d'.engines[j := e.(book := Cleared(e.book, closed))]);
          if closed == user {
            SuspendedRefuses(cfg, d1, CloseOrder(cmd), input.reference);
          }
          KeepsGates(cfg, d1, CloseOrder(cmd), input.reference);
        }
      case _ =>
    }
  }

  lemma SuspendedBooks(cfg: Config, d: Desk, input: Input, user: User, j: u32)
    requires DeskInv(cfg, d) && Lawful(cfg.setup.strategy) && Fits(d, input.cmd) && user != 0 && user in d.suspended
    requires input.cmd.New? ==> input.cmd.order.id != 0
    ensures DeskSound(d)
    ensures IdsOfUser(EngineOf(Process(cfg, d, input).0, j).book, user) <= IdsOfUser(EngineOf(d, j).book, user)
  {
    hide DeskInv, Lawful, Sound, ProcessNew, ToldAmended, Step, Enabled, RoomFor, Find, IdsOfUser, Cleared, EngineOk,
      DeskSound;
    OkSound(cfg, d);
    var cmd, d' := input.cmd, Noted(cfg, d, input.cmd);
    if cmd.Target() != j {
      OtherBooks(cfg, d, input, j);
    } else if !Repeated(cfg, d, cmd) {
      ProcessKeeps(cfg, d, input);
      NotingKeeps(cfg, d, cmd);
      OkSound(cfg, d');
      OkSound(cfg, Process(cfg, d, input).0);
      FreshSound(d', j);
      FreshOk(cfg, d', j);
      match cmd
      case New(o) =>
        EntryUsers(cfg, d', o, input.reference, user);
      case Cancel(_, id, _) =>
        EnabledCancel(EngineOf(d', j), id);
        StepUsers(cfg, EngineOf(d', j), d'.seen, CancelOne(id), user);
      case Modify(_, id, price, qty, _) =>
        StepUsers(cfg, EngineOf(d', j), d'.seen, Amend(id, price, qty), user);
      case ForceClose(_, closed, _, _, qty) =>
        ClearingSound(d', j, closed);
        ClearedUsers(EngineOf(d', j).book, closed, user);
        if qty > 0 {
          var e := EngineOf(d', j);
          EntryUsers(cfg, d'.(engines := d'.engines[j := e.(book := Cleared(e.book, closed))]), CloseOrder(cmd),
            input.reference, user);
        }
      case _ =>
    }
  }

  lemma ClearedUsers(b: Book, closed: User, user: User)
    requires Sound(b)
    ensures IdsOfUser(Cleared(b, closed), user) <= IdsOfUser(b, user)
  {
    hide Sound, IdsOfUser, WithoutUser, Shrunken;
    WithoutUserSound(b, Buy, closed);
    WithoutUserSound(WithoutUser(b, Buy, closed), Sell, closed);
    ClearedShrinks(b, closed);
    ShrunkenUsers(b, Cleared(b, closed), user);
  }

  ghost predicate Reinstates(inputs: seq<Input>, user: User) {
    exists n :: 0 <= n < |inputs| && inputs[n].cmd.ResumeUser? && inputs[n].cmd.user == user
  }

  /**
   A suspension holds until the user is resumed: over every run without that, the user gets no new
   resting order on any book, and each of their new orders and close-outs is refused.
   */
  lemma {:induction false} SuspensionHolds(cfg: Config, d: Desk, inputs: seq<Input>, user: User, j: u32)
    requires DeskInv(cfg, d) && Lawful(cfg.setup.strategy) && Handles(cfg, d, inputs)
    requires user != 0 && user in d.suspended && !Reinstates(inputs, user)
    ensures var d', told := DeskAfter(cfg, d, inputs), Reports(cfg, d, inputs);
            && user in d'.suspended && IdsOfUser(EngineOf(d', j).book, user) <= IdsOfUser(EngineOf(d, j).book, user)
            && |told| == |inputs|
            && forall k :: 0 <= k < |inputs| && EntersFor(inputs[k].cmd, user) ==> Barred(inputs[k].cmd, told[k])
    decreases |inputs|
  {
    hide DeskInv, Lawful, Process, Fits, Barred, IdsOfUser, EngineOf, EntersFor;
    if inputs != [] {
      ProcessKeeps(cfg, d, inputs[0]);
      assert forall n :: 0 <= n < |inputs[1..]| ==> inputs[1..][n] == inputs[n + 1];
      SuspendedTold(cfg, d, inputs[0], user);
      SuspendedBooks(cfg, d, inputs[0], user, j);
      var (d1, told) := Process(cfg, d, inputs[0]);
      SuspensionHolds(cfg, d1, inputs[1..], user, j);
      var rest := Reports(cfg, d1, inputs[1..]);
      forall k | 0 <= k < |inputs| && EntersFor(inputs[k].cmd, user) ensures Barred(inputs[k].cmd, ([told] + rest)[k]) {
        if k > 0 {
          assert inputs[1..][k - 1] == inputs[k] && ([told] + rest)[k] == rest[k - 1];
        }
      }
    }
  }
}
