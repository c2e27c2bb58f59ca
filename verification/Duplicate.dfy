/** Duplicate suppression over whole runs: which commands are refused as repeats, told by the run alone. */
module Duplicates {
  import opened Types
  import opened Books
  import opened Strategies
  import opened Matching
  import opened Submissions
  import opened Processing
  import opened Desks
  import opened Histories
  import opened Restores

  /** New orders carry ids of one counter, all other commands ids of another. */
  predicate SameStream(a: Command, b: Command) {
    a.New? <==> b.New?
  }

  /** The report of a command refused as a repeat. */
  function RepeatReport(cmd: Command): seq<Emission> {
    [One(RejectedReport(cmd.Target(), cmd.Id(), Duplicate))]
  }

  lemma NewIsNoRepeat(cfg: Config, d: Desk, o: Order, reference: Price)
    requires DeskSound(d) && Lawful(cfg.setup.strategy) && BudgetFits(o) && EngineOf(d, o.instrument).clock < U64_MAX
    ensures var told := ProcessNew(cfg, d, o, reference).1;
            |told| > 0 && told[0].One? && !(told[0].report.RejectedReport? && told[0].report.reason == Duplicate)
  {
    hide Lawful, Sound, Submit, CapReached, Booked, Vetted, BudgetFits;
    OpenKeeps(cfg, d.halted, d.suspended, o, reference);
    FreshSound(d, o.instrument);
  }

  /** A command is told to be a repeat exactly when the duplicate gates stop it. */
  lemma ToldRepeat(cfg: Config, d: Desk, input: Input)
    requires DeskSound(d) && Lawful(cfg.setup.strategy) && Fits(d, input.cmd)
    ensures Process(cfg, d, input).1 == RepeatReport(input.cmd) <==> Repeated(cfg, d, input.cmd)
  {
    hide Lawful, Sound, ProcessNew, Step, Submit, Enabled, RoomFor, Find, IdsOfUser, Cleared, TradeReports, Repeated;
    var cmd, d' := input.cmd, Noted(cfg, d, input.cmd);
    if !Repeated(cfg, d, cmd) {
      FreshSound(d', cmd.Target());
      var told, repeat := Process(cfg, d, input).1, RepeatReport(cmd);
      assert repeat[0] == repeat[|repeat| - 1] == One(RejectedReport(cmd.Target(), cmd.Id(), Duplicate));
      if cmd.New? {
        NewIsNoRepeat(cfg, d', cmd.order, input.reference);
        assert told[0] != repeat[0];
      } else if cmd.Modify? {
        AmendIsNoRepeat(cfg, EngineOf(d', cmd.instrument), cmd);
        assert told[|told| - 1] != repeat[|repeat| - 1];
      } else {
        assert told[0] != repeat[0];
      }
    }
  }

  lemma AmendIsNoRepeat(cfg: Config, e: Engine, cmd: Command)
    requires cmd.Modify? && Sound(e.book) && Lawful(cfg.setup.strategy)
             && Enabled(e, Amend(cmd.orderId, cmd.price, cmd.qty))
    ensures var told := ToldAmended(cfg, e, cmd);
            |told| > 0 && told[|told| - 1].One? && !told[|told| - 1].report.RejectedReport?
  {
    hide Lawful, Sound, Submit, Enabled, Find, Removed, TradeReports;
    var found := Submissions.Find(e.book, cmd.orderId);
    if found.Some? && !InPlace(found.value, cmd.price, cmd.qty) {
      LeavingKeeps(e, found.value);
    }
  }

  // --- what the gates remember --------------------------------------------------------------------------------

  /** The highest id of a stream that was not refused as a repeat. */
  function Highest(cmds: seq<Command>, repeats: seq<bool>, orders: bool): u64
    requires |repeats| == |cmds|
  {
    if cmds == [] then 0
    else
      var n, last := |cmds| - 1, cmds[|cmds| - 1];
      var rest := Highest(cmds[..n], repeats[..n], orders);
      if last.New? == orders && !repeats[n] && last.Id() > rest then last.Id() else rest
  }

  lemma {:induction false} HighestMeans(cmds: seq<Command>, repeats: seq<bool>, orders: bool, x: u64)
    requires |repeats| == |cmds| && x > 0
    ensures x <= Highest(cmds, repeats, orders) <==>
              exists j :: 0 <= j < |cmds| && cmds[j].New? == orders && !repeats[j] && x <= cmds[j].Id()
    decreases |cmds|
  {
    if cmds != [] {
      var n := |cmds| - 1;
      HighestMeans(cmds[..n], repeats[..n], orders, x);
      assert forall j :: 0 <= j < n ==> cmds[..n][j] == cmds[j] && repeats[..n][j] == repeats[j];
    }
  }

  /** The desk remembers the ids of these commands, and the highest of each stream that was not a repeat. */
  ghost predicate Remembers(cfg: Config, d: Desk, cmds: seq<Command>, repeats: seq<bool>)
    requires |repeats| == |cmds|
  {
    && (forall id :: id in d.seen <==> Carries(cmds, id))
    && (cfg.dedup ==> d.maxNew == Highest(cmds, repeats, true) && d.maxAdmin == Highest(cmds, repeats, false))
  }

  /** The command at `k` repeats an earlier one: its id, or, with the marks on, an id its stream has passed. */
  ghost predicate Repeats(cfg: Config, cmds: seq<Command>, repeats: seq<bool>, k: nat)
    requires k < |cmds| && k <= |repeats|
  {
    cmds[k].Id() != 0
    && ((exists j :: 0 <= j < k && cmds[j].Id() == cmds[k].Id())
        || (cfg.dedup
            && exists j :: 0 <= j < k && SameStream(cmds[j], cmds[k]) && !repeats[j] && cmds[k].Id() <= cmds[j].Id()))
  }

  lemma GateRemembers(cfg: Config, d: Desk, cmds: seq<Command>, repeats: seq<bool>, cmd: Command)
    requires |repeats| == |cmds| && Remembers(cfg, d, cmds, repeats)
    ensures Repeated(cfg, d, cmd) <==> Repeats(cfg, cmds + [cmd], repeats, |cmds|)
  {
    hide Highest;
    var all := cmds + [cmd];
    assert forall j :: 0 <= j < |cmds| ==> all[j] == cmds[j];
    if cmd.Id() != 0 {
      HighestMeans(cmds, repeats, cmd.New?, cmd.Id());
      assert Carries(cmds, cmd.Id()) <==> exists j :: 0 <= j < |cmds| && cmds[j].Id() == cmd.Id();
    }
  }

  lemma StepRemembers(cfg: Config, d: Desk, cmds: seq<Command>, repeats: seq<bool>, input: Input)
    requires DeskSound(d) && Lawful(cfg.setup.strategy) && Fits(d, input.cmd)
    requires |repeats| == |cmds| && Remembers(cfg, d, cmds, repeats)
    ensures Remembers(cfg, Process(cfg, d, input).0, cmds + [input.cmd], repeats + [Repeated(cfg, d, input.cmd)])
  {
    hide Lawful, Sound, Perform, Enabled, RoomFor, Carries;
    var cmd := input.cmd;
    var all, flags := cmds + [cmd], repeats + [Repeated(cfg, d, cmd)];
    assert all[..|cmds|] == cmds && flags[..|cmds|] == repeats;
    forall id ensures Carries(all, id) <==> Carries(cmds, id) || (id != 0 && id == cmd.Id()) {
      CarriesOneMore(cmds, cmd, id);
    }
    ProcessSeen(cfg, d, input);
    if !Repeated(cfg, d, cmd) {
      PerformSeen(cfg, Noted(cfg, d, cmd), input);
    }
  }

  lemma CarriesOneMore(cmds: seq<Command>, cmd: Command, id: u64)
    ensures Carries(cmds + [cmd], id) <==> Carries(cmds, id) || (id != 0 && id == cmd.Id())
  {
    var all := cmds + [cmd];
    assert forall j :: 0 <= j < |cmds| ==> all[j] == cmds[j];
    assert all[|cmds|] == cmd;
  }

  // --- runs ---------------------------------------------------------------------------------------------------

  /** Which commands of a run were told to be repeats. */
  ghost function ToldRepeats(inputs: seq<Input>, told: seq<seq<Emission>>): (r: seq<bool>)
    requires |told| == |inputs|
    ensures |r| == |inputs| && forall k :: 0 <= k < |r| ==> r[k] == (told[k] == RepeatReport(inputs[k].cmd))
  {
    seq(|inputs|, k requires 0 <= k < |inputs| => told[k] == RepeatReport(inputs[k].cmd))
  }

  function CommandsOf(inputs: seq<Input>): (r: seq<Command>)
    ensures |r| == |inputs| && forall k :: 0 <= k < |r| ==> r[k] == inputs[k].cmd
  {
    seq(|inputs|, k requires 0 <= k < |inputs| => inputs[k].cmd)
  }

  lemma {:induction false} ReportsLength(cfg: Config, d: Desk, inputs: seq<Input>)
    requires DeskInv(cfg, d) && Lawful(cfg.setup.strategy) && Handles(cfg, d, inputs)
    ensures |Reports(cfg, d, inputs)| == |inputs|
    decreases |inputs|
  {
    hide DeskInv, Lawful, Process, Fits;
    if inputs != [] {
      ProcessKeeps(cfg, d, inputs[0]);
      ReportsLength(cfg, Process(cfg, d, inputs[0]).0, inputs[1..]);
    }
  }

  lemma {:induction false} RepeatsFrom(cfg: Config, d: Desk, cmds: seq<Command>, repeats: seq<bool>, inputs: seq<Input>,
    k: nat)
    requires DeskInv(cfg, d) && Lawful(cfg.setup.strategy) && Handles(cfg, d, inputs) && k < |inputs|
    requires |repeats| == |cmds| && Remembers(cfg, d, cmds, repeats) && |Reports(cfg, d, inputs)| == |inputs|
    ensures var told := Reports(cfg, d, inputs);
            told[k] == RepeatReport(inputs[k].cmd) <==>
            Repeats(cfg, cmds + CommandsOf(inputs), repeats + ToldRepeats(inputs, told), |cmds| + k)
    decreases |inputs|
  {
    hide DeskInv, Lawful, Process, Fits, Repeats, Remembers, Repeated, RepeatReport, CommandsOf, ToldRepeats;
    ProcessKeeps(cfg, d, inputs[0]);
    var (d', first) := Process(cfg, d, inputs[0]);
    var rest := Reports(cfg, d', inputs[1..]);
    ReportsLength(cfg, d', inputs[1..]);
    ToldRepeat(cfg, d, inputs[0]);
    var cmd, again := inputs[0].cmd, Repeated(cfg, d, inputs[0].cmd);
    var told := Reports(cfg, d, inputs);
    assert told == [first] + rest;
    FirstApart(cmds, repeats, inputs, first, rest);
    if k == 0 {
      GateRemembers(cfg, d, cmds, repeats, cmd);
      SameSoFar(cfg, cmds + [cmd], repeats, (cmds + [cmd]) + CommandsOf(inputs[1..]),
        (repeats + [again]) + ToldRepeats(inputs[1..], rest), |cmds|);
    } else {
      StepRemembers(cfg, d, cmds, repeats, inputs[0]);
      RepeatsFrom(cfg, d', cmds + [cmd], repeats + [again], inputs[1..], k - 1);
    }
  }

  /** The lists of a run with its first command set apart. */
  lemma FirstApart(cmds: seq<Command>, repeats: seq<bool>, inputs: seq<Input>, first: seq<Emission>,
    rest: seq<seq<Emission>>)
    requires inputs != [] && |rest| == |inputs| - 1
    ensures cmds + CommandsOf(inputs) == (cmds + [inputs[0].cmd]) + CommandsOf(inputs[1..])
    ensures repeats + ToldRepeats(inputs, [first] + rest) ==
            (repeats + [first == RepeatReport(inputs[0].cmd)]) + ToldRepeats(inputs[1..], rest)
  {
    hide RepeatReport, CommandsOf, ToldRepeats;
    assert CommandsOf(inputs) == [inputs[0].cmd] + CommandsOf(inputs[1..]);
    ToldFirst(inputs, first, rest);
  }

  lemma ToldFirst(inputs: seq<Input>, first: seq<Emission>, rest: seq<seq<Emission>>)
    requires inputs != [] && |rest| == |inputs| - 1
    ensures ToldRepeats(inputs, [first] + rest) ==
            [first == RepeatReport(inputs[0].cmd)] + ToldRepeats(inputs[1..], rest)
  {
    hide RepeatReport, ToldRepeats;
    var whole, tail := ToldRepeats(inputs, [first] + rest), ToldRepeats(inputs[1..], rest);
    forall k | 0 < k < |inputs| ensures whole[k] == tail[k - 1] {
      assert ([first] + rest)[k] == rest[k - 1] && inputs[1..][k - 1] == inputs[k];
    }
  }

  lemma NothingRemembered(cfg: Config)
    ensures Remembers(cfg, NEW_DESK, [], [])
  {}

  lemma SameSoFar(cfg: Config, cmds: seq<Command>, repeats: seq<bool>, all: seq<Command>, flags: seq<bool>, k: nat)
    requires k < |cmds| <= |all| && k <= |repeats| <= |flags|
    requires all[..|cmds|] == cmds && flags[..|repeats|] == repeats
    ensures Repeats(cfg, cmds, repeats, k) <==> Repeats(cfg, all, flags, k)
  {
    assert forall j :: 0 <= j < |cmds| ==> all[j] == cmds[j];
    assert forall j :: 0 <= j < |repeats| ==> flags[j] == repeats[j];
  }

  /**
   Over every run from a new desk, a command is told to be a repeat exactly when its id is not zero and
   an earlier command carries the same id, or, with the marks on, an earlier command of its stream that
   was not a repeat carries one as high.
   */
  lemma RepeatsExactly(cfg: Config, inputs: seq<Input>, k: nat)
    requires Lawful(cfg.setup.strategy) && DeskInv(cfg, NEW_DESK) && Handles(cfg, NEW_DESK, inputs) && k < |inputs|
    ensures |Reports(cfg, NEW_DESK, inputs)| == |inputs|
    ensures var told := Reports(cfg, NEW_DESK, inputs);
            told[k] == RepeatReport(inputs[k].cmd) <==>
            Repeats(cfg, CommandsOf(inputs), ToldRepeats(inputs, told), k)
  {
    hide DeskInv, Lawful, Handles, Reports, Repeats, Remembers, RepeatReport;
    ReportsLength(cfg, NEW_DESK, inputs);
    NothingRemembered(cfg);
    RepeatsFrom(cfg, NEW_DESK, [], [], inputs, k);
    var told := Reports(cfg, NEW_DESK, inputs);
    assert [] + CommandsOf(inputs) == CommandsOf(inputs) && [] + ToldRepeats(inputs, told) == ToldRepeats(inputs, told);
  }

  /** With the marks on, the nonzero ids a stream gets through only ever rise. */
  lemma StreamsRise(cfg: Config, inputs: seq<Input>, j: nat, k: nat)
    requires Lawful(cfg.setup.strategy) && DeskInv(cfg, NEW_DESK) && Handles(cfg, NEW_DESK, inputs) && j < k < |inputs|
    requires cfg.dedup && SameStream(inputs[j].cmd, inputs[k].cmd) && inputs[k].cmd.Id() != 0
    ensures |Reports(cfg, NEW_DESK, inputs)| == |inputs|
    ensures var told := Reports(cfg, NEW_DESK, inputs);
            told[j] != RepeatReport(inputs[j].cmd) && told[k] != RepeatReport(inputs[k].cmd) ==>
            inputs[j].cmd.Id() < inputs[k].cmd.Id()
  {
    hide DeskInv, Lawful, Handles, Reports, RepeatReport;
    RepeatsExactly(cfg, inputs, k);
  }
}
