/** Committed batches of commands: what they tell on a desk, and when another desk tells the same. */
module Batches {
  import opened Types
  import opened Strategies
  import opened Processing
  import opened Desks
  import opened Restores
  import opened Histories
  import opened Renderings

  /** A committed Raft entry with the commands the ingress hands on; it hands on no empty batch. */
  datatype Batch = Batch(index: u64, commands: seq<Command>)

  ghost predicate Ordered(log: seq<Batch>) {
    && (forall j :: 0 <= j < |log| ==> log[j].index > 0 && log[j].commands != [])
    && (forall j, k :: 0 <= j < k < |log| ==> log[j].index < log[k].index)
  }

  function Commands(log: seq<Batch>): seq<Command> {
    if log == [] then [] else Commands(log[..|log| - 1]) + log[|log| - 1].commands
  }

  // --- what a batch tells ------------------------------------------------------------------------------

  function InARow(told: seq<seq<Emission>>): seq<Emission> {
    if told == [] then [] else told[0] + InARow(told[1..])
  }

  /** The commands are within the machine limits on their way from this desk. */
  ghost predicate Takes(cfg: Config, d: Desk, cmds: seq<Command>) {
    Lawful(cfg.setup.strategy) && DeskInv(cfg, d) && Handles(cfg, d, Inputs(cmds))
  }

  ghost function Tell(cfg: Config, d: Desk, cmds: seq<Command>): seq<Emission>
    requires Takes(cfg, d, cmds)
  {
    InARow(Reports(cfg, d, Inputs(cmds)))
  }

  ghost function After(cfg: Config, d: Desk, cmds: seq<Command>): Desk
    requires Takes(cfg, d, cmds)
  {
    DeskAfter(cfg, d, Inputs(cmds))
  }

  /** The first command on the desk, the others behind it. */
  lemma TakesFirst(cfg: Config, d: Desk, cmds: seq<Command>)
    requires Takes(cfg, d, cmds) && cmds != []
    ensures DeskSound(d) && Fits(d, cmds[0]) && (cmds[0].New? ==> cmds[0].order.id != 0)
    ensures var (d', told) := Process(cfg, d, Input(cmds[0], 0));
            && Takes(cfg, d', cmds[1..])
            && Tell(cfg, d, cmds) == told + Tell(cfg, d', cmds[1..])
            && After(cfg, d, cmds) == After(cfg, d', cmds[1..])
  {
    hide DeskInv, Lawful, Process, Fits;
    OkSound(cfg, d);
    assert Inputs(cmds)[1..] == Inputs(cmds[1..]);
    ProcessKeeps(cfg, d, Inputs(cmds)[0]);
    var d', told := Process(cfg, d, Inputs(cmds)[0]).0, Process(cfg, d, Inputs(cmds)[0]).1;
    assert ([told] + Reports(cfg, d', Inputs(cmds[1..])))[1..] == Reports(cfg, d', Inputs(cmds[1..]));
  }

  lemma TakesMore(cfg: Config, d: Desk, cmd: Command, rest: seq<Command>)
    requires Lawful(cfg.setup.strategy) && DeskInv(cfg, d) && DeskSound(d) && Fits(d, cmd)
    requires (cmd.New? ==> cmd.order.id != 0) && Takes(cfg, Process(cfg, d, Input(cmd, 0)).0, rest)
    ensures Takes(cfg, d, [cmd] + rest)
  {
    hide DeskInv, Lawful, Process, Fits;
    ProcessKeeps(cfg, d, Input(cmd, 0));
    assert Inputs([cmd] + rest)[0] == Input(cmd, 0) && Inputs([cmd] + rest)[1..] == Inputs(rest);
  }

  /** A batch of one command. */
  lemma OneCommand(cfg: Config, d: Desk, cmd: Command)
    requires Lawful(cfg.setup.strategy) && DeskInv(cfg, d) && DeskSound(d) && Fits(d, cmd)
    requires cmd.New? ==> cmd.order.id != 0
    ensures Takes(cfg, d, [cmd])
    ensures (After(cfg, d, [cmd]), Tell(cfg, d, [cmd])) == Process(cfg, d, Input(cmd, 0))
  {
    hide DeskInv, Lawful, Process, Fits, Takes, Tell, After;
    ProcessKeeps(cfg, d, Input(cmd, 0));
    var d', told := Process(cfg, d, Input(cmd, 0)).0, Process(cfg, d, Input(cmd, 0)).1;
    TakesNothing(cfg, d');
    NothingTold(cfg, d');
    TakesMore(cfg, d, cmd, []);
    assert [cmd] + [] == [cmd] && [cmd][1..] == [] && told + [] == told;
    TakesFirst(cfg, d, [cmd]);
  }

  lemma TakesNothing(cfg: Config, d: Desk)
    requires Lawful(cfg.setup.strategy) && DeskInv(cfg, d)
    ensures Takes(cfg, d, [])
  {
    hide DeskInv, Lawful;
  }

  lemma AfterKeeps(cfg: Config, d: Desk, cmds: seq<Command>)
    requires Takes(cfg, d, cmds)
    ensures DeskInv(cfg, After(cfg, d, cmds))
  {
    hide DeskInv, Lawful, Handles, DeskAfter;
    HandlingKeeps(cfg, d, Inputs(cmds));
  }

  /** No command of the batch closes out a user with two orders or more on the book. */
  ghost predicate ClosesNone(cfg: Config, d: Desk, cmds: seq<Command>)
    requires Takes(cfg, d, cmds)
    decreases |cmds|
  {
    cmds != [] ==>
      && !ClosesSeveral(cfg, d, cmds[0])
      && (TakesFirst(cfg, d, cmds); ClosesNone(cfg, Process(cfg, d, Input(cmds[0], 0)).0, cmds[1..]))
  }

  /** A batch has one report stream exactly when none of its commands closes out several orders. */
  lemma {:induction false} BatchSettled(cfg: Config, d: Desk, cmds: seq<Command>)
    requires Takes(cfg, d, cmds)
    ensures Settled(Tell(cfg, d, cmds)) <==> ClosesNone(cfg, d, cmds)
    decreases |cmds|
  {
    hide Takes, Tell, After, Settled, ClosesSeveral, Process, Fits, DeskSound, Lawful;
    if cmds == [] {
      NothingTold(cfg, d);
    } else {
      TakesFirst(cfg, d, cmds);
      LawfulIs(cfg, d, cmds);
      var d', told := Process(cfg, d, Input(cmds[0], 0)).0, Process(cfg, d, Input(cmds[0], 0)).1;
      ProcessSettled(cfg, d, Input(cmds[0], 0));
      SettledConcat(told, Tell(cfg, d', cmds[1..]));
      BatchSettled(cfg, d', cmds[1..]);
    }
  }

  lemma NothingTold(cfg: Config, d: Desk)
    requires Takes(cfg, d, [])
    ensures Tell(cfg, d, []) == [] && After(cfg, d, []) == d && Settled([])
  {
    hide DeskInv, Lawful;
    assert Inputs([]) == [];
  }

  lemma LawfulIs(cfg: Config, d: Desk, cmds: seq<Command>)
    requires Takes(cfg, d, cmds)
    ensures Lawful(cfg.setup.strategy) && DeskInv(cfg, d)
  {
    hide DeskInv, Lawful, Handles;
  }
}
