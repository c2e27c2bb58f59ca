/** The report streams that render what a command tells. */
module Renderings {
  import opened Types
  import opened Books
  import opened Strategies
  import opened Matching
  import opened Submissions
  import opened Processing

  /** Reports in a fixed order. */
  function Ones(out: seq<ExecReport>): seq<Emission> {
    seq(|out|, k requires 0 <= k < |out| => One(out[k]))
  }

  lemma OnesConcat(a: seq<ExecReport>, b: seq<ExecReport>)
    ensures Ones(a + b) == Ones(a) + Ones(b)
  {}

  lemma OnesOne(r: ExecReport)
    ensures Ones([r]) == [One(r)]
  {}

  /** A list of a set's members, each once. */
  ghost predicate Lists(ids: seq<OrderId>, s: set<OrderId>) {
    && (forall id :: id in ids <==> id in s)
    && (forall j, k :: 0 <= j < k < |ids| ==> ids[j] != ids[k])
  }

  function Cancels(i: u32, ids: seq<OrderId>): seq<ExecReport> {
    seq(|ids|, k requires 0 <= k < |ids| => CancelledReport(i, ids[k]))
  }

  /** `out` is one way to emit what a command tells: only blocks of cancels may be reordered. */
  ghost predicate Renders(told: seq<Emission>, out: seq<ExecReport>)
    decreases |told|
  {
    if told == [] then out == []
    else
      match told[0]
      case One(r) => out != [] && out[0] == r && Renders(told[1..], out[1..])
      case CancelBlock(i, ids) =>
        exists order: seq<OrderId> ::
          Lists(order, ids) && Cancels(i, order) <= out && Renders(told[1..], out[|order|..])
  }

  lemma {:induction false} RendersOnes(out: seq<ExecReport>)
    ensures Renders(Ones(out), out)
  {
    if out != [] {
      RendersOnes(out[1..]);
      assert Ones(out)[1..] == Ones(out[1..]);
    }
  }

  lemma RendersBlock(i: u32, ids: seq<OrderId>, s: set<OrderId>, told: seq<Emission>, out: seq<ExecReport>)
    requires Lists(ids, s) && Renders(told, out)
    ensures Renders([CancelBlock(i, s)] + told, Cancels(i, ids) + out)
  {
    hide Lists;
    var all := Cancels(i, ids) + out;
    assert ([CancelBlock(i, s)] + told)[1..] == told;
    assert all[|ids|..] == out;
    assert Lists(ids, s) && Cancels(i, ids) <= all && Renders(told, all[|ids|..]);
  }

  // --- how many renderings there are -------------------------------------------------------------------

  /** No block of cancels has two ids to reorder. */
  predicate Settled(told: seq<Emission>) {
    forall k :: 0 <= k < |told| && told[k].CancelBlock? ==> |told[k].ids| <= 1
  }

  function Size(told: seq<Emission>): nat {
    if told == [] then 0 else (if told[0].One? then 1 else |told[0].ids|) + Size(told[1..])
  }

  lemma {:induction false} ListsCount(ids: seq<OrderId>, s: set<OrderId>)
    requires Lists(ids, s)
    ensures |ids| == |s|
  {
    if ids == [] {
      assert s == {};
    } else {
      var s' := s - {ids[0]};
      forall id ensures id in ids[1..] <==> id in s' {
        if id in ids[1..] {
          var k :| 0 <= k < |ids[1..]| && ids[1..][k] == id;
          assert ids[k + 1] == id;
        }
      }
      ListsCount(ids[1..], s');
    }
  }

  /** Every rendering has the same length. */
  lemma {:induction false} RenderingsAreEven(told: seq<Emission>, out: seq<ExecReport>)
    requires Renders(told, out)
    ensures |out| == Size(told)
  {
    if told != [] {
      match told[0]
      case One(r) =>
        RenderingsAreEven(told[1..], out[1..]);
      case CancelBlock(i, ids) =>
        var order: seq<OrderId> :| Lists(order, ids) && Cancels(i, order) <= out && Renders(told[1..], out[|order|..]);
        ListsCount(order, ids);
        RenderingsAreEven(told[1..], out[|order|..]);
    }
  }

  lemma {:induction false} ListOf(s: set<OrderId>) returns (ids: seq<OrderId>)
    ensures Lists(ids, s)
  {
    if s == {} {
      ids := [];
    } else {
      var id: OrderId :| id in s;
      var rest := ListOf(s - {id});
      ListsMore(id, rest, s - {id});
      assert s - {id} + {id} == s;
      ids := [id] + rest;
    }
  }

  lemma ListsMore(id: OrderId, ids: seq<OrderId>, s: set<OrderId>)
    requires Lists(ids, s) && id !in s
    ensures Lists([id] + ids, s + {id})
  {
    assert forall k :: 0 <= k < |ids| ==> ids[k] in ids;
  }

  lemma {:induction false} Rendering(told: seq<Emission>) returns (out: seq<ExecReport>)
    ensures Renders(told, out)
    decreases |told|
  {
    if told == [] {
      out := [];
    } else {
      var rest := Rendering(told[1..]);
      match told[0]
      case One(r) =>
        out := [r] + rest;
        assert out[1..] == rest;
      case CancelBlock(i, ids) =>
        var order := ListOf(ids);
        RendersBlock(i, order, ids, told[1..], rest);
        assert [told[0]] + told[1..] == told;
        out := Cancels(i, order) + rest;
    }
  }

  lemma {:induction false} SettledIsUnique(told: seq<Emission>, a: seq<ExecReport>, b: seq<ExecReport>)
    requires Settled(told) && Renders(told, a) && Renders(told, b)
    ensures a == b
    decreases |told|
  {
    if told != [] {
      assert Settled(told[1..]);
      match told[0]
      case One(r) =>
        SettledIsUnique(told[1..], a[1..], b[1..]);
      case CancelBlock(i, ids) =>
        var p: seq<OrderId> :| Lists(p, ids) && Cancels(i, p) <= a && Renders(told[1..], a[|p|..]);
        var q: seq<OrderId> :| Lists(q, ids) && Cancels(i, q) <= b && Renders(told[1..], b[|q|..]);
        ShortLists(p, q, ids);
        SettledIsUnique(told[1..], a[|p|..], b[|q|..]);
        assert a == Cancels(i, p) + a[|p|..] && b == Cancels(i, q) + b[|q|..];
    }
  }

  lemma ShortLists(p: seq<OrderId>, q: seq<OrderId>, s: set<OrderId>)
    requires Lists(p, s) && Lists(q, s) && |s| <= 1
    ensures p == q
  {
    ListsCount(p, s);
    ListsCount(q, s);
    if |s| == 1 {
      assert p[0] in p && q[0] in q;
      assert q[0] in p;
    }
  }

  lemma TwoMembers(s: set<OrderId>) returns (a: OrderId, b: OrderId)
    requires |s| > 1
    ensures a in s && b in s && a != b
  {
    a :| a in s;
    var rest := s - {a};
    assert s == rest + {a};
    b :| b in rest;
  }

  /** Two orders of cancelling a block of two ids or more. */
  lemma TwoLists(s: set<OrderId>) returns (p: seq<OrderId>, q: seq<OrderId>)
    requires |s| > 1
    ensures Lists(p, s) && Lists(q, s) && p != [] && q != [] && p[0] != q[0]
  {
    hide Lists;
    var a, b := TwoMembers(s);
    p := ListFrom(s, a);
    q := ListFrom(s, b);
  }

  lemma ListFrom(s: set<OrderId>, id: OrderId) returns (ids: seq<OrderId>)
    requires id in s
    ensures Lists(ids, s) && ids != [] && ids[0] == id
  {
    hide Lists;
    var rest := ListOf(s - {id});
    ListsMore(id, rest, s - {id});
    assert s - {id} + {id} == s;
    ids := [id] + rest;
  }

  lemma {:induction false} UnsettledIsOpen(told: seq<Emission>) returns (a: seq<ExecReport>, b: seq<ExecReport>)
    requires !Settled(told)
    ensures Renders(told, a) && Renders(told, b) && a != b
    decreases |told|
  {
    var first := [told[0]];
    assert first + told[1..] == told;
    if told[0].CancelBlock? && |told[0].ids| > 1 {
      var i, ids := told[0].instrument, told[0].ids;
      var p, q := TwoLists(ids);
      var rest := Rendering(told[1..]);
      RendersBlock(i, p, ids, told[1..], rest);
      RendersBlock(i, q, ids, told[1..], rest);
      a, b := Cancels(i, p) + rest, Cancels(i, q) + rest;
      assert a[0] != b[0];
    } else {
      var k :| 0 <= k < |told| && told[k].CancelBlock? && |told[k].ids| > 1;
      assert told[1..][k - 1] == told[k];
      var a', b' := UnsettledIsOpen(told[1..]);
      match told[0]
      case One(r) =>
        a, b := [r] + a', [r] + b';
        assert a[1..] == a' && b[1..] == b';
      case CancelBlock(i, ids) =>
        var order := ListOf(ids);
        RendersBlock(i, order, ids, told[1..], a');
        RendersBlock(i, order, ids, told[1..], b');
        a, b := Cancels(i, order) + a', Cancels(i, order) + b';
        assert a[|order|..] == a' && b[|order|..] == b';
    }
  }

  /** What is told has exactly one rendering exactly when no block of cancels holds two ids. */
  lemma OneRenderingExact(told: seq<Emission>)
    ensures Settled(told) <==> forall a: seq<ExecReport>, b: seq<ExecReport> ::
              Renders(told, a) && Renders(told, b) ==> a == b
  {
    if Settled(told) {
      forall a: seq<ExecReport>, b: seq<ExecReport> | Renders(told, a) && Renders(told, b) ensures a == b {
        SettledIsUnique(told, a, b);
      }
    } else {
      var a, b := UnsettledIsOpen(told);
      assert Renders(told, a) && Renders(told, b);
      assert exists a: seq<ExecReport>, b: seq<ExecReport> :: Renders(told, a) && Renders(told, b) && a != b;
    }
  }

  // --- which commands can report in more than one order ------------------------------------------------

  ghost predicate Fixed(told: seq<Emission>) {
    forall k :: 0 <= k < |told| ==> told[k].One?
  }

  lemma {:induction false} TradesAreFixed(cfg: Config, i: u32, ts: seq<Trade>)
    ensures Fixed(TradeReports(cfg, i, ts))
  {
    if ts != [] {
      TradesAreFixed(cfg, i, ts[1..]);
    }
  }

  lemma {:induction false} PulledAreFixed(i: u32, ids: seq<OrderId>)
    ensures Fixed(PulledReports(i, ids))
  {
    if ids != [] {
      PulledAreFixed(i, ids[1..]);
    }
  }

  lemma NewIsFixed(cfg: Config, d: Desk, o: Order, reference: Price)
    requires DeskSound(d) && Lawful(cfg.setup.strategy) && BudgetFits(o) && EngineOf(d, o.instrument).clock < U64_MAX
    ensures Fixed(ProcessNew(cfg, d, o, reference).1)
  {
    hide Lawful, Sound, Submit, CapReached, Gated, Booked, TradeReports, PulledReports;
    var g := Gated(cfg, d.halted, d.suspended, o, reference);
    if g.Open? {
      VettedKeeps(cfg, reference, o);
      OpenIsVetted(cfg, d.halted, d.suspended, o, reference);
      var e := EngineOf(d, o.instrument);
      FreshSound(d, o.instrument);
      var rep := Submit(RulesAt(cfg.setup, e.clock + 1), e.book, g.order).1;
      PulledAreFixed(o.instrument, rep.pulled);
      TradesAreFixed(cfg, o.instrument, rep.trades);
    }
  }

  lemma OpenIsVetted(cfg: Config, halted: set<u32>, suspended: set<User>, o: Order, reference: Price)
    requires Gated(cfg, halted, suspended, o, reference).Open?
    ensures Vetted(cfg, reference, o) == Some(Gated(cfg, halted, suspended, o, reference).order)
  {
    hide Vetted;
  }

  lemma AmendIsFixed(cfg: Config, e: Engine, cmd: Command)
    requires cmd.Modify? && Sound(e.book) && Lawful(cfg.setup.strategy)
             && Enabled(e, Amend(cmd.orderId, cmd.price, cmd.qty))
    ensures Fixed(ToldAmended(cfg, e, cmd))
  {
    hide Lawful, Sound, Submit, TradeReports, Find, RoomFor;
    var found := Find(e.book, cmd.orderId);
    if found.Some? && !InPlace(found.value, cmd.price, cmd.qty) {
      LeavingKeeps(e, found.value);
      var rep := Submit(RulesAt(cfg.setup, e.clock + 1), Removed(e.book, found.value),
                        Requoted(found.value, cmd.price, cmd.qty)).1;
      TradesAreFixed(cfg, cmd.instrument, rep.trades);
    }
  }

  /** A command that closes out a user with two orders or more on the book. */
  ghost predicate ClosesSeveral(cfg: Config, d: Desk, cmd: Command) {
    cmd.ForceClose? && !Repeated(cfg, d, cmd) && |IdsOfUser(EngineOf(d, cmd.instrument).book, cmd.user)| > 1
  }

  lemma PerformSettled(cfg: Config, d: Desk, input: Input)
    requires DeskSound(d) && Lawful(cfg.setup.strategy) && Fits(d, input.cmd)
    ensures Settled(Perform(cfg, d, input).1) <==>
              (input.cmd.ForceClose? ==> |IdsOfUser(EngineOf(d, input.cmd.instrument).book, input.cmd.user)| <= 1)
  {
    hide Lawful, Sound, ProcessNew, ToldAmended, Step, Enabled, RoomFor, Find, IdsOfUser, Cleared;
    var cmd := input.cmd;
    FreshSound(d, cmd.Target());
    match cmd
    case New(o) =>
      NewIsFixed(cfg, d, o, input.reference);
    case Modify(_, _, _, _, _) =>
      AmendIsFixed(cfg, EngineOf(d, cmd.instrument), cmd);
    case ForceClose(i, user, _, _, qty) =>
      ClearingSound(d, i, user);
      var told := Perform(cfg, d, input).1;
      assert told[0] == CancelBlock(i, IdsOfUser(EngineOf(d, i).book, user));
      if qty > 0 {
        var d1 := d.(engines := d.engines[i := EngineOf(d, i).(book := Cleared(EngineOf(d, i).book, user))]);
        NewIsFixed(cfg, d1, CloseOrder(cmd), input.reference);
      }
    case _ =>
  }

  /**
   The reports of a command come in exactly one order, unless it closes out a user with two orders
   or more: those cancels are listed in hash-map order.
   */
  lemma OneStreamExact(cfg: Config, d: Desk, input: Input)
    requires DeskSound(d) && Lawful(cfg.setup.strategy) && Fits(d, input.cmd)
    ensures (forall a: seq<ExecReport>, b: seq<ExecReport> ::
               Renders(Process(cfg, d, input).1, a) && Renders(Process(cfg, d, input).1, b) ==> a == b)
            <==> !ClosesSeveral(cfg, d, input.cmd)
  {
    hide Lawful, Sound, Process, Fits, ClosesSeveral;
    OneRenderingExact(Process(cfg, d, input).1);
    ProcessSettled(cfg, d, input);
  }

  lemma ProcessSettled(cfg: Config, d: Desk, input: Input)
    requires DeskSound(d) && Lawful(cfg.setup.strategy) && Fits(d, input.cmd)
    ensures Settled(Process(cfg, d, input).1) <==> !ClosesSeveral(cfg, d, input.cmd)
  {
    hide Lawful, Sound, Perform, RoomFor, Enabled, IdsOfUser;
    if !Repeated(cfg, d, input.cmd) {
      PerformSettled(cfg, Noted(cfg, d, input.cmd), input);
    }
  }

  // --- several commands in a row -----------------------------------------------------------------------

  lemma SettledConcat(a: seq<Emission>, b: seq<Emission>)
    ensures Settled(a + b) <==> Settled(a) && Settled(b)
  {
    assert forall k :: 0 <= k < |a| ==> (a + b)[k] == a[k];
    assert forall k :: 0 <= k < |b| ==> (a + b)[|a| + k] == b[k];
  }

  /** Renderings in a row render what is told in a row. */
  lemma {:induction false} RendersConcat(a: seq<Emission>, b: seq<Emission>, x: seq<ExecReport>, y: seq<ExecReport>)
    requires Renders(a, x) && Renders(b, y)
    ensures Renders(a + b, x + y)
    decreases |a|, 1
  {
    hide Lists;
    if a == [] {
      assert a + b == b && x + y == y;
    } else {
      match a[0]
      case One(r) =>
        assert (a + b)[0] == a[0] && (a + b)[1..] == a[1..] + b;
        RendersConcat(a[1..], b, x[1..], y);
        assert (x + y)[1..] == x[1..] + y;
      case CancelBlock(i, ids) =>
        var order: seq<OrderId> :| Lists(order, ids) && Cancels(i, order) <= x && Renders(a[1..], x[|order|..]);
        BlockConcat(a, b, x, y, order);
    }
  }

  lemma BlockConcat(a: seq<Emission>, b: seq<Emission>, x: seq<ExecReport>, y: seq<ExecReport>, order: seq<OrderId>)
    requires a != [] && a[0].CancelBlock? && Lists(order, a[0].ids) && Cancels(a[0].instrument, order) <= x
    requires Renders(a[1..], x[|order|..]) && Renders(b, y)
    ensures Renders(a + b, x + y)
    decreases |a|, 0
  {
    hide Lists, Renders, Cancels;
    var i, ids := a[0].instrument, a[0].ids;
    CancelsCount(i, order);
    RendersConcat(a[1..], b, x[|order|..], y);
    RendersBlock(i, order, ids, a[1..] + b, x[|order|..] + y);
    assert [CancelBlock(i, ids)] + (a[1..] + b) == a + b;
    assert Cancels(i, order) + (x[|order|..] + y) == x + y;
  }

  lemma CancelsCount(i: u32, ids: seq<OrderId>)
    ensures |Cancels(i, ids)| == |ids|
  {}
}
