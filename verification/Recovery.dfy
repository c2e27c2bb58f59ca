/** Exporting a processor's engines and restoring a snapshot into a new processor. */
module Recoveries {
  import opened Types
  import opened Strategies
  import opened Submissions
  import opened Exports
  import opened Processing
  import opened Desks
  import opened Restores
  import opened MatchingEngines
  import opened Processors

  lemma MinOf(s: set<u32>) returns (m: u32)
    requires s != {}
    ensures m in s && forall j :: j in s ==> m <= j
  {
    var x :| x in s;
    m := x;
    if s != {x} {
      var rest := s - {x};
      assert rest != {};
      var y := MinOf(rest);
      m := if x < y then x else y;
      assert forall j :: j in s ==> j == x || j in rest;
    }
  }

  ghost predicate Sorted(es: seq<EngineState>) {
    forall j, k :: 0 <= j < k < |es| ==> es[j].instrument < es[k].instrument
  }

  /** One exported engine: its counter and its orders sorted by stamp. */
  ghost predicate Captured(engines: map<u32, Engine>, e: EngineState) {
    e.instrument in engines && e.clock == engines[e.instrument].clock && Exported(engines[e.instrument].book, e.orders)
  }

  /** Every engine is captured, in instrument order, but those still to come. */
  ghost predicate SoFar(engines: map<u32, Engine>, es: seq<EngineState>, rest: set<u32>) {
    && rest <= engines.Keys && Sorted(es)
    && (forall k :: 0 <= k < |es| ==> Captured(engines, es[k]) && es[k].instrument !in rest)
    && (forall k, i :: 0 <= k < |es| && i in rest ==> es[k].instrument < i)
    && (forall i :: i in engines && i !in rest ==> exists k :: 0 <= k < |es| && es[k].instrument == i)
  }

  lemma OneMore(engines: map<u32, Engine>, es: seq<EngineState>, rest: set<u32>, e: EngineState)
    requires SoFar(engines, es, rest) && e.instrument in rest && Captured(engines, e)
    requires forall j :: j in rest ==> e.instrument <= j
    ensures SoFar(engines, es + [e], rest - {e.instrument})
  {
    hide Exported, Captured;
    var es', i := es + [e], e.instrument;
    assert es'[|es|] == e;
    forall j | j in engines && j !in rest - {i} ensures exists k :: 0 <= k < |es'| && es'[k].instrument == j {
      if j == i {
        assert es'[|es|].instrument == j;
      } else {
        var k :| 0 <= k < |es| && es[k].instrument == j;
        assert es'[k].instrument == j;
      }
    }
  }

  lemma AllCaptured(engines: map<u32, Engine>, es: seq<EngineState>)
    requires SoFar(engines, es, {})
    ensures EnginesCaptured(engines, es)
  {
    hide Exported;
  }

  /** Export every engine, ordered by instrument. */
  method ExportState(p: Processor) returns (es: seq<EngineState>)
    requires p.Valid()
    ensures EnginesCaptured(p.Engines(), es) && Sorted(es)
  {
    hide Processor.Engines, Lawful, Exported, MatchingEngine.Valid, MatchingEngine.Repr, MatchingEngine.State, SoFar,
      EnginesCaptured, Sorted;
    es := [];
    var rest := p.engines.Keys;
    ghost var all := p.Engines();
    p.EnginesKeys();
    forall i | i in p.engines ensures p.engines[i].State() == all[i] {
      p.EngineAt(i);
    }
    StartExport(all);
    while rest != {}
      invariant p.Valid() && SoFar(all, es, rest) && rest <= p.engines.Keys == all.Keys
      invariant forall i :: i in p.engines ==> p.engines[i].State() == all[i]
      decreases |rest|
    {
      var i := Lowest(rest);
      var e := Exporting(p.engines[i], i);
      OneMore(all, es, rest, e);
      es, rest := es + [e], rest - {i};
    }
    AllCaptured(all, es);
    SortedSoFar(all, es);
    p.EnginesAre(all);
  }

  method Lowest(s: set<u32>) returns (i: u32)
    requires s != {}
    ensures i in s && forall j :: j in s ==> i <= j
  {
    ghost var m := MinOf(s);
    assert m in s && forall j :: j in s ==> m <= j;
    i :| i in s && forall j :: j in s ==> i <= j;
  }

  lemma StartExport(engines: map<u32, Engine>)
    ensures SoFar(engines, [], engines.Keys)
  {}

  lemma SortedSoFar(engines: map<u32, Engine>, es: seq<EngineState>)
    requires SoFar(engines, es, {})
    ensures Sorted(es)
  {}

  method Exporting(engine: MatchingEngine, i: u32) returns (e: EngineState)
    requires engine.Valid()
    ensures e.instrument == i && e.clock == engine.State().clock && Exported(engine.State().book, e.orders)
  {
    hide Exported, MatchingEngine.Repr, Lawful;
    var orders := engine.ExportOrders();
    return EngineState(i, engine.clock, orders);
  }

  /** A snapshot that fits a new processor: one entry per instrument, every order insertable in turn. */
  ghost predicate Installable(es: seq<EngineState>) {
    && (forall j, k :: 0 <= j < k < |es| ==> es[j].instrument != es[k].instrument)
    && (forall k :: 0 <= k < |es| ==> Restorable(es[k].orders))
  }

  /** What a desk in the invariant exports can be installed. */
  lemma CapturedIsInstallable(cfg: Config, d: Desk, es: seq<EngineState>)
    requires DeskInv(cfg, d) && EnginesCaptured(d.engines, es)
             && forall i :: i in d.engines ==> Roomy(d.engines[i].book)
    ensures Installable(es)
  {
    hide EngineOk, Exported, Roomy, Restorable;
    forall k | 0 <= k < |es| ensures Restorable(es[k].orders) {
      var e := d.engines[es[k].instrument];
      OkParts(cfg, e, d.seen);
      ExportedIsRestorable(e.book, es[k].orders);
    }
  }

  /** Restore a snapshot into a new processor. */
  method RestoreState(p: Processor, s: Snapshot)
    requires p.Valid() && p.State() == NEW_DESK && Installable(s.engines)
    modifies p, p.repr
    ensures p.Valid() && fresh(p.repr - old(p.repr)) && p.State() == Restored(s)
  {
    hide Processor.Engines, MatchingEngine.Valid, MatchingEngine.Repr, MatchingEngine.State, Lawful, Restorable,
      RestoredIds, RestoredEngines, RestoredPositions, Rebuilt;
    p.maxNew := if p.maxNew < s.maxNew then s.maxNew else p.maxNew;
    p.maxAdmin := if p.maxAdmin < s.maxAdmin then s.maxAdmin else p.maxAdmin;
    p.halted := p.halted + (set i | i in s.halted);
    p.suspended := p.suspended + (set u | u in s.suspended);
    p.positions := SummedPositions(s.positions);
    RestoreEngines(p, s.engines);
  }

  /** Rebuild every engine of a snapshot and note the ids of its orders. */
  method RestoreEngines(p: Processor, es: seq<EngineState>)
    requires p.Valid() && p.Engines() == map[] && p.seen == {} && Installable(es)
    modifies p`engines, p`repr, p`seen, p.repr
    ensures p.Valid() && fresh(p.repr - old(p.repr))
    ensures p.Engines() == RestoredEngines(es) && p.seen == RestoredIds(es)
  {
    hide Processor.Engines, MatchingEngine.Valid, MatchingEngine.Repr, MatchingEngine.State, Lawful, Restorable,
      RestoredIds, RestoredEngines, Rebuilt;
    NothingRestored();
    assert es[..0] == [];
    for k := 0 to |es|
      invariant p.Valid() && fresh(p.repr - old(p.repr))
      invariant p.Engines() == RestoredEngines(es[..k]) && p.seen == RestoredIds(es[..k])
    {
      var e := es[k];
      NotRestoredYet(es, k);
      RestoredNext(es, k);
      p.seen := p.seen + (set o | o in e.orders :: o.id);
      p.RestoreOn(e.instrument, e.clock, e.orders);
    }
    assert es[..|es|] == es;
  }

  lemma NotRestoredYet(es: seq<EngineState>, k: nat)
    requires k < |es| && forall j, k :: 0 <= j < k < |es| ==> es[j].instrument != es[k].instrument
    ensures es[k].instrument !in RestoredEngines(es[..k])
  {
    hide RestoredEngines;
    if es[k].instrument in RestoredEngines(es[..k]) {
      RestoredFrom(es[..k], es[k].instrument);
    }
  }

  lemma NothingRestored()
    ensures RestoredEngines([]) == map[] && RestoredIds([]) == {}
  {}

  lemma RestoredNext(es: seq<EngineState>, k: nat)
    requires k < |es|
    ensures RestoredEngines(es[..k + 1]) ==
            RestoredEngines(es[..k])[es[k].instrument := Engine(Rebuilt(es[k].orders), es[k].clock)]
    ensures RestoredIds(es[..k + 1]) == RestoredIds(es[..k]) + (set o | o in es[k].orders :: o.id)
  {
    hide Rebuilt;
    assert es[..k + 1][..k] == es[..k] && es[..k + 1][k] == es[k];
  }

  method SummedPositions(ps: seq<(User, u32, int)>) returns (m: map<(User, u32), int>)
    ensures m == RestoredPositions(ps)
  {
    m := map[];
    for k := 0 to |ps|
      invariant m == RestoredPositions(ps[..k])
    {
      var (u, i, q) := ps[k];
      assert ps[..k + 1][..k] == ps[..k] && ps[..k + 1][k] == ps[k];
      m := m[(u, i) := Position(m, u, i) + q];
    }
    assert ps[..|ps|] == ps;
  }
}
