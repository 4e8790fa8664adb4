/** What a row step may record: the reported completion and barrier results, nothing else. */
module RowMembers {
  import opened Protocol
  import opened Compiler
  import opened Plans
  import opened Nested
  import opened Engine
  import opened IntentHash
  import opened WorkflowStore
  import opened DagInvariant
  import opened DagAdvance
  import opened DagRuns
  import opened FlatInvariant
  import opened FlatAdvance
  import opened FlatRuns
  import opened Rows

  predicate IsBarrier(g: Graph,
      id: Id) { exists i | 0 <= i < |g.plan| :: g.plan[i].kind.CollectNode? && g.plan[i].id == id }

  /** Same nodes, and every new member is a barrier's. */
  predicate OnlyBarriers(g: Graph, g': Graph) {
    |g'.plan| == |g.plan| &&
    (forall i | 0 <= i < |g.plan| :: g'.plan[i].kind == g.plan[i].kind && g'.plan[i].id == g.plan[i].id) &&
    forall id | id in g'.members && id !in g.members :: IsBarrier(g, id)
  }

  lemma OnlyBarriersTrans(a: Graph, b: Graph, d: Graph)
    requires OnlyBarriers(a, b) && OnlyBarriers(b, d)
    ensures OnlyBarriers(a, d)
  {
    forall id | id in d.members && id !in a.members ensures IsBarrier(a, id) {
      if id !in b.members {
        var i :| 0 <= i < |b.plan| && b.plan[i].kind.CollectNode? && b.plan[i].id == id;
        assert a.plan[i].id == id;
      }
    }
  }

  lemma VisitBarriers(c: Client, p: Sweep, i: nat)
    requires i < |p.graph.plan| && AdvanceNode(c, p, i).Ok?
    ensures OnlyBarriers(p.graph, AdvanceNode(c, p, i).value.graph)
  {
    DagAdvance.VisitShape(c, p, i);
    hide AdvanceNode;
  }

  lemma {:induction false} SweepBarriers(c: Client, p: Sweep, i: nat)
    requires i <= |p.graph.plan| && SweepFrom(c, p, i).Ok?
    ensures OnlyBarriers(p.graph, SweepFrom(c, p, i).value.graph)
    decreases |p.graph.plan| - i
  {
    hide AdvanceNode, OnlyBarriers;
    if i < |p.graph.plan| {
      VisitBarriers(c, p, i);
      var q := AdvanceNode(c, p, i).value;
      SweepBarriers(c, q, i + 1);
      OnlyBarriersTrans(p.graph, q.graph, SweepFrom(c, p, i).value.graph);
    } else {
      SameBarriers(p.graph, p.graph);
    }
  }

  lemma SameBarriers(g: Graph, g': Graph)
    requires g'.plan == g.plan && g'.members.Keys == g.members.Keys
    ensures OnlyBarriers(g, g')
  {
  }

  lemma {:induction false} TurnsBarriers(c: Client, p: Sweep, turns: nat)
    requires Turns(c, p, turns).Ok?
    ensures OnlyBarriers(p.graph, Turns(c, p, turns).value.graph)
    decreases turns
  {
    hide SweepFrom, OnlyBarriers;
    if turns > 0 {
      SweepBarriers(c, p.(progress := false), 0);
      var q := SweepFrom(c, p.(progress := false), 0).value;
      if q.progress {
        TurnsBarriers(c, q, turns - 1);
        OnlyBarriersTrans(p.graph, q.graph, Turns(c, p, turns).value.graph);
      }
    } else {
      SameBarriers(p.graph, p.graph);
    }
  }

  lemma NestedBarriers(c: Client, g: Graph, s: Intents)
    requires Core(g, s) && AdvanceNestedSpec(c, g).Ok? && !g.state.Terminal()
    ensures OnlyBarriers(g, AdvanceNestedSpec(c, g).value.0)
  {
    StartBarriers(g, s);
    NestedShape(c, g);
    hide Turns, NestedStart, ArgumentBytes, UnpinsOf, Core, OnlyBarriers, AdvanceNestedSpec;
    var (g1, intents) := NestedStart(g).value;
    var p := Sweep(g1, intents, ArgumentBytes(c, g1.children), false);
    TurnsBarriers(c, p, |g1.plan| + 1);
    var q := Turns(c, p, |g1.plan| + 1).value;
    SameBarriers(q.graph, Settle(q.graph, q.intents).0);
    OnlyBarriersTrans(g, g1, q.graph);
    OnlyBarriersTrans(g, q.graph, Settle(q.graph, q.intents).0);
  }

  /** advanceNested in three parts: cancel, sweep, settle. */
  lemma NestedShape(c: Client, g: Graph)
    requires AdvanceNestedSpec(c, g).Ok? && !g.state.Terminal()
    ensures NestedStart(g).Ok?
    ensures var (g1, intents) := NestedStart(g).value;
            var r := Turns(c, Sweep(g1, intents, ArgumentBytes(c, g1.children), false), |g1.plan| + 1);
            r.Ok? && AdvanceNestedSpec(c, g) == Ok(Settle(r.value.graph, r.value.intents))
  {
    hide Turns, CancelFrom, ArgumentBytes, Settle;
  }

  lemma StartBarriers(g: Graph, s: Intents)
    requires Core(g, s)
    ensures NestedStart(g).Ok? && OnlyBarriers(g, NestedStart(g).value.0)
  {
    hide Core, Merge, CancelFrom;
    StartKeepsCore(g, s);
  }

  lemma AbortBarriers(g: Graph)
    requires g.kind.Dag? && AdvanceAbortedSpec(g).Ok?
    ensures OnlyBarriers(g, AdvanceAbortedSpec(g).value.0)
  {
    var cleared := g.(members := ClearOutputs(g.members), output := None);
    AbortNodesKeeps(cleared, [], 0);
    hide AbortNodes, GraphUnpins;
  }

  lemma AdvanceBarriers(c: Client, g: Graph, s: Intents)
    requires Core(g, s) && AdvanceSpec(c, g).Ok?
    ensures OnlyBarriers(g, AdvanceSpec(c, g).value.0)
  {
    assert g.kind.Dag?;
    hide Core, AdvanceNestedSpec, AdvanceAbortedSpec, OnlyBarriers, GraphUnpins;
    SameBarriers(g, g);
    if g.abortFailure.Some? && !g.cancelRequested {
      AbortBarriers(g);
    } else if OverBudget(c, g) {
      var g' := g.(abortFailure := Some(BudgetExceeded));
      AbortBarriers(g');
      SameBarriers(g, g');
      OnlyBarriersTrans(g, g', AdvanceAbortedSpec(g').value.0);
    } else if !g.state.Terminal() {
      NestedBarriers(c, g, s);
    }
  }

  /** A barrier's identity is no task's. */
  lemma BarrierIsNoTask(g: Graph, id: Id)
    requires PlanOk(g) && IsBarrier(g, id)
    ensures TaskOf(id).None?
  {
    var i :| 0 <= i < |g.plan| && g.plan[i].kind.CollectNode? && g.plan[i].id == id;
    assert NodeShape(g, i);
  }

  lemma FlatAddsNone(c: Client, g: Graph)
    requires !g.kind.Dag? && AdvanceSpec(c, g).Ok?
    ensures AdvanceSpec(c, g).value.0.members.Keys == g.members.Keys
  {
    hide GraphUnpins, CancelChildren, BindArgs, Prepare, AllRecorded, AllSucceeded, OutputsOf, AbortChildren,
           ReplacementCompletionIntents;
  }

  /** A step records at most one task: the one that reports, as it reports. */
  lemma StepRecordsOnly(c: Client, row: Row, e: Event, id: Id)
    requires RowOk(c, row) && LegitRow(row, e) && id in StepRow(c, row, e).graph.members && id !in row.graph.members &&
             TaskOf(id).Some?
    ensures e.Completed? && id == e.m.id && Kept(e.m, StepRow(c, row, e).graph.members[id])
  {
    var g := if e.Completed? then WithMember(row.graph, e.m) else row.graph.(cancelRequested := true);
    assert StepRow(c, row, e) != row;
    assert Store(c, row, g).Ok? && StepRow(c, row, e) == Store(c, row, g).value;
    if g.kind.Dag? {
      DagRecordsOnly(c, row, e, g, id);
    } else {
      FlatAddsNone(c, g);
      FlatRecordsOnly(c, row, e, g);
    }
  }

  lemma DagRecordsOnly(c: Client, row: Row, e: Event, g: Graph, id: Id)
    requires Reachable(row) && LegitRow(row, e) && row.graph.kind.Dag? &&
             (e.Completed? ==> e.m.id !in row.graph.members)
    requires g == if e.Completed? then WithMember(row.graph, e.m) else row.graph.(cancelRequested := true)
    requires Store(c, row, g).Ok? && id in Store(c, row, g).value.graph.members && id !in row.graph.members &&
             TaskOf(id).Some?
    ensures e.Completed? && id == e.m.id && Kept(e.m, Store(c, row, g).value.graph.members[id])
  {
    assert Core(g, row.intents) by {
      if e.Completed? {
        var i := HandedOutDispatched(row.graph, row.intents, e.m.id);
        RecordKeepsCore(row.graph, row.intents, i, e.m);
      } else {
        CancelMarkDag(row.graph, row.intents);
      }
    }
    AdvanceBarriers(c, g, row.intents);
    AdvanceKeepsInvariant(c, g, row.intents);
    assert PlanOk(g);
    hide AdvanceSpec, Core, PlanOk, Merge, Live, Reachable;
    if id !in g.members { BarrierIsNoTask(g, id); }
  }

  lemma FlatRecordsOnly(c: Client, row: Row, e: Event, g: Graph)
    requires FlatReachable(c, row) && LegitRow(row, e) && !row.graph.kind.Dag? &&
             (e.Completed? ==> e.m.id !in row.graph.members)
    requires g == if e.Completed? then WithMember(row.graph, e.m) else row.graph.(cancelRequested := true)
    requires Store(c, row, g).Ok? && Store(c, row, g).value.graph.members.Keys == g.members.Keys
    ensures e.Completed? ==> Kept(e.m, Store(c, row, g).value.graph.members[e.m.id])
  {
    if e.Completed? {
      FlatRecordKeepsCore(c, row.graph, row.intents, e.m);
      hide FlatCore, AdvanceSpec, FlatLive, Merge;
      FlatAdvanceKeepsInvariant(c, g, row.intents);
    }
  }
}
