/** One whole advance of a DAG: it never fails, keeps the stored invariant in every mode, reaches
    a fixpoint in one sweep, and never leaves an unsettled graph without an outstanding task. */
module DagAdvance {
  import opened Protocol
  import opened Plans
  import opened Nested
  import opened Engine
  import opened IntentHash
  import opened DagInvariant

  // ---- fixpoint ----

  predicate SettledNode(g: Graph, i: nat)
    requires i < |g.plan|
  {
    g.plan[i].id in g.members || g.plan[i].dispatched || !Ready(g.plan[i], g.members)
  }

  predicate SettledBelow(g: Graph, n: nat)
    requires n <= |g.plan|
  {
    forall i | 0 <= i < n :: SettledNode(g, i)
  }

  /** A visit settles its node and unsettles no earlier one, because prerequisites come first. */
  lemma VisitSettles(c: Client, p: Sweep, i: nat)
    requires i < |p.graph.plan| && PlanOk(p.graph) && SettledBelow(p.graph, i) && AdvanceNode(c, p, i).Ok?
    ensures SettledBelow(AdvanceNode(c, p, i).value.graph, i + 1)
  {
    VisitShape(c, p, i);
    var g, g' := p.graph, AdvanceNode(c, p, i).value.graph;
    PlanOkDistinct(g);
    assert Topological(g.plan);
    hide AdvanceNode, PlanOk, SettledNode, Topological, DistinctIds;
    forall j | 0 <= j < i + 1 ensures SettledNode(g', j) { if j < i { StaysSettled(g, g', i, j); } }
  }

  /** What one visit may change: node `i` records its barrier or is handed out, and nothing else. */
  predicate Visited(g: Graph, g': Graph, i: nat)
    requires i < |g.plan|
  {
    |g'.plan| == |g.plan| && g' == g.(members := g'.members, plan := g'.plan, children := g'.children) &&
    (g'.plan == g.plan || g'.plan == g.plan[i := g.plan[i].(dispatched := true)]) &&
    (g'.members == g.members ||
     (g.plan[i].kind.CollectNode? && g.plan[i].id !in g.members && g'.plan == g.plan && g.plan[i].id in g'.members &&
      g'.members == g.members[g.plan[i].id := g'.members[g.plan[i].id]])) &&
    SettledNode(g', i)
  }

  lemma VisitShape(c: Client, p: Sweep, i: nat)
    requires i < |p.graph.plan| && AdvanceNode(c, p, i).Ok?
    ensures Visited(p.graph, AdvanceNode(c, p, i).value.graph, i)
  {
    hide Decide, CollectMember, Ready;
  }

  lemma StaysSettled(g: Graph, g': Graph, i: nat, j: nat)
    requires j < i < |g.plan| && Visited(g, g', i) && SettledNode(g, j) && DistinctIds(g.plan) && Topological(g.plan)
    ensures SettledNode(g', j)
  {
    if !Ready(g.plan[j], g.members) {
      var d :| d in Prereqs(g.plan[j]) && d !in g.members;
      assert KnownBefore(g.plan, j, d);
      assert d in Prereqs(g'.plan[j]) && d !in g'.members;
    }
  }

  lemma {:induction false} SweepSettles(c: Client, p: Sweep, s: Intents, i: nat)
    requires i <= |p.graph.plan| && Core(p.graph, Merge(s, p.intents)) && SettledBelow(p.graph, i)
    ensures var r := SweepFrom(c, p, i);
            (r.Err? ==> r.error == WorkflowSize) &&
            (r.Ok? ==> Core(r.value.graph, Merge(s, r.value.intents)) && SameShape(p.graph, r.value.graph) &&
                       SettledBelow(r.value.graph, |r.value.graph.plan|))
    decreases |p.graph.plan| - i
  {
    hide PlanOk, AllLeadToRoot, NodesInv, IntentsOk, AdvanceNode, SettledNode, MembersOk, Merge;
    if i < |p.graph.plan| {
      VisitKeepsCore(c, p, s, i);
      if AdvanceNode(c, p, i).Ok? {
        VisitSettles(c, p, i);
        SweepSettles(c, AdvanceNode(c, p, i).value, s, i + 1);
      }
    }
  }

  lemma {:induction false} IdleSweep(c: Client, p: Sweep, i: nat)
    requires i <= |p.graph.plan| && SettledBelow(p.graph, |p.graph.plan|)
    ensures SweepFrom(c, p, i) == Ok(p)
    decreases |p.graph.plan| - i
  {
    if i < |p.graph.plan| {
      assert SettledNode(p.graph, i);
      IdleSweep(c, p, i + 1);
    }
  }

  /** The turn bound always suffices: the first sweep reaches the fixpoint. */
  lemma OneSweepSuffices(c: Client, p: Sweep, s: Intents)
    requires Core(p.graph, Merge(s, p.intents))
    ensures var r := Turns(c, p, |p.graph.plan| + 1);
            (r.Err? ==> r.error == WorkflowSize) &&
            (r.Ok? ==> Core(r.value.graph, Merge(s, r.value.intents)) && SameShape(p.graph, r.value.graph) &&
                       SettledBelow(r.value.graph, |r.value.graph.plan|))
  {
    hide PlanOk, NodesInv, IntentsOk, AdvanceNode, SettledNode, MembersOk, Merge, SweepFrom;
    var start := p.(progress := false);
    SweepSettles(c, start, s, 0);
    var swept := SweepFrom(c, start, 0);
    if swept.Ok? && swept.value.progress {
      IdleSweep(c, swept.value.(progress := false), 0);
      assert |p.graph.plan| > 0;
    }
  }

  /** At a fixpoint with every handed-out task recorded, every node is recorded. */
  lemma {:induction false} SettledAllDone(g: Graph, i: nat)
    requires PlanOk(g) && SettledBelow(g, |g.plan|) && i < |g.plan|
    requires forall j | 0 <= j < |g.plan| && g.plan[j].dispatched :: g.plan[j].id in g.members
    ensures g.plan[i].id in g.members
    decreases i
  {
    assert SettledNode(g, i);
    if g.plan[i].id !in g.members {
      var d :| d in Prereqs(g.plan[i]) && d !in g.members;
      assert KnownBefore(g.plan, i, d);
      var j :| 0 <= j < i && g.plan[j].id == d;
      SettledAllDone(g, j);
      assert false;
    }
  }

  // ---- frames ----

  predicate SameKeys(m: map<Id, Completion>, m': map<Id, Completion>) {
    m'.Keys == m.Keys && forall id | id in m :: Kept(m[id], m'[id])
  }

  /** Everything but plan, children and recorded states may change, as long as cancellation and
      settlement are not taken back. */
  lemma CoreFrame(g: Graph, g': Graph, s: Intents)
    requires Core(g, s) && g'.plan == g.plan && g'.children == g.children && SameShape(g, g')
    requires SameKeys(g.members, g'.members)
    requires g.cancelRequested ==> g'.cancelRequested
    requires g'.state == g.state || g'.state.Terminal()
    ensures Core(g', s)
  {
    hide PlanOk, AllLeadToRoot;
    SameShapeStatic(g, g');
    forall id | id in g'.members
      ensures Planned(g'.plan, id) && g'.members[id].id == id && g'.members[id].outcome.state.Terminal() {}
    forall i | 0 <= i < |g.plan| ensures NodeInv(g', s, i) {
      assert NodeInv(g, s, i);
      NodeFrame(g, s, g', s, i);
    }
    IntentsFrame(g, g', s);
  }

  /** Intents that only a settled graph stores. */
  predicate Release(g: Graph, x: Intent) {
    (x.payload.Unpin? || x.payload.CompleteReplacement?) && IntentOk(g, x.id, x)
  }

  lemma ReleaseKeepsCore(g: Graph, s: Intents, x: Intent)
    requires Core(g, s) && Release(g, x) && x.id !in s
    ensures Core(g, s[x.id := x])
  {
    hide PlanOk, AllLeadToRoot;
    var s' := s[x.id := x];
    forall i | 0 <= i < |g.plan| ensures NodeInv(g, s', i) {
      assert NodeInv(g, s, i);
      NodeFrame(g, s, g, s', i);
    }
  }

  lemma {:induction false} ReleasesKeepCore(g: Graph, s: Intents, batch: seq<Intent>)
    requires Core(g, s) && forall x | x in batch :: Release(g, x)
    ensures Core(g, Merge(s, batch))
    decreases |batch|
  {
    hide Core, Release;
    if batch != [] {
      var front, x := batch[..|batch| - 1], batch[|batch| - 1];
      ReleasesKeepCore(g, s, front);
      if x.id !in Merge(s, front) { ReleaseKeepsCore(g, Merge(s, front), x); }
    }
  }

  lemma {:induction false} UnpinsAreReleases(g: Graph, children: seq<Envelope>, x: Intent)
    requires g.state.Terminal() && x in UnpinsOf(g, children)
    ensures Release(g, x)
    decreases |children|
  {
    if children != [] && x in UnpinsOf(g, children[..|children| - 1]) {
      UnpinsAreReleases(g, children[..|children| - 1], x);
    }
  }

  lemma UnpinsKeepCore(g: Graph, s: Intents)
    requires Core(g, s) && g.state.Terminal()
    ensures GraphUnpins(g) == UnpinsOf(g, g.children) && Core(g, Merge(s, GraphUnpins(g)))
  {
    hide PlanOk, AllLeadToRoot, NodesInv, IntentsOk, Release, MembersOk, UnpinsOf, Merge;
    assert UnpinsOf(g, g.children) + [] == UnpinsOf(g, g.children);
    forall x | x in GraphUnpins(g) ensures Release(g, x) { UnpinsAreReleases(g, g.children, x); }
    ReleasesKeepCore(g, s, GraphUnpins(g));
  }

  // ---- settling ----

  lemma SettleKeepsCore(g: Graph, s: Intents, intents: seq<Intent>)
    requires Core(g, Merge(s, intents))
    ensures var (g', all) := Settle(g, intents);
            Core(g', Merge(s, all)) && SameShape(g, g') && g'.plan == g.plan && g'.members == g.members &&
            (g.rootNode.value in g.members ==> g'.state.Terminal()) && (g.state.Terminal() ==> g'.state.Terminal())
  {
    hide PlanOk, Fed, Planned, NodesInv, IntentsOk, UnpinsOf, Merge;
    if g.rootNode.value in g.members {
      var (g', all) := Settle(g, intents);
      CoreFrame(g, g', Merge(s, intents));
      SameUnpins(g, g', g.children);
      UnpinsKeepCore(g', Merge(s, intents));
      MergeAppend(s, intents, UnpinsOf(g, g.children));
    }
  }

  // ---- cancelling ----

  /** Cancelling an already handed-out task adds at most a cancel request. */
  lemma CancelDispatchedKeepsCore(g: Graph, s: Intents, i: nat, e: Envelope)
    requires Core(g, s) && i < |g.plan| && g.plan[i].kind.TaskNode? && g.plan[i].dispatched && g.cancelRequested &&
             e.id == g.plan[i].id && Owned(g, e)
    ensures var x := CancellationIntent(g.id, e, true); Core(g, if x.id in s then s else s[x.id := x])
  {
    hide PlanOk, AllLeadToRoot;
    var x := CancellationIntent(g.id, e, true);
    if x.id !in s {
      var s' := s[x.id := x];
      PlanOkDistinct(g);
      forall j | 0 <= j < |g.plan| ensures NodeInv(g, s', j) {
        assert NodeInv(g, s, j);
        if j != i { NodeFrame(g, s, g, s', j); }
      }
      assert IsTask(g, e.id);
    }
  }

  lemma CancelStepKeepsCore(g: Graph, s: Intents, i: nat)
    requires Core(g, s) && i < |g.plan| && g.plan[i].kind.TaskNode? && g.plan[i].id !in g.members && g.cancelRequested
    ensures FindChild(g.children, g.plan[i].id).Some?
    ensures var e := g.children[FindChild(g.children, g.plan[i].id).value];
            Core(MarkDispatched(g, i), Merge(s, [CancellationIntent(g.id, e, g.plan[i].dispatched)])) &&
            SameShape(g, MarkDispatched(g, i))
  {
    hide PlanOk, AllLeadToRoot, NodesInv, IntentsOk, MembersOk;
    FindTaskChild(g, i);
    var e := g.children[TaskIndex(g.plan[i].id)];
    var x := CancellationIntent(g.id, e, g.plan[i].dispatched);
    MergeSnoc(s, [], x);
    assert [] + [x] == [x];
    if g.plan[i].dispatched {
      assert MarkDispatched(g, i).plan == g.plan;
      CancelDispatchedKeepsCore(g, s, i, e);
    } else {
      HandOutKeepsCore(g, s, i, MarkDispatched(g, i), x);
    }
  }

  predicate TasksOutBelow(g: Graph, n: nat)
    requires n <= |g.plan|
  {
    forall i | 0 <= i < n && g.plan[i].kind.TaskNode? :: g.plan[i].dispatched || g.plan[i].id in g.members
  }

  lemma {:induction false} CancelKeepsCore(g: Graph, s: Intents, intents: seq<Intent>, i: nat)
    requires i <= |g.plan| && Core(g, Merge(s, intents)) && g.cancelRequested && TasksOutBelow(g, i)
    ensures var r := CancelFrom(g, intents, i);
            r.Ok? && Core(r.value.0, Merge(s, r.value.1)) && SameShape(g, r.value.0) &&
            r.value.0.members == g.members &&
            r.value.0 == g.(plan := r.value.0.plan) && TasksOutBelow(r.value.0, |g.plan|)
    decreases |g.plan| - i
  {
    hide PlanOk, AllLeadToRoot, NodesInv, IntentsOk, MembersOk, Merge;
    if i < |g.plan| {
      if g.plan[i].kind.CollectNode? || g.plan[i].id in g.members {
        CancelKeepsCore(g, s, intents, i + 1);
      } else {
        CancelStepKeepsCore(g, Merge(s, intents), i);
        var x := CancellationIntent(g.id, g.children[FindChild(g.children, g.plan[i].id).value], g.plan[i].dispatched);
        MergeAppend(s, intents, [x]);
        CancelKeepsCore(MarkDispatched(g, i), s, intents + [x], i + 1);
      }
    }
  }

  // ---- aborting ----

  lemma {:induction false} AbortKeepsCore(g: Graph, s: Intents, intents: seq<Intent>, i: nat)
    requires i <= |g.plan| && Core(g, Merge(s, intents)) && TasksOutBelow(g, i)
    ensures var r := AbortNodes(g, intents, i);
            r.Ok? && Core(r.value.0, Merge(s, r.value.1)) && SameShape(g, r.value.0) &&
            r.value.0 == g.(plan := r.value.0.plan) && TasksOutBelow(r.value.0, |g.plan|)
    decreases |g.plan| - i
  {
    hide Core, Merge, PlanOk;
    if i < |g.plan| {
      if g.plan[i].kind.CollectNode? || g.plan[i].id in g.members || g.plan[i].dispatched {
        AbortKeepsCore(g, s, intents, i + 1);
      } else {
        CorePlan(g, Merge(s, intents));
        FindTaskChild(g, i);
        var e := g.children[TaskIndex(g.plan[i].id)];
        var x := FailIntent(g.id, e, g.abortFailure, Some(Failed));
        HandOutKeepsCore(g, Merge(s, intents), i, MarkDispatched(g, i), x);
        MergeSnoc(s, intents, x);
        AbortKeepsCore(MarkDispatched(g, i), s, intents + [x], i + 1);
      }
    }
  }

  /** In a graph that is not settled, some handed-out task has no recorded member. */
  predicate Live(g: Graph) {
    !g.state.Terminal() ==>
      exists i | 0 <= i < |g.plan| :: g.plan[i].kind.TaskNode? && g.plan[i].dispatched && g.plan[i].id !in g.members
  }

  /** What one advance of a stored DAG guarantees, in every mode. */
  predicate AdvanceOk(g: Graph, s: Intents, r: Advanced) {
    r.Ok? && Core(r.value.0, Merge(s, r.value.1)) && SameShape(g, r.value.0) && Live(r.value.0) &&
    MembersKept(g.members, r.value.0.members) && r.value.0.cancelRequested == g.cancelRequested &&
    (g.state.Terminal() ==> r.value.0.state.Terminal())
  }

  lemma ClearedKeepsCore(g: Graph, s: Intents)
    requires Core(g, s)
    ensures Core(g.(members := ClearOutputs(g.members), output := None), s)
  {
    hide PlanOk, AllLeadToRoot, NodesInv, IntentsOk, MembersOk;
    CoreFrame(g, g.(members := ClearOutputs(g.members), output := None), s);
  }

  lemma AbortedAdvanceOk(g: Graph, s: Intents)
    requires Core(g, s) && g.abortFailure.Some?
    ensures AdvanceOk(g, s, AdvanceAbortedSpec(g))
  {
    hide PlanOk, AllLeadToRoot, NodesInv, IntentsOk, MembersOk, AbortNodes, Merge;
    var cleared := g.(members := ClearOutputs(g.members), output := None);
    ClearedKeepsCore(g, s);
    AbortKeepsCore(cleared, s, [], 0) by { assert Merge(s, []) == s by { MergeEmpty(s); } }
    var (g1, intents) := AbortNodes(cleared, [], 0).value;
    if Finished(g1) {
      var g2 := g1.(state := Failed, failure := g1.abortFailure);
      CoreFrame(g1, g2, Merge(s, intents));
      SameUnpins(g1, g2, g1.children);
      assert GraphUnpins(g2) == GraphUnpins(g1);
      UnpinsKeepCore(g2, Merge(s, intents));
      MergeAppend(s, intents, GraphUnpins(g1));
    }
  }

  /** The settled end of a sweep: unsettled means an outstanding task. */
  lemma SettleLive(g: Graph, intents: seq<Intent>)
    requires Static(g) && MembersOk(g) && SettledBelow(g, |g.plan|)
    requires forall i | 0 <= i < |g.plan| && g.plan[i].kind.CollectNode? :: !g.plan[i].dispatched
    ensures Live(Settle(g, intents).0)
  {
    hide PlanOk, Fed, SettledBelow, UnpinsOf;
    var g' := Settle(g, intents).0;
    if !Live(g') {
      forall j | 0 <= j < |g.plan| && g.plan[j].dispatched ensures g.plan[j].id in g.members {
        assert g'.plan == g.plan;
      }
      var r :| 0 <= r < |g.plan| && g.plan[r].id == g.rootNode.value;
      SettledAllDone(g, r);
    }
  }

  lemma CollectsNotDispatched(g: Graph, s: Intents)
    requires NodesInv(g, s)
    ensures forall i | 0 <= i < |g.plan| && g.plan[i].kind.CollectNode? :: !g.plan[i].dispatched
  {
    forall i | 0 <= i < |g.plan| && g.plan[i].kind.CollectNode? ensures !g.plan[i].dispatched {
      assert NodeInv(g, s, i);
    }
  }

  /** A sweep only records members, flips dispatch flags and binds arguments. */
  predicate Extended(g: Graph, g': Graph) {
    g' == g.(members := g'.members, plan := g'.plan, children := g'.children) &&
    forall id | id in g.members :: id in g'.members && g'.members[id] == g.members[id]
  }

  lemma VisitExtends(c: Client, p: Sweep, i: nat)
    requires i < |p.graph.plan| && AdvanceNode(c, p, i).Ok?
    ensures Extended(p.graph, AdvanceNode(c, p, i).value.graph)
  {
    VisitShape(c, p, i);
    hide AdvanceNode;
  }

  lemma {:induction false} SweepExtends(c: Client, p: Sweep, i: nat)
    requires i <= |p.graph.plan| && SweepFrom(c, p, i).Ok?
    ensures Extended(p.graph, SweepFrom(c, p, i).value.graph)
    decreases |p.graph.plan| - i
  {
    hide AdvanceNode;
    if i < |p.graph.plan| {
      VisitExtends(c, p, i);
      SweepExtends(c, AdvanceNode(c, p, i).value, i + 1);
    }
  }

  lemma {:induction false} TurnsExtend(c: Client, p: Sweep, turns: nat)
    requires Turns(c, p, turns).Ok?
    ensures Extended(p.graph, Turns(c, p, turns).value.graph)
    decreases turns
  {
    hide SweepFrom;
    if turns > 0 {
      SweepExtends(c, p.(progress := false), 0);
      var q := SweepFrom(c, p.(progress := false), 0).value;
      if q.progress { TurnsExtend(c, q, turns - 1); }
    }
  }

  /** The part of advanceNested that runs before the sweeps. */
  function NestedStart(g: Graph): Result<(Graph, seq<Intent>)> {
    if g.cancelRequested then CancelFrom(g, [], 0) else Ok((g, []))
  }

  lemma StartKeepsCore(g: Graph, s: Intents)
    requires Core(g, s)
    ensures NestedStart(g).Ok? &&
            var (g1, intents) := NestedStart(g).value;
            Core(g1, Merge(s, intents)) && SameShape(g, g1) && g1 == g.(plan := g1.plan)
  {
    hide PlanOk, AllLeadToRoot, NodesInv, IntentsOk, MembersOk, CancelFrom, Merge;
    MergeEmpty(s);
    if g.cancelRequested { CancelKeepsCore(g, s, [], 0); }
  }

  lemma SameShapeTrans(a: Graph, b: Graph, d: Graph)
    requires SameShape(a, b) && SameShape(b, d)
    ensures SameShape(a, d)
  {
  }

  lemma NestedAdvanceOk(c: Client, g: Graph, s: Intents)
    requires Core(g, s) && !g.state.Terminal()
    ensures AdvanceNestedSpec(c, g) == Err(WorkflowSize) || AdvanceOk(g, s, AdvanceNestedSpec(c, g))
  {
    hide PlanOk, Fed, Planned, NodesInv, IntentsOk, CancelFrom, Turns, SettledBelow, Merge, UnpinsOf, ArgumentBytes;
    StartKeepsCore(g, s);
    var (g1, intents) := NestedStart(g).value;
    var p := Sweep(g1, intents, ArgumentBytes(c, g1.children), false);
    OneSweepSuffices(c, p, s);
    var r := Turns(c, p, |g1.plan| + 1);
    if r.Ok? {
      TurnsExtend(c, p, |g1.plan| + 1);
      SweptAdvanceOk(g, g1, r.value, s);
    }
  }

  lemma SweptAdvanceOk(g: Graph, g1: Graph, q: Sweep, s: Intents)
    requires Static(g) && SameShape(g, g1) && g1 == g.(plan := g1.plan) && !g.state.Terminal()
    requires Core(q.graph, Merge(s, q.intents)) && SameShape(g1, q.graph) && Extended(g1, q.graph)
    requires SettledBelow(q.graph, |q.graph.plan|)
    ensures AdvanceOk(g, s, Ok(Settle(q.graph, q.intents)))
  {
    hide PlanOk, Fed, Planned, NodesInv, IntentsOk, SettledBelow, Merge, UnpinsOf, Live;
    CollectsNotDispatched(q.graph, Merge(s, q.intents));
    SettleKeepsCore(q.graph, s, q.intents);
    SettleLive(q.graph, q.intents);
    SameShapeTrans(g, g1, q.graph);
    SameShapeTrans(g, q.graph, Settle(q.graph, q.intents).0);
  }

  lemma TerminalAdvanceOk(g: Graph, s: Intents)
    requires Core(g, s) && g.state.Terminal()
    ensures AdvanceOk(g, s, Ok((g, GraphUnpins(g))))
  {
    hide PlanOk, AllLeadToRoot, NodesInv, IntentsOk, MembersOk, Merge;
    UnpinsKeepCore(g, s);
  }

  lemma ModeAdvanceOk(c: Client, g: Graph, s: Intents)
    requires Core(g, s)
    ensures AdvanceOk(g, s, AdvanceMode(c, g))
  {
    hide PlanOk, AllLeadToRoot, NodesInv, IntentsOk, MembersOk, Merge, AdvanceNestedSpec, AdvanceAbortedSpec,
           GraphUnpins, Live;
    if g.abortFailure.Some? && !g.cancelRequested {
      AbortedAdvanceOk(g, s);
    } else if OverBudget(c, g) {
      var g' := g.(abortFailure := Some(BudgetExceeded));
      CoreFrame(g, g', s);
      AbortedAdvanceOk(g', s);
      SameShapeTrans(g, g', AdvanceAbortedSpec(g').value.0);
    } else if g.state.Terminal() {
      TerminalAdvanceOk(g, s);
    } else {
      NestedAdvanceOk(c, g, s);
    }
  }

  /** Advancing a stored DAG never fails, keeps every invariant and leaves no stuck graph. */
  lemma AdvanceKeepsInvariant(c: Client, g: Graph, s: Intents)
    requires Core(g, s)
    ensures AdvanceOk(g, s, AdvanceSpec(c, g))
  {
    hide PlanOk, AllLeadToRoot, NodesInv, IntentsOk, MembersOk, Merge, AdvanceMode, Live;
    ModeAdvanceOk(c, g, s);
    var (next, intents) := AdvanceMode(c, g).value;
    var extra := ReplacementCompletionIntents(next);
    forall x | x in extra ensures Release(next, x) {}
    ReleasesKeepCore(next, Merge(s, intents), extra);
    MergeAppend(s, intents, extra);
  }
}
