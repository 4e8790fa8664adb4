/** What settling releases: unpin intents, the report to a replaced task, and how many completions
    a workflow can take. */
module Pins {
  import opened Protocol
  import opened Meaning
  import opened Plans
  import opened Nested
  import opened Engine
  import opened IntentHash
  import opened WorkflowStore
  import opened DagInvariant
  import opened DagAdvance
  import opened DagMeaning
  import opened DagRuns

  /** Every recorded task of a settled graph has a stored unpin intent. */
  predicate UnpinsComplete(row: Row) {
    row.graph.state.Terminal() ==>
      forall n | 0 <= n < |row.graph.children| && row.graph.children[n].id in row.graph.members ::
        UnpinId(row.graph, row.graph.children[n].id) in row.intents
  }

  /** This advance runs in the aborted mode. */
  predicate AbortsNow(c: Client, g: Graph) { (g.abortFailure.Some? && !g.cancelRequested) || OverBudget(c, g) }

  /** The one situation in which a settled graph records a task without releasing it. */
  predicate LateAbort(c: Client, g: Graph) { AbortsNow(c, g) && g.state.Terminal() && !Finished(g) }

  lemma {:induction false} UnpinsHave(g: Graph, children: seq<Envelope>, n: nat)
    requires n < |children| && children[n].id in g.members
    ensures UnpinIntent(g.id, children[n].id) in UnpinsOf(g, children)
    decreases |children|
  {
    if n < |children| - 1 {
      assert children[..|children| - 1][n] == children[n];
      UnpinsHave(g, children[..|children| - 1], n);
    }
  }

  /** A batch that lists the unpins of all recorded children stores them. */
  lemma ListedUnpins(g: Graph, s: Intents, batch: seq<Intent>)
    requires forall x | x in UnpinsOf(g, g.children) :: x in batch
    ensures forall n | 0 <= n < |g.children| && g.children[n].id in g.members ::
              UnpinId(g, g.children[n].id) in Merge(s, batch)
  {
    forall n | 0 <= n < |g.children| && g.children[n].id in g.members
      ensures UnpinId(g, g.children[n].id) in Merge(s, batch)
    {
      UnpinsHave(g, g.children, n);
      var x := UnpinIntent(g.id, g.children[n].id);
      var i :| 0 <= i < |batch| && batch[i] == x;
      MergeHas(s, batch, i);
    }
  }

  /** Where an advance of a DAG settles without a late abort, it lists every unpin. */
  lemma SettlingListsUnpins(c: Client, g: Graph)
    requires g.kind.Dag? && AdvanceMode(c, g).Ok? && AdvanceMode(c, g).value.0.state.Terminal() && !LateAbort(c, g)
    ensures var (next, batch) := AdvanceMode(c, g).value; forall x | x in UnpinsOf(next, next.children) :: x in batch
  {
    if AbortsNow(c, g) {
      AbortListsUnpins(if g.abortFailure.Some? &&
      !g.cancelRequested then g else g.(abortFailure := Some(BudgetExceeded)));
    } else if !g.state.Terminal() {
      NestedListsUnpins(c, g);
    }
  }

  lemma AbortListsUnpins(g: Graph)
    requires g.kind.Dag? && AdvanceAbortedSpec(g).Ok? && AdvanceAbortedSpec(g).value.0.state.Terminal() &&
             (g.state.Terminal() ==> Finished(g))
    ensures var (next, batch) := AdvanceAbortedSpec(g).value;
            forall x | x in UnpinsOf(next, next.children) :: x in batch
  {
    var cleared := g.(members := ClearOutputs(g.members), output := None);
    AbortNodesKeeps(cleared, [], 0);
    AbortNodesKeepRest(cleared, [], 0);
    var (g1, intents) := AbortNodes(cleared, [], 0).value;
    SameFinished(g, cleared, g1);
    if Finished(g1) {
      SameUnpins(g1, g1.(state := Failed, failure := g1.abortFailure), g1.children);
    }
  }

  lemma SameFinished(g: Graph, cleared: Graph, g1: Graph)
    requires g.kind.Dag? && cleared == g.(members := ClearOutputs(g.members), output := None)
    requires g1.members == cleared.members && g1.kind == cleared.kind && |g1.plan| == |cleared.plan|
    requires forall j | 0 <= j < |cleared.plan| :: g1.plan[j] == cleared.plan[j].(dispatched := g1.plan[j].dispatched)
    ensures Finished(g1) == Finished(g)
  {
  }

  lemma {:induction false} AbortNodesKeepRest(g: Graph, intents: seq<Intent>, i: nat)
    requires i <= |g.plan| && AbortNodes(g, intents, i).Ok?
    ensures var g1 := AbortNodes(g, intents, i).value.0;
            g1.state == g.state && g1.children == g.children && g1.id == g.id
    ensures forall x | x in AbortNodes(g, intents, i).value.1 :: x in intents || x.payload.Fail?
    decreases |g.plan| - i
  {
    if i < |g.plan| {
      var node := g.plan[i];
      if node.kind.CollectNode? || node.id in g.members || node.dispatched {
        AbortNodesKeepRest(g, intents, i + 1);
      } else {
        var index := FindChild(g.children, node.id);
        AbortNodesKeepRest(MarkDispatched(g, i),
          intents + [FailIntent(g.id, g.children[index.value], g.abortFailure, Some(Failed))], i + 1);
      }
    }
  }

  lemma NestedListsUnpins(c: Client, g: Graph)
    requires AdvanceNestedSpec(c, g).Ok? && AdvanceNestedSpec(c, g).value.0.state.Terminal() && !g.state.Terminal()
    ensures var (next, batch) := AdvanceNestedSpec(c, g).value;
            forall x | x in UnpinsOf(next, next.children) :: x in batch
  {
    hide Turns, CancelFrom, ArgumentBytes, UnpinsOf;
    var (g1, intents) := NestedStart(g).value;
    var p := Sweep(g1, intents, ArgumentBytes(c, g1.children), false);
    if g.cancelRequested { CancelKeepsState(g, [], 0); }
    TurnsKeepState(c, p, |g1.plan| + 1);
    var last := Turns(c, p, |g1.plan| + 1).value;
    SameUnpins(last.graph, Settle(last.graph, last.intents).0, last.graph.children);
  }

  lemma {:induction false} CancelKeepsState(g: Graph, intents: seq<Intent>, i: nat)
    requires i <= |g.plan| && CancelFrom(g, intents, i).Ok?
    ensures CancelFrom(g, intents, i).value.0.state == g.state
    decreases |g.plan| - i
  {
    if i < |g.plan| {
      var node := g.plan[i];
      if node.kind.CollectNode? || node.id in g.members {
        CancelKeepsState(g, intents, i + 1);
      } else {
        var e := g.children[FindChild(g.children, node.id).value];
        CancelKeepsState(MarkDispatched(g, i), intents + [CancellationIntent(g.id, e, node.dispatched)], i + 1);
      }
    }
  }

  lemma {:induction false} TurnsKeepState(c: Client, p: Sweep, turns: nat)
    requires Turns(c, p, turns).Ok?
    ensures Turns(c, p, turns).value.graph.state == p.graph.state
    decreases turns
  {
    TurnsExtend(c, p, turns);
  }

  /** Pin completeness, exactly: after an effective completion every recorded task of a settled
      DAG is released if and only if this was not a late abort. */
  lemma PinCompleteness(c: Client, row: Row, m: Completion)
    requires Reachable(row) && Legit(row, Completed(m)) && m.id !in row.graph.members
    ensures UnpinsComplete(StepRow(c, row, Completed(m))) <==> !LateAbort(c, WithMember(row.graph, m))
  {
    EffectiveIsStore(c, row, m);
    var i := HandedOutDispatched(row.graph, row.intents, m.id);
    hide Reachable, Store, LateAbort, StepRow, UnpinsComplete;
    if LateAbort(c, WithMember(row.graph, m)) {
      LateAbortMisses(c, row, m, i);
    } else {
      StoredUnpins(c, row, WithMember(row.graph, m));
    }
  }

  lemma EffectiveIsStore(c: Client, row: Row, m: Completion)
    requires Reachable(row) && Legit(row, Completed(m)) && m.id !in row.graph.members
    ensures row.graph.kind.Dag? && Store(c, row, WithMember(row.graph, m)).Ok? &&
            StepRow(c, row, Completed(m)) == Store(c, row, WithMember(row.graph, m)).value
  {
    assert row.graph.kind.Dag?;
    var i := HandedOutDispatched(row.graph, row.intents, m.id);
    RecordKeepsCore(row.graph, row.intents, i, m);
    hide Core, AdvanceSpec, Live, Merge;
    AdvanceKeepsInvariant(c, WithMember(row.graph, m), row.intents);
  }

  lemma StoredUnpins(c: Client, row: Row, g: Graph)
    requires g.kind.Dag? && Store(c, row, g).Ok? && !LateAbort(c, g)
    ensures UnpinsComplete(Store(c, row, g).value)
  {
    hide AdvanceMode, LateAbort, Merge;
    var (next, batch) := AdvanceMode(c, g).value;
    if next.state.Terminal() {
      SettlingListsUnpins(c, g);
      ListedUnpins(next, row.intents, batch + ReplacementCompletionIntents(next));
    }
  }

  lemma LateAbortMisses(c: Client, row: Row, m: Completion, i: nat)
    requires Reachable(row) && m.id !in row.graph.members && i < |row.graph.plan| && row.graph.plan[i].id == m.id &&
             row.graph.plan[i].kind.TaskNode?
    requires row.graph.kind.Dag? && LateAbort(c, WithMember(row.graph, m)) &&
             Store(c, row, WithMember(row.graph, m)).Ok?
    ensures !UnpinsComplete(Store(c, row, WithMember(row.graph, m)).value)
  {
    hide AdvanceMode, LateAbort, Reachable, Merge;
    var g := WithMember(row.graph, m);
    LateAbortBatch(c, g);
    TaskChildAt(row, i);
    UnpinOnlyRecorded(row, m.id);
    var (next, batch) := AdvanceMode(c, g).value;
    var k, full := UnpinId(row.graph, m.id), batch + ReplacementCompletionIntents(next);
    if k in Merge(row.intents, full) { MergeOrigin(row.intents, full, k); }
    var n := TaskIndex(m.id);
    assert next.children[n].id == m.id && m.id in next.members;
  }

  lemma TaskChildAt(row: Row, i: nat)
    requires Reachable(row) && i < |row.graph.plan| && row.graph.plan[i].kind.TaskNode?
    ensures TaskIndex(row.graph.plan[i].id) < |row.graph.children| &&
            row.graph.children[TaskIndex(row.graph.plan[i].id)].id == row.graph.plan[i].id
  {
    FindTaskChild(row.graph, i);
  }

  lemma UnpinOnlyRecorded(row: Row, id: Id)
    requires Reachable(row)
    ensures UnpinId(row.graph, id) in row.intents ==> id in row.graph.members
  {
    var k := UnpinId(row.graph, id);
    if k in row.intents { assert IntentOk(row.graph, k, row.intents[k]); }
  }

  lemma LateAbortBatch(c: Client, g: Graph)
    requires g.kind.Dag? && LateAbort(c, g) && AdvanceMode(c, g).Ok?
    ensures var (next, batch) := AdvanceMode(c, g).value;
            (forall x | x in batch :: x.id.Stable? && x.id.tag.DispatchLabel?) &&
            next.state.Terminal() && next.id == g.id && next.children == g.children &&
            next.members.Keys == g.members.Keys
  {
    hide AbortNodes;
    AbortKeepsNoUnpin(if g.abortFailure.Some? &&
    !g.cancelRequested then g else g.(abortFailure := Some(BudgetExceeded)));
  }

  /** An unfinished abort of a settled graph releases nothing. */
  lemma AbortKeepsNoUnpin(g: Graph)
    requires g.kind.Dag? && g.abortFailure.Some? && AdvanceAbortedSpec(g).Ok? && !Finished(g)
    ensures var (next, batch) := AdvanceAbortedSpec(g).value;
            (forall x | x in batch :: x.payload.Fail? && x.id.Stable? && x.id.tag.DispatchLabel?) &&
            next.state == g.state && next.id == g.id && next.children == g.children &&
            next.members.Keys == g.members.Keys
  {
    var cleared := g.(members := ClearOutputs(g.members), output := None);
    AbortNodesKeeps(cleared, [], 0);
    AbortNodesKeepRest(cleared, [], 0);
    AbortDispatchKeys(cleared, [], 0);
    SameFinished(g, cleared, AbortNodes(cleared, [], 0).value.0);
  }

  lemma {:induction false} AbortDispatchKeys(g: Graph, intents: seq<Intent>, i: nat)
    requires i <= |g.plan| && AbortNodes(g, intents, i).Ok?
    ensures forall x | x in AbortNodes(g, intents, i).value.1 ::
              x in intents || (x.id.Stable? && x.id.tag.DispatchLabel?)
    decreases |g.plan| - i
  {
    if i < |g.plan| {
      var node := g.plan[i];
      if node.kind.CollectNode? || node.id in g.members || node.dispatched {
        AbortDispatchKeys(g, intents, i + 1);
      } else {
        var index := FindChild(g.children, node.id);
        AbortDispatchKeys(MarkDispatched(g, i),
          intents + [FailIntent(g.id, g.children[index.value], g.abortFailure, Some(Failed))], i + 1);
      }
    }
  }

  /** A cancellation that takes effect releases everything it settles. */
  lemma CancelReleases(c: Client, row: Row)
    requires Reachable(row) && !row.graph.state.Terminal()
    ensures UnpinsComplete(StepRow(c, row, CancelRequested))
  {
    CancelIsStore(c, row);
    hide Reachable, Store, StepRow, UnpinsComplete;
    StoredUnpins(c, row, row.graph.(cancelRequested := true));
  }

  lemma CancelIsStore(c: Client, row: Row)
    requires Reachable(row) && !row.graph.state.Terminal()
    ensures var g := row.graph.(cancelRequested := true);
            g.kind.Dag? && Store(c, row, g).Ok? && StepRow(c, row, CancelRequested) == Store(c, row, g).value
  {
    assert row.graph.kind.Dag?;
    var g := row.graph.(cancelRequested := true);
    CoreFrame(row.graph, g, row.intents);
    hide Core, AdvanceSpec, Live, Merge;
    AdvanceKeepsInvariant(c, g, row.intents);
  }

  /** Whether the last step of a run that took effect was a late abort; `late` speaks of the steps
      before the run. */
  predicate EndsLate(c: Client, row: Row, events: seq<Event>, late: bool)
    decreases |events|
  {
    if events == [] then late
    else
      EndsLate(c, StepRow(c, row, events[0]), events[1..],
        match events[0]
        case Completed(m) => if m.id in row.graph.members then late else LateAbort(c, WithMember(row.graph, m))
        case CancelRequested => late && row.graph.state.Terminal())
  }

  /** Pin completeness over runs: a settled DAG has released every task it recorded, unless the last
      step that took effect was a late abort. */
  lemma {:induction false} PinsOverRuns(c: Client, w: World, row: Row, events: seq<Event>, late: bool)
    requires Reachable(row) && DagRuns.Run(c, w, row, events) && (UnpinsComplete(row) <==> !late)
    ensures UnpinsComplete(End(c, row, events)) <==> !EndsLate(c, row, events, late)
    decreases |events|
  {
    if events != [] {
      StepProgresses(c, row, events[0]);
      StepLate(c, row, events[0], late);
      hide Reachable, UnpinsComplete, StepRow, LateAbort, Legit, Faithful;
      PinsOverRuns(c, w, StepRow(c, row, events[0]), events[1..],
        match events[0]
        case Completed(m) => if m.id in row.graph.members then late else LateAbort(c, WithMember(row.graph, m))
        case CancelRequested => late && row.graph.state.Terminal());
    }
  }

  lemma StepLate(c: Client, row: Row, e: Event, late: bool)
    requires Reachable(row) && Legit(row, e) && (UnpinsComplete(row) <==> !late)
    ensures UnpinsComplete(StepRow(c, row, e)) <==>
            !(match e
              case Completed(m) => if m.id in row.graph.members then late else LateAbort(c, WithMember(row.graph, m))
              case CancelRequested => late && row.graph.state.Terminal())
  {
    match e
    case CancelRequested => if !row.graph.state.Terminal() { hide Reachable, UnpinsComplete; CancelReleases(c, row); }
    case Completed(m) => if m.id !in row.graph.members { hide Reachable, UnpinsComplete; PinCompleteness(c, row, m); }
  }

  /** A new graph starts complete. */
  lemma CreatedComplete(c: Client, g: Graph)
    requires Initial(g) && CreateSpec(c, g).Ok?
    ensures UnpinsComplete(CreateSpec(c, g).value)
  {
    hide AdvanceMode, Merge;
    var (next, batch) := AdvanceMode(c, g).value;
    if next.state.Terminal() {
      SettlingListsUnpins(c, g);
      ListedUnpins(next, map[], batch + ReplacementCompletionIntents(next));
    }
  }

  /** Nothing is pinned for good: when the last task is recorded, everything is released. */
  lemma AllReportedReleasesAll(c: Client, row: Row, m: Completion)
    requires Reachable(row) && Legit(row, Completed(m)) && m.id !in row.graph.members &&
             Finished(WithMember(row.graph, m))
    ensures UnpinsComplete(StepRow(c, row, Completed(m)))
  {
    PinCompleteness(c, row, m);
  }

  /** An unpin is stored only for a recorded task of a settled graph. */
  lemma UnpinNeedsSettledGraph(row: Row, k: Id)
    requires Reachable(row) && k in row.intents && row.intents[k].payload.Unpin?
    ensures row.graph.state.Terminal() && row.intents[k].payload.target in row.graph.members
  {
    assert IntentOk(row.graph, k, row.intents[k]);
  }

  // ---- progress ----

  /** The tasks that have not reported yet. */
  function Outstanding(g: Graph): set<nat> { set n | 0 <= n < |g.children| && g.children[n].id !in g.members }

  predicate Effective(row: Row, e: Event) { e.Completed? && e.m.id !in row.graph.members }

  function EffectiveCount(c: Client, row: Row, events: seq<Event>): nat
    decreases |events|
  {
    if events == [] then 0
    else (if Effective(row, events[0]) then 1 else 0) + EffectiveCount(c, StepRow(c, row, events[0]), events[1..])
  }

  lemma StepReports(c: Client, row: Row, e: Event)
    requires Reachable(row) && Legit(row, e)
    ensures |Outstanding(StepRow(c, row, e).graph)| + (if Effective(row, e) then 1 else 0) <= |Outstanding(row.graph)|
  {
    StepShrinks(c, row, e);
    hide Reachable, Legit, StepRow, Outstanding;
    var g, g' := row.graph, StepRow(c, row, e).graph;
    SubsetSize(Outstanding(g'), Outstanding(g));
    if Effective(row, e) {
      var n := ReportedChild(c, row, e.m);
      SubsetSize(Outstanding(g'), Outstanding(g) - {n});
    }
  }

  lemma StepShrinks(c: Client, row: Row, e: Event)
    requires Reachable(row) && Legit(row, e)
    ensures Outstanding(StepRow(c, row, e).graph) <= Outstanding(row.graph)
  {
    StepProgresses(c, row, e);
    hide Reachable, Legit, StepRow;
  }

  lemma ReportedChild(c: Client, row: Row, m: Completion) returns (n: nat)
    requires Reachable(row) && Legit(row, Completed(m)) && m.id !in row.graph.members
    ensures n in Outstanding(row.graph) && n !in Outstanding(StepRow(c, row, Completed(m)).graph)
  {
    RecordedAfterStep(c, row, m);
    StepProgresses(c, row, Completed(m));
    var i := HandedOutDispatched(row.graph, row.intents, m.id);
    FindTaskChild(row.graph, i);
    n := TaskIndex(m.id);
    hide Reachable, Legit, StepRow, Core;
  }

  lemma RecordedAfterStep(c: Client, row: Row, m: Completion)
    requires Reachable(row) && Legit(row, Completed(m)) && m.id !in row.graph.members
    ensures m.id in StepRow(c, row, Completed(m)).graph.members
  {
    var i := HandedOutDispatched(row.graph, row.intents, m.id);
    var g := WithMember(row.graph, m);
    RecordKeepsCore(row.graph, row.intents, i, m);
    hide Core, Merge, AdvanceSpec, Live;
    AdvanceKeepsInvariant(c, g, row.intents);
  }

  /** At most one effective completion per task, over any run; a workflow all of whose tasks
      reported is settled. */
  lemma {:induction false} CompletionsAreBounded(c: Client, w: World, row: Row, events: seq<Event>)
    requires Reachable(row) && DagRuns.Run(c, w, row, events)
    ensures EffectiveCount(c, row, events) + |Outstanding(End(c, row, events).graph)| <= |Outstanding(row.graph)|
    decreases |events|
  {
    hide Reachable, StepRow, Legit, Faithful, Outstanding;
    if events != [] {
      StepProgresses(c, row, events[0]);
      StepReports(c, row, events[0]);
      CompletionsAreBounded(c, w, StepRow(c, row, events[0]), events[1..]);
    }
  }

  lemma AllReportedIsSettled(row: Row)
    requires Reachable(row)
    ensures Outstanding(row.graph) == {} ==> row.graph.state.Terminal()
  {
    var g := row.graph;
    if !g.state.Terminal() {
      var i :| 0 <= i < |g.plan| && g.plan[i].kind.TaskNode? && g.plan[i].dispatched && g.plan[i].id !in g.members;
      FindTaskChild(g, i);
      assert TaskIndex(g.plan[i].id) in Outstanding(g);
    }
  }

  /** Progress is bounded: a run in which every outstanding task reported once has settled the DAG, in
      whatever mode it is. */
  lemma EnoughReportsSettle(c: Client, w: World, row: Row, events: seq<Event>)
    requires Reachable(row) && DagRuns.Run(c, w, row, events) &&
             EffectiveCount(c, row, events) >= |Outstanding(row.graph)|
    ensures End(c, row, events).graph.state.Terminal()
  {
    hide Reachable, DagRuns.Run, End, EffectiveCount, Outstanding;
    CompletionsAreBounded(c, w, row, events);
    RunsStayReachable(c, w, row, events);
    AllReportedIsSettled(End(c, row, events));
  }

  // ---- replacement graphs report ----

  /** A settled replacement graph has stored the report to the task it replaced. */
  predicate ReportsOrigin(row: Row) {
    row.graph.originTask.Some? && row.graph.state.Terminal() ==>
      Stable(row.graph.id, ReplacementCompletionLabel) in row.intents
  }

  lemma AdvanceReports(c: Client, g: Graph, s: Intents)
    requires AdvanceSpec(c, g).Ok?
    ensures var (next, batch) := AdvanceSpec(c, g).value; ReportsOrigin(Row(next, Merge(s, batch)))
  {
    var (next, batch) := AdvanceSpec(c, g).value;
    hide AdvanceMode, Merge;
    if next.originTask.Some? && next.state.Terminal() { MergeHas(s, batch, |batch| - 1); }
  }

  lemma StepReportsOrigin(c: Client, row: Row, e: Event)
    requires ReportsOrigin(row)
    ensures ReportsOrigin(StepRow(c, row, e))
  {
    var g := if e.Completed? then row.graph.(members := row.graph.members[e.m.id := e.m])
             else row.graph.(cancelRequested := true);
    if StepRow(c, row, e) != row {
      hide AdvanceSpec, Merge;
      AdvanceReports(c, g, row.intents);
    }
  }
}
