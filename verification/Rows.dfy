/** Both kinds of workflow rows seen alike: what a stored row guarantees to the rest of the system,
    and what never goes away when it steps. */
module Rows {
  import opened Protocol
  import opened Plans
  import opened Engine
  import opened IntentHash
  import opened WorkflowStore
  import opened Flat
  import opened DagInvariant
  import opened DagAdvance
  import opened DagRuns
  import opened FlatInvariant
  import opened FlatAdvance
  import opened FlatRuns
  import opened Pins

  predicate RowOk(c: Client, row: Row) {
    (row.graph.kind.Dag? ==> Reachable(row)) && (!row.graph.kind.Dag? ==> FlatReachable(c, row)) && ReportsOrigin(row)
  }

  /** The workflow a derived task identity belongs to. */
  function TaskOf(id: Id): Option<Id> {
    match id
    case Stable(parent, TaskLabel(_)) => Some(parent)
    case Stable(parent, ChildLabel(_)) => Some(parent)
    case Stable(parent, BodyLabel) => Some(parent)
    case _ => None
  }

  predicate RowTask(row: Row,
      id: Id) { if row.graph.kind.Dag? then IsTask(row.graph, id) else IsFlatTask(row.graph, id) }

  predicate Out(row: Row, id: Id) { RowTask(row, id) && HandedOut(row.graph, row.intents, id) }

  predicate LegitRow(row: Row, e: Event) {
    e.Completed? ==> Out(row, e.m.id) && e.m.outcome.state.Terminal()
  }

  /** What survives every step of a row. */
  ghost predicate RowGrows(a: Row, b: Row) {
    b.graph.id == a.graph.id && b.graph.kind == a.graph.kind && b.graph.originTask == a.graph.originTask &&
    b.graph.scope == a.graph.scope &&
    (forall id :: RowTask(a, id) ==> RowTask(b, id)) &&
    (forall k | k in a.intents :: k in b.intents && b.intents[k] == a.intents[k]) &&
    MembersKept(a.graph.members, b.graph.members) &&
    (a.graph.state.Terminal() ==> b.graph.state.Terminal()) && (a.graph.cancelRequested ==> b.graph.cancelRequested)
  }

  lemma GrowsOut(a: Row, b: Row, id: Id)
    requires RowGrows(a, b) && Out(a, id)
    ensures Out(b, id)
  {
  }

  lemma RowTaskOf(c: Client, row: Row, id: Id)
    requires RowOk(c, row) && RowTask(row, id)
    ensures TaskOf(id) == Some(row.graph.id)
  {
    var g := row.graph;
    if g.kind.Dag? {
      var i :| 0 <= i < |g.plan| && g.plan[i].kind.TaskNode? && g.plan[i].id == id;
      assert NodeShape(g, i);
    }
  }

  lemma OutOfRow(c: Client, row: Row, id: Id)
    requires RowOk(c, row) && Out(row, id)
    ensures TaskOf(id) == Some(row.graph.id)
  {
    hide RowOk, RowTask;
    RowTaskOf(c, row, id);
  }

  /** No stuck row of either kind. */
  lemma UnsettledRowHasTask(c: Client, row: Row)
    requires RowOk(c, row) && !row.graph.state.Terminal()
    ensures exists id :: Out(row, id) && id !in row.graph.members
  {
    var g := row.graph;
    if g.kind.Dag? {
      UnsettledHasTask(row);
      var id :| IsTask(g, id) && HandedOut(g, row.intents, id) && id !in g.members;
      assert Out(row, id);
    } else {
      FlatUnsettledHasTask(c, row);
      var id :| IsFlatTask(g, id) && HandedOut(g, row.intents, id) && id !in g.members;
      assert Out(row, id);
    }
  }

  lemma ExpectedIsTask(c: Client, row: Row, id: Id)
    requires RowOk(c, row) && Expected(row.graph, id)
    ensures RowTask(row, id)
  {
    var g := row.graph;
    if g.kind.Dag? {
      var n :| 0 <= n < |g.children| && g.children[n].id == id;
      assert Planned(g.plan, Compiler.TaskId(g.id, n));
      var i :| 0 <= i < |g.plan| && g.plan[i].id == id;
      assert NodeShape(g, i);
    } else if !(g.callbackClaimed && g.callbackId == Some(id)) {
      var n :| 0 <= n < |g.children| && g.children[n].id == id;
      assert ChildId(g.id, n) == id;
    }
  }

  /** A row's stored intents speak of its own tasks, handed out; releases and reports only of a
      settled graph. */
  predicate RowIntentFact(row: Row, x: Intent) {
    var g := row.graph;
    x.source == g.id &&
    match x.payload
    case Publish(e) => Out(row, e.id) && Owned(g, e) && x.id == DispatchId(g, e.id)
    case Fail(e, _, _) => Out(row, e.id) && Owned(g, e) && (x.id == DispatchId(g, e.id) || x.id == CancelId(g, e.id))
    case CancelTask(e) => Out(row, e.id) && Owned(g, e) && x.id == CancelId(g, e.id)
    case Unpin(t) => g.state.Terminal() && t in g.members && x.id == UnpinId(g, t)
    case CompleteReplacement(w, t, m) =>
      g.state.Terminal() && w == g.id && g.originTask == Some(t) && m.id == t && m.outcome.state.Terminal() &&
      x.id == Stable(g.id, ReplacementCompletionLabel)
    case _ => false
  }

  lemma RowIntents(c: Client, row: Row, k: Id)
    requires RowOk(c, row) && k in row.intents
    ensures RowIntentFact(row, row.intents[k]) && row.intents[k].id == k
  {
    if row.graph.kind.Dag? { DagIntents(row, k); } else { FlatIntents(c, row, k); }
  }

  lemma DagIntents(row: Row, k: Id)
    requires Reachable(row) && k in row.intents
    ensures RowIntentFact(row, row.intents[k]) && row.intents[k].id == k
  {
    var g, s := row.graph, row.intents;
    assert IntentOk(g, k, s[k]);
    if s[k].payload.CancelTask? {
      var id := s[k].payload.envelope.id;
      var i :| 0 <= i < |g.plan| && g.plan[i].kind.TaskNode? && g.plan[i].id == id;
      assert NodeInv(g, s, i);
    }
  }

  lemma FlatIntents(c: Client, row: Row, k: Id)
    requires !row.graph.kind.Dag? && FlatReachable(c, row) && k in row.intents
    ensures RowIntentFact(row, row.intents[k]) && row.intents[k].id == k
  {
    var g, s := row.graph, row.intents;
    assert FlatIntentOk(g, k, s[k]);
    if s[k].payload.CancelTask? {
      var id := s[k].payload.envelope.id;
      if IsChild(g, id) {
        var n :| 0 <= n < |g.children| && ChildId(g.id, n) == id;
        assert ChildInv(g, s, n);
      }
    }
  }

  lemma RowSteps(c: Client, row: Row, e: Event)
    requires RowOk(c, row) && LegitRow(row, e)
    ensures RowOk(c, StepRow(c, row, e)) && RowGrows(row, StepRow(c, row, e))
  {
    hide AdvanceSpec, Store;
    StepReportsOrigin(c, row, e);
    if row.graph.kind.Dag? {
      StepProgresses(c, row, e);
      hide StepRow;
      DagGrows(row, StepRow(c, row, e));
    } else {
      FlatStepProgresses(c, row, e);
      hide StepRow;
      FlatGrows(c, row, StepRow(c, row, e));
    }
  }

  lemma DagGrows(a: Row, b: Row)
    requires a.graph.kind.Dag? && Progressed(a, b)
    ensures RowGrows(a, b) && b.graph.kind.Dag?
  {
    hide Reachable;
    forall id | RowTask(a, id) ensures RowTask(b, id) {
      var i :| 0 <= i < |a.graph.plan| && a.graph.plan[i].kind.TaskNode? && a.graph.plan[i].id == id;
      assert b.graph.plan[i].id == id;
    }
  }

  lemma FlatGrows(c: Client, a: Row, b: Row)
    requires !a.graph.kind.Dag? && FlatProgressed(c, a, b)
    ensures RowGrows(a, b) && !b.graph.kind.Dag?
  {
    hide FlatReachable;
    forall id | RowTask(a, id) ensures RowTask(b, id) {
      if IsChild(a.graph, id) {
        var n :| 0 <= n < |a.graph.children| && ChildId(a.graph.id, n) == id;
        assert ChildId(b.graph.id, n) == id;
      }
    }
  }

  /** A completion that the row takes is recorded, and a cancellation is never forgotten. */
  lemma RowRecords(c: Client, row: Row, m: Completion)
    requires RowOk(c, row) && LegitRow(row, Completed(m))
    ensures RecordMemberSpec(c, row, m).Ok? && m.id in StepRow(c, row, Completed(m)).graph.members
  {
    if m.id !in row.graph.members {
      if row.graph.kind.Dag? {
        EffectiveIsStore(c, row, m);
        RecordedAfterStep(c, row, m);
      } else {
        FlatExpected(c, row.graph, row.intents, m.id);
        FlatRecordKeepsCore(c, row.graph, row.intents, m);
        hide FlatCore, AdvanceSpec, FlatLive, Merge;
        FlatAdvanceKeepsInvariant(c, WithMember(row.graph, m), row.intents);
      }
    }
  }

  lemma RowCancels(c: Client, row: Row)
    requires RowOk(c, row)
    ensures CancelGraphSpec(c, row).Ok? &&
            (CancelGraphSpec(c, row).value.graph.cancelRequested ||
            CancelGraphSpec(c, row).value.graph.state.Terminal())
  {
    if !row.graph.state.Terminal() {
      var g := row.graph.(cancelRequested := true);
      if g.kind.Dag? {
        CancelMarkDag(row.graph, row.intents);
        hide Core, AdvanceSpec, Live, Merge;
        AdvanceKeepsInvariant(c, g, row.intents);
      } else {
        CancelMark(c, row.graph, row.intents);
        hide FlatCore, AdvanceSpec, FlatLive, Merge;
        FlatAdvanceKeepsInvariant(c, g, row.intents);
      }
    }
  }

  lemma CancelMarkDag(g: Graph, s: Intents)
    requires Core(g, s)
    ensures Core(g.(cancelRequested := true), s)
  {
    hide PlanOk, AllLeadToRoot, NodesInv, IntentsOk, MembersOk;
    CoreFrame(g, g.(cancelRequested := true), s);
  }
}
