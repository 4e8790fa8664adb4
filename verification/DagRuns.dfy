/** Whole runs of one compiled workflow: any order of completions with duplicates, cancellation
    at any point, budget aborts, all through the store operations. */
module DagRuns {
  import opened Protocol
  import opened Compiler
  import opened Meaning
  import opened Plans
  import opened Preservation
  import opened Nested
  import opened Engine
  import opened IntentHash
  import opened WorkflowStore
  import opened DagInvariant
  import opened DagAdvance
  import opened DagMeaning

  datatype Event = Completed(m: Completion) | CancelRequested

  /** One store operation. A refused operation writes nothing. */
  function StepRow(c: Client, row: Row, e: Event): Row {
    var r := match e
      case Completed(m) => RecordMemberSpec(c, row, m)
      case CancelRequested => CancelGraphSpec(c, row);
    if r.Ok? then r.value else row
  }

  /** Completions come only from tasks that were durably handed out. */
  predicate Legit(row: Row, e: Event) {
    e.Completed? ==>
      IsTask(row.graph, e.m.id) && HandedOut(row.graph, row.intents, e.m.id) && e.m.outcome.state.Terminal()
  }

  /** While the workflow is normal they report what the world makes of the stored dispatch intent. */
  predicate Allowed(w: World, row: Row, e: Event) {
    Legit(row, e) && (e.Completed? && Normal(row.graph) ==> Faithful(w, row.graph, row.intents, e.m))
  }

  predicate Run(c: Client, w: World, row: Row, events: seq<Event>)
    decreases |events|
  {
    events == [] || (Allowed(w, row, events[0]) && Run(c, w, StepRow(c, row, events[0]), events[1..]))
  }

  function End(c: Client, row: Row, events: seq<Event>): Row
    decreases |events|
  {
    if events == [] then row else End(c, StepRow(c, row, events[0]), events[1..])
  }

  /** A compiled graph as it is handed to the first advance; a replacement graph may be cancelled already. */
  predicate Initial(g: Graph) {
    Static(g) && (forall i | 0 <= i < |g.plan| :: FreshNode(g, i)) &&
    g.members == map[] && g.state == Running && g.abortFailure.None?
  }

  predicate Reachable(row: Row) { Core(row.graph, row.intents) && Live(row.graph) }

  ghost predicate Agrees(c: Client, w: World, g0: Graph, row: Row) {
    SameShape(g0, row.graph) &&
    (Normal(row.graph) ==> Means(c, w, g0, row.graph, row.intents) && RootSettled(row.graph))
  }

  lemma InitialCore(g: Graph)
    requires Initial(g)
    ensures Core(g, map[])
  {
    forall i | 0 <= i < |g.plan| ensures NodeInv(g, map[], i) { assert FreshNode(g, i); }
  }

  lemma InitialMeans(c: Client, w: World, g: Graph)
    requires Initial(g)
    ensures Means(c, w, g, g, map[]) && RootSettled(g)
  {
    forall i | 0 <= i < |g.plan| ensures NodeMeans(c, w, g, g, map[], i) { assert FreshNode(g, i); }
  }

  /** The first row of a graph, possibly of an already cancelled replacement, is reachable. */
  lemma CreateIsReachable(c: Client, g: Graph)
    requires Initial(g)
    ensures CreateSpec(c, g).Ok? && Reachable(CreateSpec(c, g).value) && SameShape(g, CreateSpec(c, g).value.graph)
    ensures CreateSpec(c, g).value.graph.cancelRequested == g.cancelRequested
  {
    InitialCore(g);
    hide Static, Core, Live;
    AdvanceKeepsInvariant(c, g, map[]);
  }

  lemma CreateReachable(c: Client, w: World, g: Graph)
    requires Initial(g) && WorldOf(c, w, g)
    ensures CreateSpec(c, g).Ok? && Reachable(CreateSpec(c, g).value) && Agrees(c, w, g, CreateSpec(c, g).value)
  {
    InitialCore(g);
    hide Static, Core, Means, Live;
    AdvanceKeepsInvariant(c, g, map[]);
    var row := CreateSpec(c, g).value;
    if Normal(row.graph) {
      InitialMeans(c, w, g);
      NormalBefore(c, g, map[]);
      StaticPlan(g);
      AdvanceKeepsMeaning(c, w, g, g, map[]);
    }
  }

  lemma StaticPlan(g: Graph)
    requires Static(g)
    ensures PlanOk(g)
  {
  }

  /** The normal mode is never re-entered. */
  lemma NormalBefore(c: Client, g: Graph, s: Intents)
    requires Core(g, s) && AdvanceSpec(c, g).Ok? && Normal(AdvanceSpec(c, g).value.0)
    ensures Normal(g)
  {
    assert g.kind.Dag?;
    AdvanceKeepsInvariant(c, g, s);
    hide Core, Live, AdvanceGraphSpec;
    AbortStaysAborted(c, g);
    if g.abortFailure.Some? && !g.cancelRequested {
      GraphKeepsAbort(c, g);
      assert false;
    }
    if g.abortFailure.Some? { GraphKeepsAbort(c, g); }
  }

  lemma GraphKeepsAbort(c: Client, g: Graph)
    requires g.kind.Dag? && AdvanceGraphSpec(c, g).Ok?
    ensures AdvanceGraphSpec(c, g).value.0.abortFailure == g.abortFailure
  {
    hide Turns, CancelFrom, UnpinsOf, GraphUnpins, ArgumentBytes;
    if !g.state.Terminal() {
      if g.cancelRequested { CancelKeepsAbort(g, [], 0); }
      var (g1, intents) := NestedStart(g).value;
      TurnsExtend(c, Sweep(g1, intents, ArgumentBytes(c, g1.children), false), |g1.plan| + 1);
    }
  }

  lemma {:induction false} CancelKeepsAbort(g: Graph, intents: seq<Intent>, i: nat)
    requires i <= |g.plan| && CancelFrom(g, intents, i).Ok?
    ensures CancelFrom(g, intents, i).value.0.abortFailure == g.abortFailure
    decreases |g.plan| - i
  {
    if i < |g.plan| {
      var node := g.plan[i];
      if node.kind.CollectNode? || node.id in g.members {
        CancelKeepsAbort(g, intents, i + 1);
      } else {
        var e := g.children[FindChild(g.children, node.id).value];
        CancelKeepsAbort(MarkDispatched(g, i), intents + [CancellationIntent(g.id, e, node.dispatched)], i + 1);
      }
    }
  }

  /** A handed-out task is marked in the plan, so its completion is expected. */
  lemma HandedOutDispatched(g: Graph, s: Intents, id: Id) returns (i: nat)
    requires Core(g, s) && IsTask(g, id) && HandedOut(g, s, id)
    ensures i < |g.plan| && g.plan[i].id == id && g.plan[i].kind.TaskNode? && g.plan[i].dispatched && Expected(g, id)
  {
    i :| 0 <= i < |g.plan| && g.plan[i].kind.TaskNode? && g.plan[i].id == id;
    assert NodeInv(g, s, i);
    FindTaskChild(g, i);
    assert g.children[TaskIndex(id)].id == id;
  }

  lemma RevisionFrame(g: Graph, r: nat, s: Intents)
    requires Core(g, s)
    ensures Core(g.(revision := r), s) && SameShape(g, g.(revision := r))
  {
    hide PlanOk, AllLeadToRoot, NodesInv, IntentsOk, MembersOk;
    CoreFrame(g, g.(revision := r), s);
  }

  /** What an effective operation leaves behind: still reachable, nothing recorded or stored is lost. */
  predicate Progressed(row: Row, row': Row) {
    Reachable(row') && SameShape(row.graph, row'.graph) && MembersKept(row.graph.members, row'.graph.members) &&
    (row.graph.state.Terminal() ==> row'.graph.state.Terminal()) &&
    (row.graph.cancelRequested ==> row'.graph.cancelRequested) &&
    row.intents.Keys <= row'.intents.Keys && forall k | k in row.intents :: row'.intents[k] == row.intents[k]
  }

  lemma StoreProgresses(c: Client, row: Row, g: Graph)
    requires Core(g, row.intents) && SameShape(row.graph, g) && MembersKept(row.graph.members, g.members)
    requires (row.graph.state.Terminal() ==> g.state.Terminal()) && (row.graph.cancelRequested ==> g.cancelRequested)
    ensures Store(c, row, g).Ok? && Progressed(row, Store(c, row, g).value)
  {
    hide Core, Merge, AdvanceSpec, Live;
    AdvanceKeepsInvariant(c, g, row.intents);
    var (next, batch) := AdvanceSpec(c, g).value;
    RevisionFrame(next, row.graph.revision + 1, Merge(row.intents, batch));
    LiveFrame(next, row.graph.revision + 1);
    SameShapeTrans(row.graph, g, next);
    SameShapeTrans(row.graph, next, next.(revision := row.graph.revision + 1));
    forall k | k in row.intents
      ensures k in Merge(row.intents, batch) && Merge(row.intents, batch)[k] == row.intents[k]
    {
      MergeKeeps(row.intents, batch, k);
    }
  }

  lemma LiveFrame(g: Graph, r: nat)
    requires Live(g)
    ensures Live(g.(revision := r))
  {
    var g' := g.(revision := r);
    if !g.state.Terminal() {
      var i :| 0 <= i < |g.plan| && g.plan[i].kind.TaskNode? && g.plan[i].dispatched && g.plan[i].id !in g.members;
      assert g'.plan[i].dispatched;
    }
  }

  lemma StepProgresses(c: Client, row: Row, e: Event)
    requires Reachable(row) && Legit(row, e)
    ensures Progressed(row, StepRow(c, row, e))
  {
    hide PlanOk, AllLeadToRoot, NodesInv, IntentsOk, MembersOk, Live, Store;
    match e
    case CancelRequested =>
      if !row.graph.state.Terminal() {
        var g := row.graph.(cancelRequested := true);
        CoreFrame(row.graph, g, row.intents);
        StoreProgresses(c, row, g);
      }
    case Completed(m) =>
      if m.id !in row.graph.members {
        var i := HandedOutDispatched(row.graph, row.intents, m.id);
        RecordKeepsCore(row.graph, row.intents, i, m);
        StoreProgresses(c, row, WithMember(row.graph, m));
      }
  }

  lemma StepAgrees(c: Client, w: World, g0: Graph, row: Row, e: Event)
    requires PlanOk(g0) && WorldOf(c, w, g0) && Reachable(row) && Agrees(c, w, g0, row) && Allowed(w, row, e)
    ensures Agrees(c, w, g0, StepRow(c, row, e))
  {
    StepProgresses(c, row, e);
    var row' := StepRow(c, row, e);
    assert SameShape(row.graph, row'.graph) && SameShape(g0, row.graph);
    hide PlanOk, Reachable, Means, RootSettled, WorldOf, Store, Progressed, Allowed, SameShape;
    SameShapeTrans(g0, row.graph, row'.graph);
    if Normal(row'.graph) && row' != row {
      match e
      case CancelRequested => CancelIsNotNormal(c, row);
      case Completed(m) => CompletedAgrees(c, w, g0, row, m);
    }
  }

  lemma CancelIsNotNormal(c: Client, row: Row)
    requires Reachable(row) && CancelGraphSpec(c, row).Ok? && CancelGraphSpec(c, row).value != row
    ensures !Normal(CancelGraphSpec(c, row).value.graph)
  {
    var g := row.graph.(cancelRequested := true);
    hide PlanOk, AllLeadToRoot, NodesInv, IntentsOk, MembersOk, Live, Merge, AdvanceSpec;
    CoreFrame(row.graph, g, row.intents);
    AdvanceKeepsInvariant(c, g, row.intents);
  }

  lemma CompletedAgrees(c: Client, w: World, g0: Graph, row: Row, m: Completion)
    requires PlanOk(g0) && WorldOf(c, w, g0) && Reachable(row) && Agrees(c, w, g0, row) && Allowed(w, row, Completed(m))
    requires m.id !in row.graph.members && Normal(StepRow(c, row, Completed(m)).graph)
    ensures Agrees(c, w, g0, StepRow(c, row, Completed(m)))
  {
    hide PlanOk, AllLeadToRoot, NodesInv, IntentsOk, MembersOk, Live, Means, Merge, WorldOf, AdvanceSpec, Faithful;
    var g := WithMember(row.graph, m);
    var i := HandedOutDispatched(row.graph, row.intents, m.id);
    RecordKeepsCore(row.graph, row.intents, i, m);
    AdvanceKeepsInvariant(c, g, row.intents);
    var (next, batch) := AdvanceSpec(c, g).value;
    assert StepRow(c, row, Completed(m)) == Row(next.(revision := row.graph.revision + 1), Merge(row.intents, batch));
    NormalBefore(c, g, row.intents);
    SettlementIsVal(c, w, g0, row.graph, row.intents, i, m);
    OnlyTheTask(row.graph, i, m.id);
    RecordKeepsMeaning(c, w, g0, row.graph, row.intents, m);
    RootUnsettled(row.graph, m);
    AdvanceKeepsMeaning(c, w, g0, g, row.intents);
    MeansShape(c, w, g0, next, Merge(row.intents, batch));
    MergeEmpty(Merge(row.intents, batch));
    MeaningFrame(c, w, g0, next, next.(revision := row.graph.revision + 1), Merge(row.intents, batch), []);
  }

  lemma OnlyTheTask(g: Graph, i: nat, id: Id)
    requires PlanOk(g) && i < |g.plan| && g.plan[i].id == id && g.plan[i].kind.TaskNode?
    ensures forall j | 0 <= j < |g.plan| && g.plan[j].id == id && g.plan[j].kind.CollectNode? ::
              Ready(g.plan[j], g.members)
  {
    PlanOkDistinct(g);
  }

  lemma RootUnsettled(g: Graph, m: Completion)
    requires RootSettled(g) && m.id !in g.members
    ensures RootSettled(WithMember(g, m))
  {
  }

  // ---- main results ----

  /** Every row of every run satisfies the stored invariant, and nothing recorded or stored is lost. */
  lemma {:induction false} RunsStayReachable(c: Client, w: World, row: Row, events: seq<Event>)
    requires Reachable(row) && Run(c, w, row, events)
    ensures Progressed(row, End(c, row, events))
    decreases |events|
  {
    hide Reachable, StepRow, Legit, Faithful;
    if events != [] {
      var next := StepRow(c, row, events[0]);
      StepProgresses(c, row, events[0]);
      RunsStayReachable(c, w, next, events[1..]);
      SameShapeTrans(row.graph, next.graph, End(c, row, events).graph);
    } else {
      SameShapeRefl(row.graph);
    }
  }

  lemma SameShapeRefl(g: Graph)
    ensures SameShape(g, g)
  {
  }

  lemma {:induction false} RunsAgree(c: Client, w: World, g0: Graph, row: Row, events: seq<Event>)
    requires PlanOk(g0) && WorldOf(c, w, g0) && Reachable(row) && Agrees(c, w, g0, row) && Run(c, w, row, events)
    ensures Agrees(c, w, g0, End(c, row, events))
    decreases |events|
  {
    hide PlanOk, WorldOf, Reachable, Agrees, StepRow, Legit, Faithful;
    if events != [] {
      StepProgresses(c, row, events[0]);
      StepAgrees(c, w, g0, row, events[0]);
      RunsAgree(c, w, g0, StepRow(c, row, events[0]), events[1..]);
    }
  }

  lemma PlanBound(g: Graph)
    requires PlanOk(g)
    ensures |g.children| <= 1000
  {
  }

  lemma CompiledIsInitial(c: Client, id: Id, canvas: Canvas)
    requires CompileGraph(c, id, canvas).Ok? && |CompileGraph(c, id, canvas).value.plan| <= 2000
    ensures Initial(CompileGraph(c, id, canvas).value)
  {
    hide CompileGraph, PlanOk, AllLeadToRoot, Mean, Denote, Initial, FreshNode, TaskCount;
    var w := World((k, a) => Failing(WorkflowInput), (k, a) => false, false);
    CompilationPreservesMeaning(c, w, id, canvas);
    FreshIsInitial(CompileGraph(c, id, canvas).value);
  }

  lemma FreshIsInitial(g: Graph)
    requires PlanOk(g) && AllLeadToRoot(g) && (forall i | 0 <= i < |g.plan| :: FreshNode(g, i)) && |g.plan| <= 2000
    requires g.kind.Dag? && g.callbackId.None? && !g.callbackClaimed && g.members == map[] && g.state == Running &&
             g.abortFailure.None?
    ensures Initial(g)
  {
    PlanBound(g);
    hide PlanOk, AllLeadToRoot;
    assert MatchedPlan(g) by { forall i | 0 <= i < |g.plan| ensures MatchedNode(g, i) { assert FreshNode(g, i); } }
  }

  /** Semantics preservation. For every canvas that compiles to an accepted graph, every world and
      every order of completions, with duplicates: when the graph is settled and neither was
      cancelled nor exceeded its budget, its state, output and failure are the canvas's meaning. */
  lemma WorkflowComputesMeaning(c: Client, w: World, id: Id, canvas: Canvas, events: seq<Event>)
    requires CompileGraph(c, id, canvas).Ok? && |CompileGraph(c, id, canvas).value.plan| <= 2000
    requires WorldOf(c, w, CompileGraph(c, id, canvas).value)
    requires CreateSpec(c, CompileGraph(c, id, canvas).value).Ok?
    requires Run(c, w, CreateSpec(c, CompileGraph(c, id, canvas).value).value, events)
    ensures var g := End(c, CreateSpec(c, CompileGraph(c, id, canvas).value).value, events).graph;
            Normal(g) && g.state.Terminal() ==> Outcome(g.state, g.output, g.failure) == Mean(c, w, canvas, None, 0)
  {
    var g0 := CompileGraph(c, id, canvas).value;
    CompilationPreservesMeaning(c, w, id, canvas);
    CompiledIsInitial(c, id, canvas);
    hide PlanOk, WorldOf, Reachable, Initial, Run, End, CreateSpec, CompileGraph, MembersOk, Mean, AllLeadToRoot,
           Denote;
    CreateReachable(c, w, g0);
    var row := CreateSpec(c, g0).value;
    RunsAgree(c, w, g0, row, events);
  }

  lemma UnsettledHasTask(row: Row)
    requires Reachable(row) && !row.graph.state.Terminal()
    ensures exists id ::
              IsTask(row.graph, id) && HandedOut(row.graph, row.intents, id) && id !in row.graph.members
  {
    var g := row.graph;
    var i :| 0 <= i < |g.plan| && g.plan[i].kind.TaskNode? && g.plan[i].dispatched && g.plan[i].id !in g.members;
    assert NodeInv(g, row.intents, i);
    assert IsTask(g, g.plan[i].id);
  }

  /** No stuck workflow: an unsettled graph waits for a task that was handed out. */
  lemma UnsettledWaitsForTask(c: Client, w: World, row: Row, events: seq<Event>)
    requires Reachable(row) && Run(c, w, row, events)
    ensures var last := End(c, row, events);
            !last.graph.state.Terminal() ==>
              exists id ::
                IsTask(last.graph, id) && HandedOut(last.graph, last.intents, id) && id !in last.graph.members
  {
    RunsStayReachable(c, w, row, events);
    var last := End(c, row, events);
    if !last.graph.state.Terminal() { UnsettledHasTask(last); }
  }

  /** Dispatch safety, in every mode: one publishing intent per task, none for a task that was
      failed before dispatch, and none before its prerequisites succeeded. */
  lemma DispatchSafety(row: Row, k1: Id, k2: Id)
    requires Reachable(row) && k1 in row.intents && row.intents[k1].payload.Publish? && k2 in row.intents
    ensures row.intents[k2].payload.Publish? ==>
              row.intents[k2].payload.envelope.id == row.intents[k1].payload.envelope.id ==> k1 == k2
    ensures row.intents[k2].payload.Fail? ==> row.intents[k2].payload.envelope.id != row.intents[k1].payload.envelope.id
    ensures exists i | 0 <= i < |row.graph.plan| ::
              row.graph.plan[i].id == row.intents[k1].payload.envelope.id &&
              AllSucceeded(Prereqs(row.graph.plan[i]), row.graph.members)
  {
    var g, s := row.graph, row.intents;
    assert IntentOk(g, k1, s[k1]) && IntentOk(g, k2, s[k2]);
    var id := s[k1].payload.envelope.id;
    var i :| 0 <= i < |g.plan| && g.plan[i].kind.TaskNode? && g.plan[i].id == id;
    assert NodeInv(g, s, i);
  }
}
