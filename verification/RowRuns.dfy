/** Rows of both kinds as runs: what a stored row's history must look like for the meaning theorems
    to apply to it, without saying in advance what the tasks do. */
module RowRuns {
  import opened Protocol
  import opened Meaning
  import opened Plans
  import opened Nested
  import opened Engine
  import opened IntentHash
  import opened WorkflowStore
  import opened DagInvariant
  import opened DagAdvance
  import opened DagMeaning
  import opened DagRuns
  import opened FlatMeaning
  import opened FlatRuns
  import opened Rows
  import Pins
  import RowMembers

  // ---- a step that ends in the normal mode ----

  /** Nothing recorded was changed. */
  predicate Exact(g: Graph, g': Graph) {
    Normal(g) && forall id | id in g.members :: id in g'.members && g'.members[id] == g.members[id]
  }

  lemma DagAdvanceExact(c: Client, g: Graph, s: Intents)
    requires Core(g, s) && AdvanceSpec(c, g).Ok? && Normal(AdvanceSpec(c, g).value.0)
    ensures Exact(g, AdvanceSpec(c, g).value.0)
  {
    NormalBefore(c, g, s);
    assert g.kind.Dag?;
    hide Core, AdvanceNestedSpec, GraphUnpins;
    AbortStaysAborted(c, g);
    if !g.state.Terminal() { NestedExact(c, g); }
  }

  lemma NestedExact(c: Client, g: Graph)
    requires AdvanceNestedSpec(c, g).Ok? && !g.state.Terminal() && Normal(g)
    ensures Exact(g, AdvanceNestedSpec(c, g).value.0)
  {
    RowMembers.NestedShape(c, g);
    hide Turns, ArgumentBytes, UnpinsOf, AdvanceNestedSpec;
    TurnsExtend(c, Sweep(g, [], ArgumentBytes(c, g.children), false), |g.plan| + 1);
  }

  lemma FlatAdvanceExact(c: Client, g: Graph)
    requires !g.kind.Dag? && AdvanceSpec(c, g).Ok? && Normal(AdvanceSpec(c, g).value.0)
    ensures Exact(g, AdvanceSpec(c, g).value.0)
  {
    hide GraphUnpins, CancelChildren, BindArgs, Prepare, AllRecorded, AllSucceeded, OutputsOf, AbortChildren,
           ReplacementCompletionIntents;
  }

  lemma StoreExact(c: Client, row: Row, g: Graph)
    requires (g.kind.Dag? ==> Core(g, row.intents)) && Store(c, row, g).Ok? && Normal(Store(c, row, g).value.graph)
    ensures Exact(g, Store(c, row, g).value.graph)
  {
    hide Core, AdvanceSpec;
    if g.kind.Dag? { DagAdvanceExact(c, g, row.intents); } else { FlatAdvanceExact(c, g); }
  }

  /** The graph that a step advances. */
  function Taken(g: Graph, e: Event): Graph { if e.Completed? then WithMember(g, e.m) else g.(cancelRequested := true) }

  lemma StepIsStore(c: Client, row: Row, e: Event)
    requires StepRow(c, row, e) != row
    ensures Store(c, row, Taken(row.graph, e)).Ok? && StepRow(c, row, e) == Store(c, row, Taken(row.graph, e)).value
    ensures e.Completed? ==> e.m.id !in row.graph.members
  {
    hide Store;
  }

  lemma TakenCore(c: Client, row: Row, e: Event)
    requires RowOk(c, row) && LegitRow(row, e) && row.graph.kind.Dag? && (e.Completed? ==> e.m.id !in row.graph.members)
    ensures Core(Taken(row.graph, e), row.intents)
  {
    hide Core, Live, FlatReachable, Pins.ReportsOrigin;
    if e.Completed? {
      var i := HandedOutDispatched(row.graph, row.intents, e.m.id);
      RecordKeepsCore(row.graph, row.intents, i, e.m);
    } else {
      CancelMarkDag(row.graph, row.intents);
    }
  }

  /** A step that ends in the normal mode started in it, changed no record and took the report as it is. */
  lemma StepExact(c: Client, row: Row, e: Event)
    requires RowOk(c, row) && LegitRow(row, e) && Normal(StepRow(c, row, e).graph)
    ensures Exact(row.graph, StepRow(c, row, e).graph)
    ensures e.Completed? && StepRow(c, row, e) != row && e.m.id !in row.graph.members ==>
              e.m.id in StepRow(c, row, e).graph.members && StepRow(c, row, e).graph.members[e.m.id] == e.m
  {
    hide RowOk, LegitRow, Core, Store, StepRow;
    if StepRow(c, row, e) != row {
      StepIsStore(c, row, e);
      if row.graph.kind.Dag? { TakenCore(c, row, e); }
      StoreExact(c, row, Taken(row.graph, e));
    }
  }

  // ---- honest runs ----

  /** The position of a task among the declared ones. */
  function Index(g: Graph, id: Id): nat { if g.kind.Dag? then TaskIndex(id) else Position(g, id) }

  /** A task that was published may report anything; one that was failed before dispatch reports that. */
  predicate Answered(row: Row, m: Completion) {
    var d := DispatchId(row.graph, m.id);
    d in row.intents && (row.intents[d].payload.Publish? || m.outcome == Refusal(row.intents[d]))
  }

  /** A first report of a task that was handed out, or a cancellation. */
  predicate Honest(row: Row, e: Event) {
    LegitRow(row, e) && (e.Completed? ==> e.m.id !in row.graph.members && (Normal(row.graph) ==> Answered(row, e.m)))
  }

  predicate HonestRun(c: Client, row: Row, events: seq<Event>)
    decreases |events|
  {
    events == [] || (Honest(row, events[0]) && HonestRun(c, StepRow(c, row, events[0]), events[1..]))
  }

  lemma {:induction false} HonestSnoc(c: Client, row: Row, events: seq<Event>, e: Event)
    requires HonestRun(c, row, events) && Honest(End(c, row, events), e)
    ensures HonestRun(c, row, events + [e]) && End(c, row, events + [e]) == StepRow(c, End(c, row, events), e)
    decreases |events|
  {
    hide Honest, StepRow;
    if events == [] {
      assert [e][1..] == [];
    } else {
      assert (events + [e])[1..] == events[1..] + [e];
      HonestSnoc(c, StepRow(c, row, events[0]), events[1..], e);
    }
  }

  /** What a run never changes: who the row is, and the intents it has stored. */
  predicate RowKept(a: Row, b: Row) {
    b.graph.id == a.graph.id && b.graph.kind == a.graph.kind &&
    (!a.graph.kind.Dag? ==> |b.graph.signatures| == |a.graph.signatures|) &&
    (forall k | k in a.intents :: k in b.intents && b.intents[k] == a.intents[k])
  }

  lemma StepKept(c: Client, row: Row, e: Event)
    requires RowOk(c, row) && LegitRow(row, e)
    ensures RowOk(c, StepRow(c, row, e)) && RowKept(row, StepRow(c, row, e))
  {
    RowSteps(c, row, e);
    hide AdvanceSpec, Store;
    if row.graph.kind.Dag? {
      StepProgresses(c, row, e);
    } else {
      FlatStepProgresses(c, row, e);
    }
    hide StepRow, Reachable, FlatReachable;
  }

  /** A run that ends in the normal mode was in it throughout and keeps every record. */
  lemma {:induction false} RunExact(c: Client, row: Row, events: seq<Event>)
    requires RowOk(c, row) && HonestRun(c, row, events)
    ensures RowOk(c, End(c, row, events)) && RowKept(row, End(c, row, events))
    ensures Normal(End(c, row, events).graph) ==> Exact(row.graph, End(c, row, events).graph)
    decreases |events|
  {
    hide RowOk, StepRow, LegitRow, Answered;
    if events != [] {
      StepKept(c, row, events[0]);
      RunExact(c, StepRow(c, row, events[0]), events[1..]);
      if Normal(End(c, row, events).graph) { StepExact(c, row, events[0]); }
    }
  }

  /** The world runs every published task the way the row has it on record. */
  predicate Told(w: World, row: Row) {
    forall id | id in row.graph.members && DispatchId(row.graph, id) in row.intents ::
      row.intents[DispatchId(row.graph, id)].payload.Publish? ==>
        row.graph.members[id].outcome ==
        w.run(Index(row.graph, id), row.intents[DispatchId(row.graph, id)].payload.envelope.args)
  }

  predicate AllowedRow(w: World, row: Row, e: Event) {
    if row.graph.kind.Dag? then Allowed(w, row, e) else FlatAllowed(w, row, e)
  }

  predicate RunOf(c: Client, w: World, row: Row, events: seq<Event>) {
    if row.graph.kind.Dag? then DagRuns.Run(c, w, row, events) else FlatRun(c, w, row, events)
  }

  lemma HonestIsAllowed(c: Client, w: World, row: Row, e: Event, last: Row)
    requires RowOk(c, row) && Honest(row, e) && Normal(last.graph) && Told(w, last)
    requires RowKept(StepRow(c, row, e), last) && Exact(StepRow(c, row, e).graph, last.graph)
    ensures AllowedRow(w, row, e)
  {
    StepKept(c, row, e);
    StepExact(c, row, e);
    if e.Completed? {
      RowRecords(c, row, e.m);
      hide StepRow, RowOk;
      var d := DispatchId(row.graph, e.m.id);
      assert d == DispatchId(last.graph, e.m.id) && last.intents[d] == row.intents[d];
      assert last.graph.members[e.m.id] == e.m;
      assert Index(last.graph, e.m.id) == Index(row.graph, e.m.id);
    }
  }

  /** A row's honest history is an allowed run of every world that runs the tasks as recorded. */
  lemma {:induction false} HonestRunIsRun(c: Client, w: World, row: Row, events: seq<Event>)
    requires RowOk(c, row) && HonestRun(c, row, events) && Normal(End(c, row, events).graph) &&
             Told(w, End(c, row, events))
    ensures RunOf(c, w, row, events)
    decreases |events|
  {
    hide RowOk, StepRow, Allowed, FlatAllowed, Told, Exact, LegitRow, Answered;
    if events != [] {
      var next := StepRow(c, row, events[0]);
      StepKept(c, row, events[0]);
      RunExact(c, next, events[1..]);
      HonestIsAllowed(c, w, row, events[0], End(c, row, events));
      HonestRunIsRun(c, w, next, events[1..]);
    }
  }
}
