/** A chord on which the two engines differ: its body fits the envelope limit without the links of
    the workflow and exceeds it with them. */
module EngineExample {
  import opened Protocol
  import opened LimitedClient
  import opened Compiler
  import opened Meaning
  import opened Plans
  import opened Nested
  import opened Engine
  import opened IntentHash
  import opened WorkflowStore
  import opened Flat
  import opened DagInvariant
  import opened DagMeaning
  import opened FlatInvariant
  import opened FlatMeaning
  import opened FlatRuns
  import opened Engines
  import opened SmallPlans
  import DagRuns

  const Header: Signature := Signature(TaskRef("part", 1), Null, true, None, "", 0, 0)
  const Body: Signature := Signature(TaskRef("body", 1), Null, false, None, "", 0, 0)

  function Example(): Canvas { Canvas(ChordCanvas, [Header], Some(Body), []) }

  function Works(): Behaviour { (k, a) => Outcome(Succeeded, Some(Null), None) }

  // ---- the flat engine ----

  function Part(): Envelope {
    Envelope(ChildId(Workflow, 0), Header.task, Null, "", Some(Workflow), Some(Workflow), Some(Workflow), 0, None, 0,
      0, 0)
  }

  function FlatBody(): Envelope {
    Envelope(BodyId(Workflow), Body.task, List([Null]), "", Some(Workflow), Some(Workflow), Some(Workflow), 0, None, 0,
      0, 0)
  }

  function FlatFirst(): Graph {
    EmptyGraph(Workflow, Chord).(children := [Part()], signatures := [Header], callback := Some(Body),
      callbackId := Some(BodyId(Workflow)))
  }

  lemma FlatChildrenMade()
    ensures FlatChildren(Limited(), Workflow, Chord, [Header], 1) == Ok([Part()])
  {
    var c := Limited();
    var e := Envelope(ChildId(Workflow, 0), Header.task, Null, "", None, None, Some(ChildId(Workflow, 0)), 0, None, 0,
      0, 0);
    assert c.admits(e);
    assert Prepare(c, Header, ChildId(Workflow, 0)) == Some(e);
    assert FlatChildren(c, Workflow, Chord, [Header], 0) == Ok([]);
    assert [Header][0] == Header && [] + [Part()] == [Part()];
  }

  lemma FlatStarts()
    ensures FlatGraph(Limited(), Workflow, Example()) == Ok(FlatFirst())
    ensures CreateFlatSpec(Limited(), FlatFirst()) ==
              Ok(Row(FlatFirst(), map[DispatchIntent(Workflow, Part()).id := DispatchIntent(Workflow, Part())]))
  {
    FlatChildrenMade();
    hide FlatChildren;
    assert DispatchAll(Workflow, [Part()]) == [DispatchIntent(Workflow, Part())] by { assert [Part()][..0] == []; }
    assert Merge(map[], []) == map[];
  }

  function Done(id: Id): Completion { Completion(id, Outcome(Succeeded, Some(Null), None)) }

  function FlatEvents(): seq<Event> {
    [DagRuns.Completed(Done(ChildId(Workflow, 0))), DagRuns.Completed(Done(BodyId(Workflow)))]
  }

  function FlatSecond(): Graph {
    FlatFirst().(members := map[ChildId(Workflow, 0) := Done(ChildId(Workflow, 0))], callbackClaimed := true,
                 callbackEnvelope := Some(FlatBody()), revision := 2)
  }

  function FlatStored(): Intents {
    var d, b := DispatchIntent(Workflow, Part()), DispatchIntent(Workflow, FlatBody());
    map[d.id := d, b.id := b]
  }

  /** The header's report starts the body: without its links it fits. */
  lemma FlatBodyStarts()
    ensures var g := FlatFirst().(members := map[ChildId(Workflow, 0) := Done(ChildId(Workflow, 0))]);
            AdvanceSpec(Limited(), g) == Ok((FlatSecond().(revision := 1), [DispatchIntent(Workflow, FlatBody())]))
  {
    var c, g := Limited(), FlatFirst().(members := map[ChildId(Workflow, 0) := Done(ChildId(Workflow, 0))]);
    assert ChildIds(g.children) == [ChildId(Workflow, 0)];
    assert OutputsOf([ChildId(Workflow, 0)], g.members) == [Some(Null)];
    assert MarshalList([Some(Null)]) == List([Null]);
    var e := Envelope(BodyId(Workflow), Body.task, List([Null]), "", None, None, Some(BodyId(Workflow)), 0, None, 0, 0,
      0);
    assert c.admits(e);
    assert Prepare(c, Body.(args := List([Null])), BodyId(Workflow)) == Some(e);
    assert StartBody(c, g, List([Null])) == Ok((FlatSecond().(revision := 1), [DispatchIntent(Workflow, FlatBody())]));
    assert AdvanceBarrier(c, g) == StartBody(c, g, List([Null]));
    hide AdvanceBarrier, StartBody;
    assert [DispatchIntent(Workflow, FlatBody())] + [] == [DispatchIntent(Workflow, FlatBody())];
  }

  lemma FlatSteps()
    ensures DagRuns.StepRow(Limited(),
              Row(FlatFirst(), map[DispatchIntent(Workflow, Part()).id := DispatchIntent(Workflow, Part())]),
                FlatEvents()[0]) ==
            Row(FlatSecond(), FlatStored())
  {
    FlatBodyStarts();
    hide AdvanceSpec;
    var s, b := map[DispatchIntent(Workflow, Part()).id := DispatchIntent(Workflow, Part())],
      DispatchIntent(Workflow, FlatBody());
    MergeEmpty(s);
    assert [b][..0] == [];
    assert Merge(s, [b]) == FlatStored();
    assert FlatFirst().children[0].id == ChildId(Workflow, 0);
  }

  lemma FlatEnds()
    ensures var g := DagRuns.StepRow(Limited(), Row(FlatSecond(), FlatStored()), FlatEvents()[1]).graph;
            SettledNormal(g) && g.state == Succeeded
  {
    var c, m := Limited(), Done(BodyId(Workflow));
    var g := FlatSecond().(members := FlatSecond().members[m.id := m]);
    hide GraphUnpins;
    assert AdvanceGraphSpec(c, g) == Ok(Finish(g, Succeeded, Some(Null)));
  }

  // ---- the compiled graph ----

  const Barrier: Id := CollectId(Workflow, 1)

  function Task(n: nat): Id { TaskId(Workflow, n) }

  function First(): Envelope {
    Envelope(Task(0), Header.task, Null, "", Some(Workflow), Some(Workflow), Some(Workflow), 0, None, 0, 0, 0)
  }

  function Second(): Envelope {
    Envelope(Task(1), Body.task, Null, "", Some(Workflow), Some(Barrier), Some(Workflow), 0, None, 0, 0, 0)
  }

  function FirstNode(dispatched: bool): CanvasNode { CanvasNode(Task(0), TaskNode, [], [], Some(Header), dispatched) }

  function BarrierNode(): CanvasNode { CanvasNode(Barrier, CollectNode, [Task(0)], [], None, false) }

  function SecondNode(dispatched: bool): CanvasNode {
    CanvasNode(Task(1), TaskNode, [Barrier], [], Some(Body), dispatched)
  }

  function DagGraph(first: bool, second: bool): Graph {
    EmptyGraph(Workflow, Dag).(children := [First(), Second()],
      plan := [FirstNode(first), BarrierNode(), SecondNode(second)], rootNode := Some(Task(1)))
  }

  function HeaderBuilt(): Build {
    Build(EmptyGraph(Workflow, Dag).(children := [First()], plan := [FirstNode(false)]), true)
  }

  const HeaderRef: ValueReference := ValueReference(Task(0), Named(0), false)
  const BarrierRef: ValueReference := ValueReference(Barrier, SliceOf(Named(0)), false)

  lemma HeaderCompiles()
    ensures GroupSpec(Limited(), Build(EmptyGraph(Workflow, Dag), false), [Header], None, []) ==
              Ok((HeaderBuilt(), [HeaderRef]))
  {
    var c, b := Limited(), Build(EmptyGraph(Workflow, Dag), false);
    assert c.admits(First().(workflow := None, parent := None, root := Some(Task(0))));
    assert Prepare(c, Header, Task(0)) == Some(First().(workflow := None, parent := None, root := Some(Task(0))));
    assert [] + [First()] == [First()] && [] + [FirstNode(false)] == [FirstNode(false)];
    assert TaskSpec(c, b, Header, None) == Ok((HeaderBuilt(), HeaderRef));
    hide TaskSpec;
    assert [Header][1..] == [] && [] + [HeaderRef] == [HeaderRef];
    assert GroupSpec(c, HeaderBuilt(), [], None, [HeaderRef]) == Ok((HeaderBuilt(), [HeaderRef]));
  }

  function BarrierBuilt(): Build {
    Build(HeaderBuilt().graph.(plan := [FirstNode(false), BarrierNode()]), true)
  }

  lemma BarrierCompiles()
    ensures CollectSpec(HeaderBuilt(), [HeaderRef], None) == (BarrierBuilt(), BarrierRef)
  {
    assert RefIds([HeaderRef]) == [Task(0)];
    assert [FirstNode(false)] + [BarrierNode()] == [FirstNode(false), BarrierNode()];
  }

  lemma BodyCompiles()
    ensures TaskSpec(Limited(), BarrierBuilt(), Body, Some(BarrierRef)) ==
            Ok((Build(DagGraph(false, false).(rootNode := None), true), ValueReference(Task(1), Named(0), false)))
  {
    var c := Limited();
    assert c.admits(Second().(workflow := None, parent := None, root := Some(Task(1))));
    assert Prepare(c, Body, Task(1)) == Some(Second().(workflow := None, parent := None, root := Some(Task(1))));
    assert [First()] + [Second()] == [First(), Second()];
    assert [FirstNode(false), BarrierNode()] + [SecondNode(false)] ==
             [FirstNode(false), BarrierNode(), SecondNode(false)];
  }

  lemma Compiles()
    ensures CompileGraph(Limited(), Workflow, Example()) == Ok(DagGraph(false, false))
  {
    HeaderCompiles();
    BarrierCompiles();
    BodyCompiles();
    hide TaskSpec, CollectSpec;
  }

  /** The first sweep hands out the header. */
  lemma Found(g: Graph)
    requires g.children == [First(), Second()]
    ensures FindChild(g.children, Task(0)) == Some(0) && FindChild(g.children, Task(1)) == Some(1)
  {
    assert g.children[..1] == [First()];
    assert FindChild([First()], Task(0)) == Some(0);
  }

  lemma HeaderSwept()
    ensures AdvanceSpec(Limited(), DagGraph(false, false)) ==
              Ok((DagGraph(true, false), [DispatchIntent(Workflow, First())]))
  {
    var c, g := Limited(), DagGraph(false, false);
    var d := DispatchIntent(Workflow, First());
    var p := Sweep(g, [], ArgumentBytes(c, g.children), false);
    var q := Sweep(DagGraph(true, false), [d], p.argumentBytes, true);
    HeaderVisited(p, q);
    hide AdvanceNode, SweepFrom, ArgumentBytes;
    assert Task(0) in Prereqs(q.graph.plan[1]) && Barrier in Prereqs(q.graph.plan[2]);
    AdvanceThree(c, g, g, [], q);
  }

  lemma HeaderVisited(p: Sweep, q: Sweep)
    requires p.graph == DagGraph(false, false) && p.intents == [] &&
             q == Sweep(DagGraph(true, false), [DispatchIntent(Workflow, First())], p.argumentBytes, true)
    ensures SweepFrom(Limited(), p, 0) == Ok(q)
  {
    var c := Limited();
    Found(p.graph);
    hide FindChild;
    RootHandsOut(c, p, 0, 0);
    assert [] + q.intents == q.intents && MarkDispatched(p.graph, 0) == q.graph;
    assert Task(0) in Prereqs(q.graph.plan[1]) && Barrier in Prereqs(q.graph.plan[2]);
    assert AdvanceNode(c, q, 1) == Ok(q) && AdvanceNode(c, q, 2) == Ok(q);
    hide AdvanceNode;
    SweepThree(c, p, q, q, q);
  }

  function FirstStored(): Intents { map[DispatchIntent(Workflow, First()).id := DispatchIntent(Workflow, First())] }

  lemma HeaderHandedOut()
    ensures CreateSpec(Limited(), DagGraph(false, false)) == Ok(Row(DagGraph(true, false), FirstStored()))
  {
    HeaderSwept();
    hide AdvanceSpec, Merge;
    MergeOne(map[], DispatchIntent(Workflow, First()));
  }

  function Combining(): Completion { Completion(Barrier, Outcome(Succeeded, Some(List([Null])), None)) }

  function AfterHeader(second: bool, barrier: bool): Graph {
    var reported := map[Task(0) := Done(Task(0))];
    DagGraph(true, second).(members := if barrier then reported[Barrier := Combining()] else reported)
  }

  function Refusal(): Intent { FailIntent(Workflow, Second(), Some(WorkflowInput), None) }

  lemma BarrierVisited(p: Sweep, q: Sweep)
    requires p.graph == AfterHeader(false, false) && q == p.(graph := AfterHeader(false, true), progress := true)
    ensures AdvanceNode(Limited(), p, 0) == Ok(p) && AdvanceNode(Limited(), p, 1) == Ok(q)
  {
    var g := p.graph;
    assert Prereqs(g.plan[1]) == [Task(0)];
    assert OutputsOf([Task(0)], g.members) == [Some(Null)];
    assert MarshalList([Some(Null)]) == List([Null]);
    assert CollectMember(g.plan[1], g.members) == Combining();
  }

  /** The body is validated with its links, and does not fit. */
  lemma BodyRefused(p: Sweep, q: Sweep)
    requires p.graph == AfterHeader(false, true) && p.argumentBytes <= 10
    requires q == Sweep(AfterHeader(true, true), p.intents + [Refusal()], p.argumentBytes, true)
    ensures AdvanceNode(Limited(), p, 2) == Ok(q)
  {
    var c, g := Limited(), p.graph;
    Found(g);
    hide FindChild;
    assert Prereqs(g.plan[2]) == [Barrier];
    assert OutputsOf([Barrier], g.members) == [Some(List([Null]))];
    assert !c.admits(Second().(args := List([Null])));
    assert Decide(c, Body, Second(), false, [Some(List([Null]))], p.argumentBytes) == Refuse(WorkflowInput);
    hide Decide;
    assert MarkDispatched(g, 2) == q.graph;
  }

  lemma BodySwept()
    ensures AdvanceSpec(Limited(), AfterHeader(false, false)) == Ok((AfterHeader(true, true), [Refusal()]))
  {
    var c, g := Limited(), AfterHeader(false, false);
    assert ArgumentBytes(c, g.children) <= 10 by { assert g.children[..1] == [First()] &&
           [First()][..0] == []; assert ArgumentBytes(c, [First()]) <= 1; }
    var p := Sweep(g, [], ArgumentBytes(c, g.children), false);
    var p1 := p.(graph := AfterHeader(false, true), progress := true);
    var q := Sweep(AfterHeader(true, true), [Refusal()], p.argumentBytes, true);
    BarrierVisited(p, p1);
    BodyRefused(p1, q);
    hide AdvanceNode, ArgumentBytes;
    SweepThree(c, p, p, p1, q);
    hide SweepFrom;
    AdvanceThree(c, g, g, [], q);
  }

  function NestedEvents(): seq<Event> {
    [DagRuns.Completed(Done(Task(0))), DagRuns.Completed(Completion(Task(1), Failing(WorkflowInput)))]
  }

  function BothStored(): Intents { FirstStored()[Refusal().id := Refusal()] }

  lemma NestedSteps()
    ensures DagRuns.StepRow(Limited(), Row(DagGraph(true, false), FirstStored()), NestedEvents()[0]) ==
              Row(AfterHeader(true, true).(revision := 2), BothStored())
  {
    BodySwept();
    hide AdvanceSpec, Merge;
    MergeOne(FirstStored(), Refusal());
    assert DagGraph(true, false).children[0].id == Task(0);
  }

  lemma NestedEnds()
    ensures var g := DagRuns.StepRow(Limited(), Row(AfterHeader(true, true).(revision := 2), BothStored()),
              NestedEvents()[1]).graph;
            SettledNormal(g) && g.state == Failed
  {
    var c, m := Limited(), Completion(Task(1), Failing(WorkflowInput));
    var g := AfterHeader(true, true).(revision := 2);
    assert g.children[1].id == Task(1);
    var g1 := g.(members := g.members[m.id := m]);
    var p := Sweep(g1, [], ArgumentBytes(c, g1.children), false);
    QuietSweep(c, p);
    hide ArgumentBytes, SweepFrom;
    AdvanceThree(c, g1, g1, [], p);
    hide AdvanceSpec, UnpinsOf;
  }

  // ---- the two runs ----

  function FlatRow(): Row {
    Row(FlatFirst(), map[DispatchIntent(Workflow, Part()).id := DispatchIntent(Workflow, Part())])
  }

  lemma FlatAllows(w: World)
    requires w.run == Works()
    ensures FlatAllowed(w, FlatRow(), FlatEvents()[0]) &&
            FlatAllowed(w, Row(FlatSecond(), FlatStored()), FlatEvents()[1])
  {
    assert IsChild(FlatFirst(), ChildId(Workflow, 0)) by { assert |FlatFirst().children| == 1; }
  }

  lemma FlatSucceeds()
    ensures FlatRun(Limited(), FlatWorld(Limited(), Works(), FlatFirst()), FlatRow(), FlatEvents())
    ensures var g := End(Limited(), FlatRow(), FlatEvents()); SettledNormal(g) && g.state == Succeeded
  {
    var c, w, events := Limited(), FlatWorld(Limited(), Works(), FlatFirst()), FlatEvents();
    FlatAllows(w);
    FlatSteps();
    FlatEnds();
    hide DagRuns.StepRow, FlatAllowed, FlatStored, FlatSecond;
    assert events[1..] == [events[1]] && events[1..][1..] == [];
    var row1 := DagRuns.StepRow(c, FlatRow(), events[0]);
    var row2 := DagRuns.StepRow(c, row1, events[1]);
    assert FlatRun(c, w, row2, []) && FlatRun(c, w, row1, [events[1]]);
    assert DagRuns.End(c, row2, []) == row2 && DagRuns.End(c, row1, [events[1]]) == row2;
  }

  function DagRow(): Row { Row(DagGraph(true, false), FirstStored()) }

  lemma NestedAllows(w: World)
    requires w.run == Works()
    ensures DagRuns.Allowed(w, DagRow(), NestedEvents()[0]) &&
            DagRuns.Allowed(w, Row(AfterHeader(true, true).(revision := 2), BothStored()), NestedEvents()[1])
  {
    assert IsTask(DagGraph(true, false), Task(0)) by { assert DagGraph(true, false).plan[0].id == Task(0); }
    assert IsTask(AfterHeader(true, true).(revision := 2), Task(1)) by { assert AfterHeader(true, true).plan[2].id ==
             Task(1); }
  }

  lemma NestedFails()
    ensures DagRuns.Run(Limited(), DagWorld(Limited(), Works(), DagGraph(false, false)), DagRow(), NestedEvents())
    ensures var h := End(Limited(), DagRow(), NestedEvents()); SettledNormal(h) && h.state == Failed
  {
    var c, w, events := Limited(), DagWorld(Limited(), Works(), DagGraph(false, false)), NestedEvents();
    NestedAllows(w);
    NestedSteps();
    NestedEnds();
    hide DagRuns.StepRow, DagRuns.Allowed, BothStored, AfterHeader, FirstStored;
    assert events[1..] == [events[1]] && events[1..][1..] == [];
    var row1 := DagRuns.StepRow(c, DagRow(), events[0]);
    var row2 := DagRuns.StepRow(c, row1, events[1]);
    assert DagRuns.Run(c, w, row2, []) && DagRuns.Run(c, w, row1, [events[1]]);
    assert DagRuns.End(c, row2, []) == row2 && DagRuns.End(c, row1, [events[1]]) == row2;
  }

  /** The engines can differ: with one and the same behaviour of the tasks, the flat chord publishes
      its body and succeeds, while the compiled chord refuses the body its input and fails. */
  lemma EnginesCanDiffer()
    ensures BothRun(Limited(), Works(), Workflow, Example(), FlatEvents(), NestedEvents())
    ensures var c := Limited();
            var g0, h0 := FlatGraph(c, Workflow, Example()).value, CompileGraph(c, Workflow, Example()).value;
            var g, h := End(c, CreateFlatSpec(c, g0).value, FlatEvents()),
              End(c, CreateSpec(c, h0).value, NestedEvents());
            SettledNormal(g) && SettledNormal(h) && g.state == Succeeded && h.state == Failed &&
            !Agree(ResultOf(g), ResultOf(h))
    ensures FlatStored()[DispatchId(FlatFirst(), BodyId(Workflow))].payload == Publish(FlatBody())
    ensures BothStored()[DispatchId(DagGraph(false, false), Task(1))].payload ==
              Fail(Second(), Some(WorkflowInput), None)
  {
    FlatStarts();
    Compiles();
    HeaderHandedOut();
    FlatSucceeds();
    NestedFails();
    hide FlatGraph, CompileGraph, CreateFlatSpec, CreateSpec, DagRuns.Run, FlatRun, DagRuns.End;
  }
}
