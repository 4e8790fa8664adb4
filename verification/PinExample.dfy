/** A run on which pin completeness fails for one step: a chain of three tasks is cancelled, its last
    task reports first and settles it, then its first task reports an output that exceeds the byte
    budget while the second is still out. Every row of the run is one the store accepts. */
module PinExample {
  import opened Protocol
  import opened Compiler
  import opened Meaning
  import opened Plans
  import opened Nested
  import opened Engine
  import opened IntentHash
  import opened WorkflowStore
  import opened DagInvariant
  import opened DagRuns
  import opened Pins
  import opened SmallPlans

  /** A recorded output takes a graph beyond 8 MiB; everything else is small. */
  predicate HasOutput(g: Graph) { exists id | id in g.members :: g.members[id].outcome.output.Some? }

  function Small(): Client {
    Client(t => true, t => Named(0), s => Some(Named(0)), (t, a) => true, t => None, s => true,
           e => true, (a, f, v) => None, v => 1, g => if HasOutput(g) then MaxWorkflowDurableBytes + 1 else 0, b => 0)
  }

  const Workflow: Id := Fresh(0)
  const Step: Signature := Signature(TaskRef("t", 1), Null, true, None, "", 0, 0)

  function Example(): Canvas { Canvas(ChainCanvas, [Step, Step, Step], None, []) }

  function Task(n: nat): Id { TaskId(Workflow, n) }

  function Child(n: nat): Envelope {
    Envelope(Task(n), Step.task, Null, "", Some(Workflow), Some(if n == 0 then Workflow else Task(n - 1)),
      Some(Workflow), 0, None, 0, 0, 0)
  }

  function Node(n: nat, dispatched: bool): CanvasNode {
    CanvasNode(Task(n), TaskNode, if n == 0 then [] else [Task(n - 1)], [], Some(Step), dispatched)
  }

  /** The compiled chain with its first task handed out or not, and the others. */
  function ChainGraph(first: bool, rest: bool): Graph {
    EmptyGraph(Workflow, Dag).(children := [Child(0), Child(1), Child(2)],
      plan := [Node(0, first), Node(1, rest), Node(2, rest)],
      rootNode := Some(Task(2)))
  }

  // ---- compiling ----

  function Built(n: nat): Build
    requires n <= 3
  {
    Build(EmptyGraph(Workflow, Dag).(children := ChainGraph(false, false).children[..n],
      plan := ChainGraph(false, false).plan[..n]), n > 0)
  }

  function Ref(n: nat): ValueReference { ValueReference(Task(n), Named(0), false) }

  lemma StepCompiles(n: nat)
    requires n < 3
    ensures TaskSpec(Small(), Built(n), Step, if n == 0 then None else Some(Ref(n - 1))) == Ok((Built(n + 1), Ref(n)))
  {
    var g := ChainGraph(false, false);
    assert g.children[n] == Child(n) && g.plan[n] == Node(n, false);
    assert g.children[..n + 1] == g.children[..n] + [Child(n)] && g.plan[..n + 1] == g.plan[..n] + [Node(n, false)];
    var bare := Child(n).(workflow := None, parent := None, root := Some(Task(n)));
    assert Small().admits(bare);
    assert Prepare(Small(), Step, Task(n)) == Some(bare);
  }

  lemma {:induction false} RestCompiles(n: nat)
    requires n <= 3
    ensures ChainSpec(Small(), Built(n), [Step, Step, Step][n..], if n == 0 then None else Some(Ref(n - 1))) ==
              Ok((Built(3), Some(Ref(2))))
    decreases 3 - n
  {
    if n < 3 {
      StepCompiles(n);
      RestCompiles(n + 1);
      hide TaskSpec, Built;
      assert [Step, Step, Step][n..][1..] == [Step, Step, Step][n + 1..];
    }
  }

  lemma Compiles()
    ensures CompileGraph(Small(), Workflow, Example()) == Ok(ChainGraph(false, false))
  {
    RestCompiles(0);
    assert [Step, Step, Step][0..] == [Step, Step, Step];
    var g := ChainGraph(false, false);
    assert g.children[..0] == [] && g.plan[..0] == [] && g.children[..3] == g.children && g.plan[..3] == g.plan;
    assert Built(0) == Build(EmptyGraph(Workflow, Dag), false);
    assert Built(3).graph.(rootNode := Some(Task(2))) == g;
    hide ChainSpec, Built;
  }

  // ---- the first row ----

  lemma Found(g: Graph, n: nat)
    requires g.children == [Child(0), Child(1), Child(2)] && n < 3
    ensures FindChild(g.children, Task(n)) == Some(n)
  {
    assert g.children[..2] == [Child(0), Child(1)] && g.children[..2][..1] == [Child(0)];
    assert FindChild([Child(0)], Task(0)) == Some(0);
    assert FindChild([Child(0), Child(1)], Task(1)) == Some(1);
    assert FindChild([Child(0), Child(1)], Task(0)) == FindChild([Child(0)], Task(0));
  }

  lemma FirstVisited(p: Sweep, q: Sweep)
    requires p.graph == ChainGraph(false, false) && p.intents == []
    requires q == Sweep(ChainGraph(true, false), [DispatchIntent(Workflow, Child(0))], p.argumentBytes, true)
    ensures SweepFrom(Small(), p, 0) == Ok(q)
  {
    var c := Small();
    Found(p.graph, 0);
    hide FindChild;
    RootHandsOut(c, p, 0, 0);
    assert [] + q.intents == q.intents && MarkDispatched(p.graph, 0) == q.graph;
    assert Task(0) in Prereqs(q.graph.plan[1]) && Task(1) in Prereqs(q.graph.plan[2]);
    assert AdvanceNode(c, q, 1) == Ok(q) && AdvanceNode(c, q, 2) == Ok(q);
    hide AdvanceNode;
    SweepThree(c, p, q, q, q);
  }

  lemma FirstSwept()
    ensures AdvanceSpec(Small(), ChainGraph(false, false)) ==
              Ok((ChainGraph(true, false), [DispatchIntent(Workflow, Child(0))]))
  {
    var c, g := Small(), ChainGraph(false, false);
    var p := Sweep(g, [], ArgumentBytes(c, g.children), false);
    var q := Sweep(ChainGraph(true, false), [DispatchIntent(Workflow, Child(0))], p.argumentBytes, true);
    FirstVisited(p, q);
    hide AdvanceNode, SweepFrom, ArgumentBytes;
    assert Task(0) in Prereqs(q.graph.plan[1]) && Task(1) in Prereqs(q.graph.plan[2]);
    AdvanceThree(c, g, g, [], q);
  }

  function FirstRow(): Row {
    Row(ChainGraph(true, false), map[DispatchIntent(Workflow, Child(0)).id := DispatchIntent(Workflow, Child(0))])
  }

  lemma Created()
    ensures CreateSpec(Small(), ChainGraph(false, false)) == Ok(FirstRow())
  {
    FirstSwept();
    hide AdvanceSpec, Merge;
    MergeOne(map[], DispatchIntent(Workflow, Child(0)));
  }

  // ---- the cancellation ----

  function CanceledGraph(revision: nat): Graph {
    ChainGraph(true, true).(cancelRequested := true, revision := revision)
  }

  function Cancellations(dispatched: bool): seq<Intent> {
    [CancellationIntent(Workflow, Child(0), true), CancellationIntent(Workflow, Child(1), dispatched),
      CancellationIntent(Workflow, Child(2), dispatched)]
  }

  lemma CancelVisits(g: Graph, intents: seq<Intent>, i: nat)
    requires i < 3 == |g.plan| && g.id == Workflow && g.children == [Child(0), Child(1), Child(2)] &&
             g.plan[i] == Node(i, g.plan[i].dispatched)
    ensures Task(i) !in g.members ==>
              CancelFrom(g, intents, i) ==
                CancelFrom(MarkDispatched(g, i),
                  intents + [CancellationIntent(Workflow, Child(i), g.plan[i].dispatched)], i + 1)
    ensures Task(i) in g.members ==> CancelFrom(g, intents, i) == CancelFrom(g, intents, i + 1)
  {
    Found(g, i);
    hide FindChild;
  }

  lemma CancelAll()
    ensures var g := ChainGraph(true, false).(cancelRequested := true);
            CancelFrom(g, [], 0) == Ok((CanceledGraph(1), Cancellations(false)))
  {
    hide CancelFrom;
    var g0, g1, g2 := PartlyCanceled(false, false), PartlyCanceled(true, false), PartlyCanceled(true, true);
    var x, y, z := CancellationIntent(Workflow, Child(0), true), CancellationIntent(Workflow, Child(1), false),
      CancellationIntent(Workflow, Child(2), false);
    CancelVisits(g0, [], 0);
    CancelVisits(g0, [x], 1);
    CancelVisits(g1, [x, y], 2);
    CancelDone(g2, [x, y, z]);
    hide CancellationIntent, Child;
    assert MarkDispatched(g0, 0) == g0 && MarkDispatched(g0, 1) == g1 && MarkDispatched(g1, 2) == g2;
    assert [] + [x] == [x] && [x] + [y] == [x, y] && [x, y] + [z] == [x, y, z];
  }

  function PartlyCanceled(second: bool, third: bool): Graph {
    ChainGraph(true, false).(cancelRequested := true, plan := [Node(0, true), Node(1, second), Node(2, third)])
  }

  lemma CancelDone(g: Graph, intents: seq<Intent>)
    requires |g.plan| == 3
    ensures CancelFrom(g, intents, 3) == Ok((g, intents))
  {
  }

  lemma CancelSwept()
    ensures AdvanceSpec(Small(), ChainGraph(true, false).(cancelRequested := true)) ==
              Ok((CanceledGraph(1), Cancellations(false)))
  {
    var c, g := Small(), ChainGraph(true, false).(cancelRequested := true);
    CancelAll();
    var p := Sweep(CanceledGraph(1), Cancellations(false), ArgumentBytes(c, CanceledGraph(1).children), false);
    QuietSweep(c, p);
    hide ArgumentBytes, SweepFrom, CancelFrom;
    AdvanceThree(c, g, CanceledGraph(1), Cancellations(false), p);
  }

  function CanceledStored(): Intents {
    var batch := Cancellations(false);
    FirstRow().intents[batch[0].id := batch[0]][batch[1].id := batch[1]][batch[2].id := batch[2]]
  }

  function CanceledRow(): Row { Row(CanceledGraph(2), CanceledStored()) }

  lemma Cancels()
    ensures StepRow(Small(), FirstRow(), CancelRequested) == CanceledRow()
  {
    CancelSwept();
    var s, batch := FirstRow().intents, Cancellations(false);
    hide AdvanceSpec;
    MergeThree(s, batch[0], batch[1], batch[2]);
    assert [batch[0], batch[1], batch[2]] == batch;
    hide Merge;
  }

  lemma MergeThree(s: Intents, x: Intent, y: Intent, z: Intent)
    requires x.id !in s && y.id !in s && z.id !in s && x.id != y.id && x.id != z.id && y.id != z.id
    ensures Merge(s, [x, y, z]) == s[x.id := x][y.id := y][z.id := z]
  {
    MergeOne(s, x);
    MergeSnoc(s, [x], y);
    MergeSnoc(s, [x, y], z);
    assert [x] + [y] == [x, y] && [x, y] + [z] == [x, y, z];
    hide Merge;
  }

  // ---- the last task settles the chain ----

  function Revocation(n: nat): Completion { Completion(Task(n), Outcome(Revoked, None, Some(CanceledBeforeDispatch))) }

  function Reported(): Graph { CanceledGraph(2).(members := map[Task(2) := Revocation(2)]) }

  function Settled(revision: nat): Graph {
    Reported().(state := Revoked, failure := Some(WorkflowRevoked), revision := revision)
  }

  lemma CancelRest()
    ensures CancelFrom(Reported(), [], 0) == Ok((Reported(), Cancellations(true)[..2]))
  {
    var g, batch := Reported(), Cancellations(true);
    hide CancelFrom;
    CancelVisits(g, [], 0);
    CancelVisits(g, [batch[0]], 1);
    CancelVisits(g, [batch[0], batch[1]], 2);
    hide CancellationIntent;
    assert MarkDispatched(g, 0) == g && MarkDispatched(g, 1) == g;
    assert [] + [batch[0]] == [batch[0]] && [batch[0]] + [batch[1]] == [batch[0], batch[1]] == batch[..2];
    CancelDone(g, batch[..2]);
  }

  lemma OneUnpin(g: Graph)
    requires g.id == Workflow && g.children == [Child(0), Child(1), Child(2)] && g.members.Keys == {Task(2)}
    ensures UnpinsOf(g, g.children) == [UnpinIntent(Workflow, Task(2))]
  {
    assert g.children[..2] == [Child(0), Child(1)] && g.children[..2][..1] == [Child(0)] && [Child(0)][..0] == [];
    assert UnpinsOf(g, [Child(0)]) == [];
    assert UnpinsOf(g, [Child(0), Child(1)]) == [];
  }

  lemma SettleSwept()
    ensures AdvanceSpec(Small(), Reported()) ==
              Ok((Settled(2), Cancellations(true)[..2] + [UnpinIntent(Workflow, Task(2))]))
  {
    var c, g, intents := Small(), Reported(), Cancellations(true)[..2];
    CancelRest();
    var p := Sweep(g, intents, ArgumentBytes(c, g.children), false);
    QuietSweep(c, p);
    OneUnpin(g);
    hide ArgumentBytes, SweepFrom, CancelFrom, UnpinsOf;
    AdvanceThree(c, g, g, intents, p);
  }

  function SettledStored(): Intents {
    CanceledStored()[UnpinIntent(Workflow, Task(2)).id := UnpinIntent(Workflow, Task(2))]
  }

  function SettledRow(): Row { Row(Settled(3), SettledStored()) }

  lemma MergeSettled()
    ensures Merge(CanceledStored(), Cancellations(true)[..2] + [UnpinIntent(Workflow, Task(2))]) == SettledStored()
  {
    var s, x, y, z := CanceledStored(), Cancellations(true)[0], Cancellations(true)[1], UnpinIntent(Workflow, Task(2));
    assert x.id in s && y.id in s && z.id !in s;
    MergeEmpty(s);
    MergeSnoc(s, [], x);
    MergeSnoc(s, [x], y);
    MergeSnoc(s, [x, y], z);
    assert [] + [x] == [x] && [x] + [y] == [x, y] && [x, y] == Cancellations(true)[..2];
    hide Merge;
  }

  lemma Settles()
    ensures StepRow(Small(), CanceledRow(), Completed(Revocation(2))) == SettledRow()
  {
    SettleSwept();
    MergeSettled();
    hide AdvanceSpec, Merge;
    assert CanceledGraph(2).children[2].id == Task(2);
    assert CanceledGraph(2).(members := CanceledGraph(2).members[Task(2) := Revocation(2)]) == Reported();
  }

  // ---- the late report ----

  function Output(): Completion { Completion(Task(0), Outcome(Succeeded, Some(Null), None)) }

  lemma LateReport()
    ensures Task(0) !in Settled(3).members && LateAbort(Small(), WithMember(Settled(3), Output()))
  {
    var c, g := Small(), WithMember(Settled(3), Output());
    assert Task(0) in g.members && HasOutput(g);
    assert g.plan[1].id == Task(1) && Task(1) !in g.members;
    assert !Finished(g);
    hide GraphUnpins;
    assert OverBudget(c, g);
  }

  /** The store accepts the row after the late report, whose outputs are cleared. */
  lemma LateRowStored()
    ensures Storable(Small(), StepRow(Small(), SettledRow(), Completed(Output())).graph)
  {
    var c, g := Small(), WithMember(Settled(3), Output());
    LateReport();
    var aborted := g.(abortFailure := Some(BudgetExceeded));
    hide OverBudget, AdvanceGraphSpec, AdvanceAbortedSpec, HasOutput, SettledStored, Finished;
    assert AdvanceMode(c, g) == AdvanceAbortedSpec(aborted);
    hide AdvanceMode;
    if AdvanceAbortedSpec(aborted).Ok? { AbortClears(aborted); }
    assert !HasOutput(Settled(3)) by { NoOutput(); }
    assert Settled(3).children[0].id == Task(0);
  }

  lemma NoOutput()
    ensures !HasOutput(Settled(3)) && !HasOutput(CanceledGraph(2)) && !HasOutput(ChainGraph(true, false))
  {
  }

  lemma AbortClears(g: Graph)
    requires AdvanceAbortedSpec(g).Ok? && g.kind.Dag?
    ensures !HasOutput(AdvanceAbortedSpec(g).value.0) && !HasOutput(AdvanceAbortedSpec(g).value.0.(revision := 4))
  {
    var cleared := g.(members := ClearOutputs(g.members), output := None);
    AbortNodesKeeps(cleared, [], 0);
    hide AbortNodes, GraphUnpins;
  }

  // ---- the run ----

  function Events(): seq<Event> { [CancelRequested, Completed(Revocation(2)), Completed(Output())] }

  lemma Allows(w: World)
    ensures Allowed(w, FirstRow(), CancelRequested)
    ensures Allowed(w, CanceledRow(), Completed(Revocation(2))) && Allowed(w, SettledRow(), Completed(Output()))
  {
    assert IsTask(CanceledGraph(2), Task(2)) by { assert CanceledGraph(2).plan[2].id == Task(2); }
    assert IsTask(Settled(3), Task(0)) by { assert Settled(3).plan[0].id == Task(0); }
  }

  lemma Runs(w: World)
    ensures DagRuns.Run(Small(), w, FirstRow(), Events()) && End(Small(), FirstRow(), Events()[..2]) == SettledRow()
    ensures End(Small(), FirstRow(), Events()) == StepRow(Small(), SettledRow(), Completed(Output()))
  {
    var c, events := Small(), Events();
    Allows(w);
    Cancels();
    Settles();
    hide StepRow, Allowed, FirstRow, CanceledRow, SettledRow;
    var last := StepRow(c, SettledRow(), events[2]);
    assert events[1..] == [events[1], events[2]] && events[1..][1..] == [events[2]] && [events[2]][1..] == [];
    assert DagRuns.Run(c, w, last, []) && DagRuns.Run(c, w, SettledRow(), [events[2]]) &&
           DagRuns.Run(c, w, CanceledRow(), [events[1], events[2]]);
    assert End(c, last, []) == last && End(c, SettledRow(), [events[2]]) == last &&
           End(c, CanceledRow(), [events[1], events[2]]) == last;
    assert events[..2] == [events[0], events[1]] && [events[0], events[1]][1..] == [events[1]] &&
           [events[1]][1..] == [];
    assert End(c, SettledRow(), []) == SettledRow() && End(c, CanceledRow(), [events[1]]) == SettledRow();
  }

  /** Pin completeness can fail, on a run that the code can make: from a compiled chain of three
      tasks, whatever its tasks do while it runs normally, through rows that the store accepts. Every
      recorded task is released before the last step, and one is not after it. */
  lemma PinCompletenessCanFail(w: World)
    ensures CompileGraph(Small(), Workflow, Example()).Ok?
    ensures var c, g := Small(), CompileGraph(Small(), Workflow, Example()).value;
            CreateSpec(c, g).Ok? && DagRuns.Run(c, w, CreateSpec(c, g).value, Events()) &&
            (forall n | 0 <= n <= 3 :: Storable(c, End(c, CreateSpec(c, g).value, Events()[..n]).graph)) &&
            UnpinsComplete(End(c, CreateSpec(c, g).value, Events()[..2])) &&
            !UnpinsComplete(End(c, CreateSpec(c, g).value, Events()))
  {
    hide CompileGraph, CreateSpec, DagRuns.Run, End, UnpinsComplete, Storable, StepRow, Reachable, FirstRow,
           SettledRow, Events, Small, Example;
    Compiles();
    Created();
    Runs(w);
    FirstReachable();
    RowsStored();
    LateStep(w);
  }

  lemma FirstReachable()
    ensures Reachable(FirstRow())
  {
    hide CompileGraph, CreateSpec, Reachable, Initial, Small, FirstRow, SameShape;
    Compiles();
    Created();
    assert |ChainGraph(false, false).plan| == 3;
    hide ChainGraph;
    CompiledIsInitial(Small(), Workflow, Example());
    CreateIsReachable(Small(), ChainGraph(false, false));
  }

  lemma RowsStored()
    ensures forall n | 0 <= n <= 3 :: Storable(Small(), End(Small(), FirstRow(), Events()[..n]).graph)
  {
    var c, events := Small(), Events();
    Runs(World((k, a) => Failing(WorkflowInput), (k, a) => false, false));
    LateRowStored();
    NoOutput();
    Cancels();
    hide StepRow, HasOutput, CanceledStored, SettledStored, DagRuns.Run;
    assert events[..0] == [] && events[..1] == [events[0]] && events[..1][1..] == [] && events[..3] == events;
    assert End(c, FirstRow(), events[..0]) == FirstRow();
    assert End(c, CanceledRow(), []) == CanceledRow();
    assert End(c, FirstRow(), events[..1]) == CanceledRow();
    hide End;
    forall n | 0 <= n <= 3 ensures Storable(c, End(c, FirstRow(), events[..n]).graph) {
      assert n == 0 || n == 1 || n == 2 || n == 3;
    }
  }

  lemma RunReachable(c: Client, w: World, row: Row, events: seq<Event>)
    requires Reachable(row) && DagRuns.Run(c, w, row, events)
    ensures Reachable(End(c, row, events))
  {
    hide Reachable, DagRuns.Run, End;
    RunsStayReachable(c, w, row, events);
  }

  lemma SettledReachable(w: World)
    requires Reachable(FirstRow())
    ensures Reachable(SettledRow())
  {
    hide Reachable, DagRuns.Run, End, StepRow, FirstRow, SettledRow;
    Runs(w);
    PrefixRuns(w);
    RunReachable(Small(), w, FirstRow(), Events()[..2]);
  }

  lemma SettledComplete()
    ensures UnpinsComplete(SettledRow())
  {
    hide CanceledStored;
  }

  lemma LateStep(w: World)
    requires Reachable(FirstRow())
    ensures UnpinsComplete(SettledRow()) && !UnpinsComplete(StepRow(Small(), SettledRow(), Completed(Output())))
  {
    hide Reachable, StepRow, UnpinsComplete, LateAbort, Legit, FirstRow, SettledStored, Settled;
    SettledReachable(w);
    SettledComplete();
    LateReport();
    Allows(w);
    PinCompleteness(Small(), SettledRow(), Output());
  }

  lemma PrefixRuns(w: World)
    ensures DagRuns.Run(Small(), w, FirstRow(), Events()[..2])
  {
    var c, events := Small(), Events();
    Allows(w);
    Cancels();
    hide StepRow, Allowed, FirstRow, CanceledRow, SettledRow;
    assert events[..2] == [events[0], events[1]] && [events[0], events[1]][1..] == [events[1]] &&
           [events[1]][1..] == [];
    assert DagRuns.Run(c, w, StepRow(c, CanceledRow(), events[1]), []) && DagRuns.Run(c, w, CanceledRow(), [events[1]]);
  }
}
