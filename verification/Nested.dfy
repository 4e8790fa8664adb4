/** async/nested.go: advanceNested, which re-runs a compiled graph after each recorded member.
    `AdvanceNestedSpec` says what one call computes; the methods below compute it with the
    source's loops over a local copy of the graph. */
module Nested {
  import opened Protocol
  import opened Compiler
  import opened Plans

  /** The variables of the advance loop. */
  datatype Sweep = Sweep(graph: Graph, intents: seq<Intent>, argumentBytes: int, progress: bool)

  /** The last child with this identity, as the source's index map finds it. */
  function FindChild(children: seq<Envelope>, id: Id): (r: Option<nat>)
    ensures r.Some? ==> r.value < |children| && children[r.value].id == id
    ensures r.None? ==> forall n | 0 <= n < |children| :: children[n].id != id
    decreases |children|
  {
    if children == [] then None
    else if children[|children| - 1].id == id then Some(|children| - 1)
    else FindChild(children[..|children| - 1], id)
  }

  function ArgumentBytes(c: Client, children: seq<Envelope>): nat
    decreases |children|
  {
    if children == [] then 0 else ArgumentBytes(c, children[..|children| - 1]) + c.bytes(children[|children| - 1].args)
  }

  function UnpinsOf(g: Graph, children: seq<Envelope>): seq<Intent>
    decreases |children|
  {
    if children == [] then [] else
      var front := UnpinsOf(g, children[..|children| - 1]);
      var id := children[|children| - 1].id;
      if id in g.members then front + [UnpinIntent(g.id, id)] else front
  }

  /** The unpins listed for some children depend only on the graph's identity and recorded members. */
  lemma {:induction false} SameUnpins(g: Graph, g': Graph, children: seq<Envelope>)
    requires g'.id == g.id && g'.members.Keys == g.members.Keys
    ensures UnpinsOf(g', children) == UnpinsOf(g, children)
    decreases |children|
  {
    if children != [] { SameUnpins(g, g', children[..|children| - 1]); }
  }

  /** async/canvas_cancel.go: the unpin intents of every recorded member. */
  function GraphUnpins(g: Graph): seq<Intent> {
    UnpinsOf(g, g.children) +
    if g.callbackId.Some? && g.callbackId.value in g.members then [UnpinIntent(g.id, g.callbackId.value)] else []
  }

  function CancellationIntent(source: Id, e: Envelope, dispatched: bool): Intent {
    Intent(Stable(source, CancelLabel(e.id)), source,
           if dispatched then CancelTask(e) else Fail(e, Some(CanceledBeforeDispatch), Some(Revoked)))
  }

  predicate Ready(node: CanvasNode, members: map<Id, Completion>) {
    forall d | d in Prereqs(node) :: d in members
  }

  predicate AllSucceeded(ids: seq<Id>, members: map<Id, Completion>) {
    forall d | d in ids :: d in members && members[d].outcome.state == Succeeded
  }

  function OutputsOf(ids: seq<Id>, members: map<Id, Completion>): seq<Option<Value>> {
    seq(|ids|, i requires 0 <= i < |ids| => if ids[i] in members then members[ids[i]].outcome.output else None)
  }

  /** What a ready task does: run with an envelope, be refused, or overflow the byte budget. */
  datatype Decision = Run(envelope: Envelope) | Refuse(failure: Failure) | TooLarge

  function Decide(c: Client, s: Signature, envelope: Envelope, failed: bool, outputs: seq<Option<Value>>,
      argumentBytes: int): Decision {
    if failed then Refuse(ParentFailed)
    else if |outputs| != 1 || s.immutable then Run(envelope)
    else
      var bound := BindArgs(c, s, outputs[0]);
      if bound.None? || !c.known(s.task) || !c.validate(s.task, bound.value) then Refuse(WorkflowInput)
      else if argumentBytes - c.bytes(envelope.args) + c.bytes(bound.value) > MaxWorkflowWorkingBytes then TooLarge
      else if !c.admits(envelope.(args := bound.value)) then Refuse(WorkflowInput)
      else Run(envelope.(args := bound.value))
  }

  function CollectMember(node: CanvasNode, members: map<Id, Completion>): Completion {
    Completion(node.id,
      if !AllSucceeded(Prereqs(node), members) then Outcome(Failed, None, Some(GroupFailed))
      else Outcome(Succeeded, Some(MarshalList(OutputsOf(node.deps, members))), None))
  }

  function MarkDispatched(g: Graph, i: nat): Graph
    requires i < |g.plan|
  {
    g.(plan := g.plan[i := g.plan[i].(dispatched := true)])
  }

  /** Hand out task node `i` with the decided intent. */
  function HandOut(c: Client, s: Sweep, i: nat, index: nat, decision: Decision): Sweep
    requires i < |s.graph.plan| && index < |s.graph.children| && !decision.TooLarge?
  {
    var g := s.graph;
    var before := g.children[index];
    match decision
    case Run(e) =>
      Sweep(MarkDispatched(g, i).(children := g.children[index := e]), s.intents + [DispatchIntent(g.id, e)],
            s.argumentBytes + c.bytes(e.args) - c.bytes(before.args), true)
    case Refuse(f) =>
      Sweep(MarkDispatched(g, i), s.intents + [FailIntent(g.id, before, Some(f), None)], s.argumentBytes, true)
  }

  /** One visit of node `i`. */
  function AdvanceNode(c: Client, s: Sweep, i: nat): (r: Result<Sweep>)
    requires i < |s.graph.plan|
    ensures r.Ok? ==> |r.value.graph.plan| == |s.graph.plan|
  {
    var g := s.graph;
    var node := g.plan[i];
    if node.id in g.members || node.dispatched || !Ready(node, g.members) then Ok(s)
    else if node.kind.CollectNode? then
      Ok(s.(graph := g.(members := g.members[node.id := CollectMember(node, g.members)]), progress := true))
    else
      var index := FindChild(g.children, node.id);
      if node.signature.None? || index.None? || |node.deps| > 1 then Err(Invalid) else
        var failed := !AllSucceeded(Prereqs(node), g.members);
        var decision := Decide(c, node.signature.value, g.children[index.value], failed,
          OutputsOf(node.deps, g.members), s.argumentBytes);
        if decision.TooLarge? then Err(WorkflowSize) else Ok(HandOut(c, s, i, index.value, decision))
  }

  function SweepFrom(c: Client, s: Sweep, i: nat): (r: Result<Sweep>)
    requires i <= |s.graph.plan|
    ensures r.Ok? ==> |r.value.graph.plan| == |s.graph.plan|
    decreases |s.graph.plan| - i
  {
    if i == |s.graph.plan| then Ok(s) else
      match AdvanceNode(c, s, i)
      case Err(e) => Err(e)
      case Ok(s') => SweepFrom(c, s', i + 1)
  }

  /** Sweeps until one makes no progress, at most `turns` of them. */
  function Turns(c: Client, s: Sweep, turns: nat): Result<Sweep>
    decreases turns
  {
    if turns == 0 then Ok(s) else
      match SweepFrom(c, s.(progress := false), 0)
      case Err(e) => Err(e)
      case Ok(s') => if s'.progress then Turns(c, s', turns - 1) else Ok(s')
  }

  /** Hand every unfinished task from node `i` on to the cancellation path. */
  function CancelFrom(g: Graph, intents: seq<Intent>, i: nat): Result<(Graph, seq<Intent>)>
    requires i <= |g.plan|
    decreases |g.plan| - i
  {
    if i == |g.plan| then Ok((g, intents)) else
      var node := g.plan[i];
      if node.kind.CollectNode? || node.id in g.members then CancelFrom(g, intents, i + 1) else
        var index := FindChild(g.children, node.id);
        if index.None? then Err(Invalid)
        else CancelFrom(MarkDispatched(g, i),
               intents + [CancellationIntent(g.id, g.children[index.value], node.dispatched)], i + 1)
  }

  /** The last part: a recorded root settles the graph and releases the recorded children. */
  function Settle(g: Graph, intents: seq<Intent>): (Graph, seq<Intent>) {
    if g.rootNode.None? || g.rootNode.value !in g.members then (g, intents) else
      var root := g.members[g.rootNode.value].outcome;
      (if g.cancelRequested then g.(state := Revoked, output := None, failure := Some(WorkflowRevoked))
       else g.(state := root.state, output := root.output, failure := root.failure),
       intents + UnpinsOf(g, g.children))
  }

  function AdvanceNestedSpec(c: Client, g: Graph): Result<(Graph, seq<Intent>)> {
    if g.state.Terminal() then Ok((g, GraphUnpins(g)))
    else if |g.plan| > 2000 || |g.children| > 1000 || g.rootNode.None? then Err(Invalid)
    else
      match (if g.cancelRequested then CancelFrom(g, [], 0) else Ok((g, [])))
      case Err(e) => Err(e)
      case Ok((g1, intents)) =>
        match Turns(c, Sweep(g1, intents, ArgumentBytes(c, g1.children), false), |g1.plan| + 1)
        case Err(e) => Err(e)
        case Ok(s) => Ok(Settle(s.graph, s.intents))
  }

  method NodeInputs(node: CanvasNode, members: map<Id, Completion>) returns (ready: bool, failed: bool,
      outputs: seq<Option<Value>>)
    ensures ready == Ready(node, members)
    ensures ready ==> failed == !AllSucceeded(Prereqs(node), members) && outputs == OutputsOf(node.deps, members)
  {
    ready, failed, outputs := true, false, [];
    for i := 0 to |node.deps|
      invariant ready && forall j | 0 <= j < i :: node.deps[j] in members
      invariant failed <==> exists j | 0 <= j < i :: members[node.deps[j]].outcome.state != Succeeded
      invariant outputs == OutputsOf(node.deps[..i], members)
    {
      if node.deps[i] !in members {
        assert node.deps[i] in Prereqs(node);
        return false, failed, outputs;
      }
      failed := failed || members[node.deps[i]].outcome.state != Succeeded;
      outputs := outputs + [members[node.deps[i]].outcome.output];
    }
    assert node.deps[..|node.deps|] == node.deps;
    ghost var depsFailed := failed;
    assert depsFailed <==> exists j | 0 <= j < |node.deps| :: members[node.deps[j]].outcome.state != Succeeded;
    for i := 0 to |node.waitFor|
      invariant ready && forall j | 0 <= j < i :: node.waitFor[j] in members
      invariant failed <==> depsFailed || exists j | 0 <= j < i :: members[node.waitFor[j]].outcome.state != Succeeded
    {
      if node.waitFor[i] !in members {
        assert node.waitFor[i] in Prereqs(node);
        return false, failed, outputs;
      }
      failed := failed || members[node.waitFor[i]].outcome.state != Succeeded;
    }
    FailedMeansSome(node, members);
  }

  lemma FailedMeansSome(node: CanvasNode, members: map<Id, Completion>)
    requires forall j | 0 <= j < |node.deps| :: node.deps[j] in members
    requires forall j | 0 <= j < |node.waitFor| :: node.waitFor[j] in members
    ensures Ready(node, members)
    ensures !AllSucceeded(Prereqs(node), members) <==>
            ((exists j | 0 <= j < |node.deps| :: members[node.deps[j]].outcome.state != Succeeded) ||
             (exists j | 0 <= j < |node.waitFor| :: members[node.waitFor[j]].outcome.state != Succeeded))
  {
    forall j | 0 <= j < |node.deps| ensures node.deps[j] in Prereqs(node) {}
    forall j | 0 <= j < |node.waitFor| ensures node.waitFor[j] in Prereqs(node) {}
  }

  /** The children index map and the argument byte count of the source's first loop. */
  method IndexChildren(c: Client, children: seq<Envelope>) returns (index: map<Id, nat>, argumentBytes: nat)
    ensures forall id ::
              if id in index then FindChild(children, id) == Some(index[id]) else FindChild(children, id).None?
    ensures argumentBytes == ArgumentBytes(c, children)
  {
    index, argumentBytes := map[], 0;
    for i := 0 to |children|
      invariant forall id ::
                  if id in index then FindChild(children[..i], id) ==
                    Some(index[id]) else FindChild(children[..i], id).None?
      invariant argumentBytes == ArgumentBytes(c, children[..i])
    {
      assert children[..i + 1][..i] == children[..i];
      index := index[children[i].id := i];
      argumentBytes := argumentBytes + c.bytes(children[i].args);
    }
    assert children[..|children|] == children;
  }

  method VisitNode(c: Client, s: Sweep, i: nat) returns (r: Result<Sweep>)
    requires i < |s.graph.plan|
    ensures r == AdvanceNode(c, s, i)
  {
    var graph, intents, argumentBytes := s.graph, s.intents, s.argumentBytes;
    var node := graph.plan[i];
    if node.id in graph.members || node.dispatched { return Ok(s); }
    var ready, failed, outputs := NodeInputs(node, graph.members);
    if !ready { return Ok(s); }
    if node.kind.CollectNode? {
      var member := Completion(node.id, Outcome(Succeeded, None, None));
      if failed {
        member := member.(outcome := Outcome(Failed, None, Some(GroupFailed)));
      } else {
        member := member.(outcome := Outcome(Succeeded, Some(MarshalList(outputs)), None));
      }
      graph := graph.(members := graph.members[node.id := member]);
      return Ok(Sweep(graph, intents, argumentBytes, true));
    }
    var index, _ := IndexChildren(c, graph.children);
    if node.signature.None? || node.id !in index || |outputs| > 1 { return Err(Invalid); }
    var envelope := graph.children[index[node.id]];
    var decision := Decide(c, node.signature.value, envelope, failed, outputs, argumentBytes);
    if decision.TooLarge? { return Err(WorkflowSize); }
    var intent := DispatchIntent(graph.id, envelope);
    if decision.Refuse? {
      intent := FailIntent(graph.id, envelope, Some(decision.failure), None);
    } else {
      argumentBytes := argumentBytes + c.bytes(decision.envelope.args) - c.bytes(envelope.args);
      envelope := decision.envelope;
      intent := DispatchIntent(graph.id, envelope);
    }
    assert graph.children[index[node.id] := graph.children[index[node.id]]] == graph.children;
    graph := graph.(children := graph.children[index[node.id] := envelope],
      plan := graph.plan[i := node.(dispatched := true)]);
    r := Ok(Sweep(graph, intents + [intent], argumentBytes, true));
  }

  method AdvanceNested(c: Client, g: Graph) returns (r: Result<(Graph, seq<Intent>)>)
    ensures r == AdvanceNestedSpec(c, g)
  {
    hide Settle, GraphUnpins, ArgumentBytes, CancelFrom;
    if g.state.Terminal() { return Ok((g, GraphUnpins(g))); }
    if |g.plan| > 2000 || |g.children| > 1000 || g.rootNode.None? { return Err(Invalid); }
    var start: Result<(Graph, seq<Intent>)> := Ok((g, []));
    if g.cancelRequested { start := CancelTasks(c, g); }
    if start.Err? { return Err(start.error); }
    var (g1, intents) := start.value;
    var _, argumentBytes := IndexChildren(c, g1.children);
    var s := Sweep(g1, intents, argumentBytes, false);
    var turn := 0;
    var going := true;
    while going && turn <= |g1.plan|
      invariant turn <= |g1.plan| + 1
      invariant going ==>
                  Turns(c, s, |g1.plan| + 1 - turn) == Turns(c, Sweep(g1, intents, argumentBytes, false), |g1.plan| + 1)
      invariant !going ==> Turns(c, Sweep(g1, intents, argumentBytes, false), |g1.plan| + 1) == Ok(s)
      decreases going, |g1.plan| + 1 - turn
    {
      var swept := SweepPlan(c, s.(progress := false));
      if swept.Err? { return Err(swept.error); }
      s := swept.value;
      going := s.progress;
      turn := turn + 1;
    }
    r := Ok(Settle(s.graph, s.intents));
  }

  method SweepPlan(c: Client, s: Sweep) returns (r: Result<Sweep>)
    ensures r == SweepFrom(c, s, 0)
  {
    var current := s;
    for i := 0 to |s.graph.plan|
      invariant |current.graph.plan| == |s.graph.plan|
      invariant SweepFrom(c, current, i) == SweepFrom(c, s, 0)
    {
      var visited := VisitNode(c, current, i);
      if visited.Err? { return Err(visited.error); }
      current := visited.value;
    }
    r := Ok(current);
  }

  method CancelTasks(c: Client, g: Graph) returns (r: Result<(Graph, seq<Intent>)>)
    ensures r == CancelFrom(g, [], 0)
  {
    var index, _ := IndexChildren(c, g.children);
    var graph, intents := g, [];
    for i := 0 to |g.plan|
      invariant |graph.plan| == |g.plan| && graph.children == g.children
      invariant CancelFrom(graph, intents, i) == CancelFrom(g, [], 0)
    {
      var node := graph.plan[i];
      if node.kind.CollectNode? || node.id in graph.members { continue; }
      if node.id !in index { return Err(Invalid); }
      intents := intents + [CancellationIntent(graph.id, graph.children[index[node.id]], node.dispatched)];
      graph := MarkDispatched(graph, i);
    }
    r := Ok((graph, intents));
  }
}
