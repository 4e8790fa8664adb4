/** async/canvas.go, async/canvas_cancel.go, async/canvas_limits.go: the flat chain, group and
    chord machines, the cancelled and budget-aborted modes, and `advance`, which picks one. */
module Engine {
  import opened Protocol
  import opened Compiler
  import opened Nested

  type Advanced = Result<(Graph, seq<Intent>)>

  /** Settle a flat graph and release its recorded members. */
  function Finish(g: Graph, state: State, output: Option<Value>): (Graph, seq<Intent>) {
    (g.(state := state, output := output), GraphUnpins(g))
  }

  predicate BindFails(c: Client, s: Signature, upstream: Option<Value>) {
    !s.immutable && s.parentField.Some? && BindArgs(c, s, upstream).None?
  }

  /** The chain machine, for a chain that is empty or still has a current child. */
  function AdvanceChain(c: Client, g: Graph): Advanced
    requires g.children == [] || g.next < |g.children|
  {
    if g.children == [] then Ok(Finish(g, Succeeded, Some(List([]))))
    else if g.children[g.next].id !in g.members then Ok((g, []))
    else
      var completed := g.members[g.children[g.next].id].outcome;
      if completed.state != Succeeded then Ok(Finish(g.(failure := Some(ChainFailed)), Failed, None)) else
        var g1 := g.(next := g.next + 1);
        if g1.next == |g1.children| then Ok(Finish(g1, Succeeded, completed.output))
        else if g1.next >= |g1.signatures| then Err(Invalid)
        else if BindFails(c, g1.signatures[g1.next], completed.output) then
          Ok(Finish(g1.(failure := Some(ChainInput)), Failed, None))
        else StartChild(c, g1, BindArgs(c, g1.signatures[g1.next], completed.output))
  }

  /** Hand out the chain's current child, or fail it when it cannot take the arguments. */
  function StartChild(c: Client, g: Graph, args: Option<Value>): Advanced
    requires g.next < |g.children| && g.next < |g.signatures|
  {
    var s, child := g.signatures[g.next], g.children[g.next];
    if !c.known(s.task) then Err(UnknownTask)
    else if args.None? || !c.validate(s.task, args.value) || !c.admits(child.(args := args.value)) then
      Ok((g, [FailIntent(g.id, child, None, None)]))
    else
      var started := child.(args := args.value);
      Ok((g.(children := g.children[g.next := started]), [DispatchIntent(g.id, started)]))
  }

  function ChildIds(children: seq<Envelope>): seq<Id> {
    seq(|children|, i requires 0 <= i < |children| => children[i].id)
  }

  predicate AllRecorded(ids: seq<Id>, members: map<Id, Completion>) {
    forall i | 0 <= i < |ids| :: ids[i] in members
  }

  /** The group and chord machines: a barrier over the children, then the chord's body. */
  function AdvanceBarrier(c: Client, g: Graph): Advanced {
    if g.callbackClaimed then
      if g.callbackId.None? || g.callbackId.value !in g.members then Ok((g, [])) else
        var body := g.members[g.callbackId.value].outcome;
        Ok(Finish(if body.state != Succeeded then g.(failure := body.failure) else g, body.state, body.output))
    else if !AllRecorded(ChildIds(g.children), g.members) then Ok((g, []))
    else if !AllSucceeded(ChildIds(g.children),
              g.members) then Ok(Finish(g.(failure := Some(GroupFailed)), Failed, None))
    else
      var combined := MarshalList(OutputsOf(ChildIds(g.children), g.members));
      match g.kind
      case Group => Ok(Finish(g, Succeeded, Some(combined)))
      case Chord => StartBody(c, g, combined)
      case _ => Err(Invalid)
  }

  function StartBody(c: Client, g: Graph, combined: Value): Advanced {
    if g.callback.None? || g.callbackId.None? then Err(Invalid) else
      var s := g.callback.value;
      var args := BindArgs(c, s, Some(combined));
      var prepared := if args.None? then None else Prepare(c, s.(args := args.value), g.callbackId.value);
      if prepared.None? then Ok(Finish(g.(failure := Some(ChordInput)), Failed, None)) else
        var e := prepared.value.(workflow := Some(g.id), root := Some(g.id), parent := Some(g.id));
        Ok((g.(callbackClaimed := true, callbackEnvelope := Some(e)), [DispatchIntent(g.id, e)]))
  }

  function AdvanceFlat(c: Client, g: Graph): Advanced {
    if g.kind.Chain? && (g.children == [] || g.next < |g.children|) then AdvanceChain(c, g) else AdvanceBarrier(c, g)
  }

  /** Whether the flat machine has already handed out child `i`. */
  predicate FlatDispatched(g: Graph, i: nat) { !g.kind.Chain? || i <= g.next }

  function CancelChildren(g: Graph, i: nat): seq<Intent>
    requires i <= |g.children|
    decreases i
  {
    if i == 0 then [] else
      var front := CancelChildren(g, i - 1);
      var child := g.children[i - 1];
      if child.id in g.members then front else front + [CancellationIntent(g.id, child, FlatDispatched(g, i - 1))]
  }

  predicate BodyPending(g: Graph) {
    g.callbackClaimed && (g.callbackId.None? || g.callbackId.value !in g.members)
  }

  /** A cancelled flat graph waits for every child and a claimed body, then is revoked. */
  function AdvanceCanceledSpec(g: Graph): Advanced {
    var childIntents := CancelChildren(g, |g.children|);
    if BodyPending(g) then
      if g.callbackEnvelope.None? then Err(Unavailable)
      else Ok((g, childIntents + [CancellationIntent(g.id, g.callbackEnvelope.value, true)]))
    else if AllRecorded(ChildIds(g.children), g.members) then
      Ok((g.(state := Revoked, output := None, failure := Some(WorkflowRevoked)), childIntents + GraphUnpins(g)))
    else Ok((g, childIntents))
  }

  function ClearOutputs(members: map<Id, Completion>): map<Id, Completion> {
    map id | id in members :: members[id].(outcome := members[id].outcome.(output := None))
  }

  /** Aborting a DAG fails every task that was not handed out. */
  function AbortNodes(g: Graph, intents: seq<Intent>, i: nat): Advanced
    requires i <= |g.plan|
    decreases |g.plan| - i
  {
    if i == |g.plan| then Ok((g, intents)) else
      var node := g.plan[i];
      if node.kind.CollectNode? || node.id in g.members || node.dispatched then AbortNodes(g, intents, i + 1) else
        var index := FindChild(g.children, node.id);
        if index.None? then Err(Invalid)
        else AbortNodes(MarkDispatched(g, i),
               intents + [FailIntent(g.id, g.children[index.value], g.abortFailure, Some(Failed))], i + 1)
  }

  function AbortChildren(g: Graph, i: nat): seq<Intent>
    requires i <= |g.children|
    decreases i
  {
    if i == 0 then [] else
      var front := AbortChildren(g, i - 1);
      var child := g.children[i - 1];
      if child.id in g.members || FlatDispatched(g, i - 1) then front
      else front + [FailIntent(g.id, child, g.abortFailure, Some(Failed))]
  }

  /** Every task of the graph has a recorded outcome. */
  predicate Finished(g: Graph) {
    if g.kind.Dag? then forall i | 0 <= i < |g.plan| && g.plan[i].kind.TaskNode? :: g.plan[i].id in g.members
    else AllRecorded(ChildIds(g.children), g.members) && !BodyPending(g)
  }

  function AdvanceAbortedSpec(g: Graph): Advanced {
    if g.abortFailure.None? then Err(Invalid) else
      var cleared := g.(members := ClearOutputs(g.members), output := None);
      match (if g.kind.Dag? then AbortNodes(cleared, [],
        0) else Ok((cleared, AbortChildren(cleared, |cleared.children|))))
      case Err(e) => Err(e)
      case Ok((g1, intents)) =>
        if Finished(g1) then Ok((g1.(state := Failed, failure := g1.abortFailure), intents + GraphUnpins(g1)))
        else Ok((g1, intents))
  }

  /** async/replacement.go: a settled replacement graph reports to the task it replaced. */
  function ReplacementCompletionIntents(g: Graph): seq<Intent> {
    if g.originTask.None? || !g.state.Terminal() then [] else
      [Intent(Stable(g.id, ReplacementCompletionLabel), g.id,
              CompleteReplacement(g.id, g.originTask.value,
                Completion(g.originTask.value, Outcome(g.state, g.output, g.failure))))]
  }

  function AdvanceGraphSpec(c: Client, g: Graph): Advanced {
    if g.state.Terminal() then Ok((g, GraphUnpins(g)))
    else if g.kind.Dag? then AdvanceNestedSpec(c, g)
    else if g.cancelRequested then AdvanceCanceledSpec(g)
    else AdvanceFlat(c, g)
  }

  function BudgetLimit(g: Graph): nat {
    if g.cancelRequested then MaxWorkflowDurableBytes else MaxWorkflowWorkingBytes
  }

  /** Whether this advance leaves the normal or cancelled mode for the aborted one. */
  predicate OverBudget(c: Client, g: Graph) {
    match AdvanceGraphSpec(c, g)
    case Err(e) => e == WorkflowSize
    case Ok((next, intents)) => !c.fits(next, intents, BudgetLimit(g))
  }

  /** The mode `advance` runs in, before replacement completions are added. */
  function AdvanceMode(c: Client, g: Graph): Advanced {
    if g.abortFailure.Some? && !g.cancelRequested then AdvanceAbortedSpec(g)
    else if OverBudget(c, g) then AdvanceAbortedSpec(g.(abortFailure := Some(BudgetExceeded)))
    else AdvanceGraphSpec(c, g)
  }

  function AdvanceSpec(c: Client, g: Graph): Advanced {
    match AdvanceMode(c, g)
    case Err(e) => Err(e)
    case Ok((next, intents)) => Ok((next, intents + ReplacementCompletionIntents(next)))
  }

  method Barrier(g: Graph) returns (waiting: bool, failed: bool, outputs: seq<Option<Value>>)
    ensures waiting == !AllRecorded(ChildIds(g.children), g.members)
    ensures !waiting ==>
              failed == !AllSucceeded(ChildIds(g.children), g.members) &&
              outputs == OutputsOf(ChildIds(g.children), g.members)
  {
    ghost var ids := ChildIds(g.children);
    failed, outputs := false, [];
    for i := 0 to |g.children|
      invariant forall j | 0 <= j < i :: ids[j] in g.members
      invariant failed <==> exists j | 0 <= j < i :: g.members[ids[j]].outcome.state != Succeeded
      invariant outputs == OutputsOf(ids[..i], g.members)
    {
      var id := g.children[i].id;
      assert id == ids[i];
      if id !in g.members { return true, failed, outputs; }
      failed := failed || g.members[id].outcome.state != Succeeded;
      outputs := outputs + [g.members[id].outcome.output];
    }
    assert ids[..|ids|] == ids;
    waiting := false;
  }

  method RunBarrier(c: Client, g: Graph) returns (r: Advanced)
    ensures r == AdvanceBarrier(c, g)
  {
    if g.callbackClaimed { return AdvanceBarrier(c, g); }
    var waiting, failed, outputs := Barrier(g);
    if waiting { return Ok((g, [])); }
    if failed { return Ok(Finish(g.(failure := Some(GroupFailed)), Failed, None)); }
    match g.kind
    case Group => r := Ok(Finish(g, Succeeded, Some(MarshalList(outputs))));
    case Chord => r := StartBody(c, g, MarshalList(outputs));
    case _ => r := Err(Invalid);
  }

  method AdvanceCanceled(g: Graph) returns (r: Advanced)
    ensures r == AdvanceCanceledSpec(g)
  {
    var intents, finished := [], true;
    for index := 0 to |g.children|
      invariant intents == CancelChildren(g, index)
      invariant finished <==> forall j | 0 <= j < index :: ChildIds(g.children)[j] in g.members
    {
      var child := g.children[index];
      assert ChildIds(g.children)[index] == child.id;
      if child.id in g.members { continue; }
      finished := false;
      intents := intents + [CancellationIntent(g.id, child, !g.kind.Chain? || index <= g.next)];
    }
    if g.callbackClaimed && (g.callbackId.None? || g.callbackId.value !in g.members) {
      finished := false;
      if g.callbackEnvelope.None? { return Err(Unavailable); }
      intents := intents + [CancellationIntent(g.id, g.callbackEnvelope.value, true)];
    }
    if finished {
      return Ok((g.(state := Revoked, output := None, failure := Some(WorkflowRevoked)), intents + GraphUnpins(g)));
    }
    r := Ok((g, intents));
  }

  method AbortDag(g: Graph) returns (r: Advanced, finished: bool)
    ensures r == AbortNodes(g, [], 0)
    ensures finished <==> forall i | 0 <= i < |g.plan| && g.plan[i].kind.TaskNode? :: g.plan[i].id in g.members
  {
    var graph, intents := g, [];
    finished := true;
    var failed: Option<Error> := None;
    for i := 0 to |g.plan|
      invariant |graph.plan| == |g.plan| && graph.members == g.members
      invariant forall j | i <= j < |g.plan| :: graph.plan[j] == g.plan[j]
      invariant failed.None? ==> AbortNodes(graph, intents, i) == AbortNodes(g, [], 0)
      invariant failed.Some? ==> AbortNodes(g, [], 0) == Err(failed.value)
      invariant finished <==> forall j | 0 <= j < i && g.plan[j].kind.TaskNode? :: g.plan[j].id in g.members
    {
      var node := graph.plan[i];
      if node.kind.CollectNode? || node.id in graph.members { continue; }
      finished := false;
      if !node.dispatched && failed.None? {
        var child := FindChild(graph.children, node.id);
        if child.None? {
          failed := Some(Invalid);
        } else {
          intents := intents + [FailIntent(graph.id, graph.children[child.value], graph.abortFailure, Some(Failed))];
          graph := MarkDispatched(graph, i);
        }
      }
    }
    r := if failed.Some? then Err(failed.value) else Ok((graph, intents));
  }

  method AbortFlat(g: Graph) returns (intents: seq<Intent>, finished: bool)
    ensures intents == AbortChildren(g, |g.children|)
    ensures finished <==> AllRecorded(ChildIds(g.children), g.members) && !BodyPending(g)
  {
    intents, finished := [], true;
    for index := 0 to |g.children|
      invariant intents == AbortChildren(g, index)
      invariant finished <==> forall j | 0 <= j < index :: ChildIds(g.children)[j] in g.members
    {
      var child := g.children[index];
      assert ChildIds(g.children)[index] == child.id;
      if child.id in g.members { continue; }
      finished := false;
      if g.kind.Chain? && index > g.next {
        intents := intents + [FailIntent(g.id, child, g.abortFailure, Some(Failed))];
      }
    }
    if g.callbackClaimed && (g.callbackId.None? || g.callbackId.value !in g.members) { finished := false; }
  }

  lemma {:induction false} AbortNodesKeeps(g: Graph, intents: seq<Intent>, i: nat)
    requires i <= |g.plan| && AbortNodes(g, intents, i).Ok?
    ensures var g1 := AbortNodes(g, intents, i).value.0;
            g1.members == g.members && g1.kind == g.kind && |g1.plan| == |g.plan| &&
            forall j | 0 <= j < |g.plan| :: g1.plan[j] == g.plan[j].(dispatched := g1.plan[j].dispatched)
    decreases |g.plan| - i
  {
    if i < |g.plan| {
      var node := g.plan[i];
      if node.kind.CollectNode? || node.id in g.members || node.dispatched {
        AbortNodesKeeps(g, intents, i + 1);
      } else {
        var index := FindChild(g.children, node.id);
        AbortNodesKeeps(MarkDispatched(g, i),
          intents + [FailIntent(g.id, g.children[index.value], g.abortFailure, Some(Failed))], i + 1);
      }
    }
  }

  method AdvanceAborted(g: Graph) returns (r: Advanced)
    ensures r == AdvanceAbortedSpec(g)
  {
    if g.abortFailure.None? { return Err(Invalid); }
    var graph := g.(members := ClearOutputs(g.members), output := None);
    var intents, finished := [], true;
    if graph.kind.Dag? {
      var aborted, done := AbortDag(graph);
      if aborted.Err? { return aborted; }
      AbortNodesKeeps(graph, [], 0);
      finished := done;
      intents := aborted.value.1;
      assert done <==> Finished(aborted.value.0);
      graph := aborted.value.0;
    } else {
      intents, finished := AbortFlat(graph);
    }
    if finished {
      return Ok((graph.(state := Failed, failure := graph.abortFailure), intents + GraphUnpins(graph)));
    }
    r := Ok((graph, intents));
  }

  method Advance(c: Client, g: Graph) returns (r: Advanced)
    ensures r == AdvanceSpec(c, g)
  {
    var advanced: Advanced;
    if g.abortFailure.Some? && !g.cancelRequested {
      advanced := AdvanceAborted(g);
    } else {
      if g.state.Terminal() { advanced := Ok((g, GraphUnpins(g))); }
      else if g.kind.Dag? { advanced := AdvanceNested(c, g); }
      else if g.cancelRequested { advanced := AdvanceCanceled(g); }
      else if g.kind.Chain? && (g.children == [] || g.next < |g.children|) { advanced := AdvanceChain(c, g); }
      else { advanced := RunBarrier(c, g); }
      if advanced == Err(WorkflowSize) ||
         (advanced.Ok? && !c.fits(advanced.value.0, advanced.value.1, BudgetLimit(g))) {
        advanced := AdvanceAborted(g.(abortFailure := Some(BudgetExceeded)));
      }
    }
    if advanced.Err? { return advanced; }
    var (next, intents) := advanced.value;
    r := Ok((next, intents + ReplacementCompletionIntents(next)));
  }

  // ---- an advance never renames a graph or touches its revision ----

  predicate SameIdentity(g: Graph, g': Graph) { g'.id == g.id && g'.revision == g.revision }

  lemma VisitIdentity(c: Client, s: Sweep, i: nat)
    requires i < |s.graph.plan| && AdvanceNode(c, s, i).Ok?
    ensures SameIdentity(s.graph, AdvanceNode(c, s, i).value.graph)
  {
    hide Decide;
  }

  lemma {:induction false} SweepIdentity(c: Client, s: Sweep, i: nat)
    requires i <= |s.graph.plan| && SweepFrom(c, s, i).Ok?
    ensures SameIdentity(s.graph, SweepFrom(c, s, i).value.graph)
    decreases |s.graph.plan| - i
  {
    hide AdvanceNode;
    if i < |s.graph.plan| {
      VisitIdentity(c, s, i);
      SweepIdentity(c, AdvanceNode(c, s, i).value, i + 1);
    }
  }

  lemma {:induction false} TurnsIdentity(c: Client, s: Sweep, turns: nat)
    requires Turns(c, s, turns).Ok?
    ensures SameIdentity(s.graph, Turns(c, s, turns).value.graph)
    decreases turns
  {
    hide SweepFrom;
    if turns > 0 {
      SweepIdentity(c, s.(progress := false), 0);
      var q := SweepFrom(c, s.(progress := false), 0).value;
      if q.progress { TurnsIdentity(c, q, turns - 1); }
    }
  }

  lemma {:induction false} CancelIdentity(g: Graph, intents: seq<Intent>, i: nat)
    requires i <= |g.plan| && CancelFrom(g, intents, i).Ok?
    ensures SameIdentity(g, CancelFrom(g, intents, i).value.0)
    decreases |g.plan| - i
  {
    if i < |g.plan| {
      var node := g.plan[i];
      if node.kind.CollectNode? || node.id in g.members {
        CancelIdentity(g, intents, i + 1);
      } else {
        var e := g.children[FindChild(g.children, node.id).value];
        CancelIdentity(MarkDispatched(g, i), intents + [CancellationIntent(g.id, e, node.dispatched)], i + 1);
      }
    }
  }

  lemma {:induction false} AbortIdentity(g: Graph, intents: seq<Intent>, i: nat)
    requires i <= |g.plan| && AbortNodes(g, intents, i).Ok?
    ensures SameIdentity(g, AbortNodes(g, intents, i).value.0)
    decreases |g.plan| - i
  {
    if i < |g.plan| {
      var node := g.plan[i];
      if node.kind.CollectNode? || node.id in g.members || node.dispatched {
        AbortIdentity(g, intents, i + 1);
      } else {
        var e := g.children[FindChild(g.children, node.id).value];
        AbortIdentity(MarkDispatched(g, i), intents + [FailIntent(g.id, e, g.abortFailure, Some(Failed))], i + 1);
      }
    }
  }

  lemma GraphIdentity(c: Client, g: Graph)
    requires AdvanceGraphSpec(c, g).Ok?
    ensures SameIdentity(g, AdvanceGraphSpec(c, g).value.0)
  {
    hide Turns, CancelFrom, GraphUnpins, UnpinsOf, ArgumentBytes, Prepare, BindArgs, CancelChildren, MarshalList,
           AllRecorded, AllSucceeded;
    if !g.state.Terminal() && g.kind.Dag? {
      var start: Advanced := if g.cancelRequested then CancelFrom(g, [], 0) else Ok((g, []));
      if g.cancelRequested { CancelIdentity(g, [], 0); }
      TurnsIdentity(c, Sweep(start.value.0, start.value.1, ArgumentBytes(c, start.value.0.children), false),
        |start.value.0.plan| + 1);
    }
  }

  lemma AbortedIdentity(g: Graph)
    requires AdvanceAbortedSpec(g).Ok?
    ensures SameIdentity(g, AdvanceAbortedSpec(g).value.0)
  {
    hide AbortNodes, Finished, GraphUnpins, AbortChildren;
    if g.kind.Dag? { AbortIdentity(g.(members := ClearOutputs(g.members), output := None), [], 0); }
  }

  lemma AdvanceIdentity(c: Client, g: Graph)
    requires AdvanceSpec(c, g).Ok?
    ensures SameIdentity(g, AdvanceSpec(c, g).value.0)
  {
    hide AdvanceGraphSpec, AdvanceAbortedSpec, ReplacementCompletionIntents;
    if g.abortFailure.Some? && !g.cancelRequested { AbortedIdentity(g); }
    else if OverBudget(c, g) { AbortedIdentity(g.(abortFailure := Some(BudgetExceeded))); }
    else { GraphIdentity(c, g); }
  }
}
