/** What every stored DAG workflow satisfies, in every mode, and its preservation by the small
    moves an advance is made of: recording a member, visiting a node, handing a task to the
    cancellation or abort path, and settling. */
module DagInvariant {
  import opened Protocol
  import opened Compiler
  import opened Plans
  import opened Nested
  import opened IntentHash

  function DispatchId(g: Graph, task: Id): Id { Stable(g.id, DispatchLabel(task)) }
  function CancelId(g: Graph, task: Id): Id { Stable(g.id, CancelLabel(task)) }
  function UnpinId(g: Graph, task: Id): Id { Stable(g.id, UnpinLabel(task)) }

  predicate IsTask(g: Graph, id: Id) {
    exists i | 0 <= i < |g.plan| :: g.plan[i].kind.TaskNode? && g.plan[i].id == id
  }

  /** The identity of a stored intent fixes what it is about; releases come only after settling. */
  predicate IntentOk(g: Graph, key: Id, x: Intent) {
    x.id == key && x.source == g.id &&
    match x.payload
    case Publish(e) => key == DispatchId(g, e.id) && IsTask(g, e.id) && Owned(g, e)
    case Fail(e, _, _) => (key == DispatchId(g, e.id) || key == CancelId(g, e.id)) && IsTask(g, e.id) && Owned(g, e)
    case CancelTask(e) => key == CancelId(g, e.id) && IsTask(g, e.id) && Owned(g, e)
    case Unpin(t) => key == UnpinId(g, t) && g.state.Terminal() && t in g.members
    case CompleteReplacement(w, t, m) =>
      key == Stable(g.id, ReplacementCompletionLabel) && g.state.Terminal() && w == g.id && g.originTask == Some(t) &&
      m.id == t && m.outcome.state.Terminal()
    case _ => false
  }

  predicate IntentsOk(g: Graph, s: Intents) { forall k | k in s :: IntentOk(g, k, s[k]) }

  predicate HandedOut(g: Graph, s: Intents, task: Id) {
    DispatchId(g, task) in s || (CancelId(g, task) in s && s[CancelId(g, task)].payload.Fail?)
  }

  /** Node `i` and the intents stored for it agree. */
  predicate NodeInv(g: Graph, s: Intents, i: nat)
    requires i < |g.plan|
  {
    var node := g.plan[i];
    var d, k := DispatchId(g, node.id), CancelId(g, node.id);
    match node.kind
    case CollectNode => !node.dispatched
    case TaskNode =>
      (!node.dispatched ==> node.id !in g.members && d !in s && k !in s && Pristine(g, i)) &&
      (node.dispatched ==> HandedOut(g, s, node.id)) &&
      (d in s && s[d].payload.Publish? ==> AllSucceeded(Prereqs(node), g.members)) &&
      (k in s && s[k].payload.Fail? ==> d !in s) &&
      (k in s ==> g.cancelRequested)
  }

  /** The child of a task that was not handed out still carries its declared arguments. */
  predicate Pristine(g: Graph, i: nat)
    requires i < |g.plan|
  {
    var node := g.plan[i];
    node.signature.Some? && TaskIndex(node.id) < |g.children| &&
    g.children[TaskIndex(node.id)].args == node.signature.value.args
  }

  predicate MembersOk(g: Graph) {
    forall id | id in g.members ::
      Planned(g.plan, id) && g.members[id].id == id && g.members[id].outcome.state.Terminal()
  }

  predicate NodesInv(g: Graph, s: Intents) { forall i | 0 <= i < |g.plan| :: NodeInv(g, s, i) }

  predicate Static(g: Graph) {
    g.kind.Dag? && PlanOk(g) && AllLeadToRoot(g) && |g.plan| <= 2000 && |g.children| <= 1000 &&
    g.callbackId.None? && !g.callbackClaimed && MatchedPlan(g)
  }

  /** Every task node's child carries its signature's task and scope. */
  predicate MatchedPlan(g: Graph) { forall i | 0 <= i < |g.plan| :: MatchedNode(g, i) }

  predicate StateOk(g: Graph) { g.state == Running || g.state.Terminal() }

  predicate Core(g: Graph, s: Intents) {
    Static(g) && StateOk(g) && MembersOk(g) && NodesInv(g, s) && IntentsOk(g, s)
  }

  /** Same plan up to dispatch flags, same children up to arguments. */
  predicate SameShape(g: Graph, g': Graph) {
    g'.id == g.id && g'.kind == g.kind && g'.scope == g.scope && g'.rootNode == g.rootNode &&
    g'.originTask == g.originTask && g'.originDigest == g.originDigest &&
    g'.callbackId == g.callbackId && g'.callbackClaimed == g.callbackClaimed &&
    |g'.plan| == |g.plan| && |g'.children| == |g.children| &&
    (forall i | 0 <= i < |g.plan| :: g'.plan[i] == g.plan[i].(dispatched := g'.plan[i].dispatched)) &&
    (forall n | 0 <= n < |g.children| :: g'.children[n] == g.children[n].(args := g'.children[n].args))
  }

  lemma SameShapePlanned(g: Graph, g': Graph, i: nat, id: Id)
    requires SameShape(g, g') && i <= |g.plan|
    ensures KnownBefore(g.plan, i, id) <==> KnownBefore(g'.plan, i, id)
  {
    if KnownBefore(g.plan, i, id) {
      var j :| 0 <= j < i && g.plan[j].id == id;
      assert g'.plan[j].id == id;
    }
    if KnownBefore(g'.plan, i, id) {
      var j :| 0 <= j < i && g'.plan[j].id == id;
      assert g.plan[j].id == id;
    }
  }

  lemma SameShapePlanOk(g: Graph, g': Graph)
    requires SameShape(g, g') && PlanOk(g)
    ensures PlanOk(g')
  {
    forall i | 0 <= i < |g'.plan| ensures NodeShape(g', i) { assert NodeShape(g, i); }
    forall i, d | 0 <= i < |g'.plan| && d in Prereqs(g'.plan[i]) ensures KnownBefore(g'.plan, i, d) {
      assert d in Prereqs(g.plan[i]);
      SameShapePlanned(g, g', i, d);
    }
    forall n | 0 <= n < |g'.children| ensures Planned(g'.plan, TaskId(g'.id, n)) {
      SameShapePlanned(g, g', |g.plan|, TaskId(g.id, n));
    }
  }

  lemma SameShapeMatched(g: Graph, g': Graph)
    requires SameShape(g, g') && MatchedPlan(g)
    ensures MatchedPlan(g')
  {
    forall i | 0 <= i < |g'.plan| ensures MatchedNode(g', i) { assert MatchedNode(g, i); }
  }

  lemma SameShapeStatic(g: Graph, g': Graph)
    requires SameShape(g, g') && Static(g)
    ensures Static(g')
  {
    SameShapePlanOk(g, g');
    SameShapeMatched(g, g');
    hide PlanOk, MatchedPlan;
    SameShapePlanned(g, g', |g.plan|, g.rootNode.value);
    forall i | 0 <= i < |g'.plan| ensures g'.plan[i].id in {g'.rootNode.value} || Consumed(g'.plan, i) {
      assert g.plan[i].id in {g.rootNode.value} || Consumed(g.plan, i);
      if Consumed(g.plan, i) {
        var j :| i < j < |g.plan| && g.plan[i].id in Prereqs(g.plan[j]);
        assert g'.plan[i].id in Prereqs(g'.plan[j]);
      }
    }
  }

  lemma SameShapeIsTask(g: Graph, g': Graph, id: Id)
    requires SameShape(g, g')
    ensures IsTask(g, id) <==> IsTask(g', id)
  {
    if IsTask(g, id) {
      var i :| 0 <= i < |g.plan| && g.plan[i].kind.TaskNode? && g.plan[i].id == id;
      assert g'.plan[i].kind.TaskNode? && g'.plan[i].id == id;
    }
    if IsTask(g', id) {
      var i :| 0 <= i < |g'.plan| && g'.plan[i].kind.TaskNode? && g'.plan[i].id == id;
      assert g.plan[i].kind.TaskNode? && g.plan[i].id == id;
    }
  }

  /** A recorded completion keeps its state and failure; only its output may be dropped. */
  predicate Kept(m: Completion, m': Completion) {
    m'.id == m.id && (m'.outcome == m.outcome || m'.outcome == m.outcome.(output := None))
  }

  predicate MembersKept(m: map<Id, Completion>, m': map<Id, Completion>) {
    forall id | id in m :: id in m' && Kept(m[id], m'[id])
  }

  /** A node whose own state and intents are untouched keeps its invariant. */
  lemma NodeFrame(g: Graph, s: Intents, g': Graph, s': Intents, i: nat)
    requires SameShape(g, g') && i < |g.plan| && NodeInv(g, s, i)
    requires g'.plan[i] == g.plan[i] && (g.plan[i].kind.TaskNode? && Pristine(g, i) ==> Pristine(g', i))
    requires g.cancelRequested ==> g'.cancelRequested
    requires MembersKept(g.members, g'.members)
    requires g.plan[i].kind.TaskNode? && !g.plan[i].dispatched ==> g.plan[i].id !in g'.members
    requires var d := DispatchId(g, g.plan[i].id); (d in s' <==> d in s) && (d in s ==> s'[d] == s[d])
    requires var k := CancelId(g, g.plan[i].id); (k in s' <==> k in s) && (k in s ==> s'[k] == s[k])
    ensures NodeInv(g', s', i)
  {
    KeptSucceededIf(Prereqs(g.plan[i]), g.members, g'.members);
  }

  lemma KeptSucceededIf(ids: seq<Id>, m: map<Id, Completion>, m': map<Id, Completion>)
    requires MembersKept(m, m')
    ensures AllSucceeded(ids, m) ==> AllSucceeded(ids, m')
  {
  }

  /** Stored intents stay well formed when the graph keeps its shape, members and settlement. */
  lemma IntentsFrame(g: Graph, g': Graph, s: Intents)
    requires SameShape(g, g') && IntentsOk(g, s) && MembersKept(g.members, g'.members)
    requires g.state.Terminal() ==> g'.state.Terminal()
    ensures IntentsOk(g', s)
  {
    forall k | k in s ensures IntentOk(g', k, s[k]) {
      assert IntentOk(g, k, s[k]);
      match s[k].payload
      case Publish(e) => SameShapeIsTask(g, g', e.id);
      case Fail(e, _, _) => SameShapeIsTask(g, g', e.id);
      case CancelTask(e) => SameShapeIsTask(g, g', e.id);
      case _ =>
    }
  }

  lemma MembersFrame(g: Graph, g': Graph)
    requires SameShape(g, g') && MembersOk(g) && g'.members == g.members
    ensures MembersOk(g')
  {
    forall id | id in g'.members ensures Planned(g'.plan, id) {
      SameShapePlanned(g, g', |g.plan|, id);
    }
  }

  // ---- recording a member ----

  function WithMember(g: Graph, m: Completion): Graph { g.(members := g.members[m.id := m]) }

  lemma RecordKeepsCore(g: Graph, s: Intents, i: nat, m: Completion)
    requires Core(g, s) && i < |g.plan| && m.id == g.plan[i].id && m.id !in g.members && m.outcome.state.Terminal()
    requires g.plan[i].kind.TaskNode? ==> g.plan[i].dispatched
    ensures Core(WithMember(g, m), s)
  {
    hide PlanOk, AllLeadToRoot;
    var g' := WithMember(g, m);
    PlanOkDistinct(g);
    SameShapeStatic(g, g');
    assert Planned(g'.plan, m.id);
    forall j | 0 <= j < |g.plan| ensures NodeInv(g', s, j) {
      assert NodeInv(g, s, j);
      NodeFrame(g, s, g', s, j);
    }
    IntentsFrame(g, g', s);
  }

  // ---- handing out a task ----

  predicate Handing(g: Graph, i: nat) {
    i < |g.plan| && g.plan[i].kind.TaskNode? && g.plan[i].id !in g.members && !g.plan[i].dispatched
  }

  /** A not yet handed out task may get one dispatch intent, or a cancellation failure. */
  predicate FirstIntent(g: Graph, i: nat, x: Intent)
    requires i < |g.plan|
  {
    var id := g.plan[i].id;
    x.source == g.id &&
    match x.payload
    case Publish(e) => e.id == id && Owned(g, e) && x.id == DispatchId(g, id) &&
                       AllSucceeded(Prereqs(g.plan[i]), g.members)
    case Fail(e, _, _) => e.id == id && Owned(g, e) &&
                          (x.id == DispatchId(g, id) || (x.id == CancelId(g, id) && g.cancelRequested))
    case _ => false
  }

  lemma HandOutKeepsCore(g: Graph, s: Intents, i: nat, g': Graph, x: Intent)
    requires Core(g, s) && Handing(g, i) && FirstIntent(g, i, x)
    requires g' == MarkDispatched(g, i).(children := g'.children)
    requires |g'.children| == |g.children|
    requires forall n | 0 <= n < |g.children| :: g'.children[n] == g.children[n].(args := g'.children[n].args)
    requires forall n | 0 <= n < |g.children| && n != TaskIndex(g.plan[i].id) :: g'.children[n] == g.children[n]
    ensures x.id !in s && Core(g', s[x.id := x])
  {
    hide PlanOk, AllLeadToRoot;
    var s' := s[x.id := x];
    var id := g.plan[i].id;
    assert NodeInv(g, s, i);
    PlanOkDistinct(g);
    SameShapeStatic(g, g');
    MembersFrame(g, g');
    forall j | 0 <= j < |g.plan| ensures NodeInv(g', s', j) {
      assert NodeInv(g, s, j);
      if j != i {
        TaskIndexDistinct(g, i, j);
        NodeFrame(g, s, g', s', j);
      }
    }
    IntentsFrame(g, g', s);
    SameShapeIsTask(g, g', id);
    assert IsTask(g, id);
    forall k | k in s' ensures IntentOk(g', k, s'[k]) {}
  }

  lemma TaskIndexDistinct(g: Graph, i: nat, j: nat)
    requires PlanOk(g) && i < |g.plan| && j < |g.plan| && i != j && g.plan[i].kind.TaskNode?
    ensures g.plan[i].id != g.plan[j].id
    ensures g.plan[j].kind.TaskNode? ==> TaskIndex(g.plan[i].id) != TaskIndex(g.plan[j].id)
  {
    PlanOkDistinct(g);
    assert NodeShape(g, i) && NodeShape(g, j);
  }

  lemma FindTaskChild(g: Graph, i: nat)
    requires PlanOk(g) && i < |g.plan| && g.plan[i].kind.TaskNode?
    ensures FindChild(g.children, g.plan[i].id) == Some(TaskIndex(g.plan[i].id))
    ensures TaskIndex(g.plan[i].id) < |g.children| && g.children[TaskIndex(g.plan[i].id)].id == g.plan[i].id
    ensures Owned(g, g.children[TaskIndex(g.plan[i].id)])
    ensures g.plan[i].signature.Some? && |g.plan[i].deps| <= 1 && g.plan[i].waitFor == []
  {
    assert NodeShape(g, i);
    var n := TaskIndex(g.plan[i].id);
    assert g.children[n].id == TaskId(g.id, n);
  }

  // ---- visiting a node ----

  /** A visit never fails for a malformed plan, only for the byte budget, and keeps the invariant. */
  lemma VisitKeepsCore(c: Client, p: Sweep, s: Intents, i: nat)
    requires i < |p.graph.plan| && Core(p.graph, Merge(s, p.intents))
    ensures var r := AdvanceNode(c, p, i);
            (r.Err? ==> r.error == WorkflowSize) &&
            (r.Ok? ==> Core(r.value.graph, Merge(s, r.value.intents)) && SameShape(p.graph, r.value.graph))
  {
    hide Core, Merge, HandOut, Decide, CollectMember, AllSucceeded, OutputsOf, FindChild, Ready;
    var g := p.graph;
    var node := g.plan[i];
    if node.id in g.members || node.dispatched || !Ready(node, g.members) {
    } else if node.kind.CollectNode? {
      CollectShape(node, g.members);
      RecordKeepsCore(g, Merge(s, p.intents), i, CollectMember(node, g.members));
    } else {
      hide SameShape;
      TaskVisitKeepsCore(c, p, s, i);
    }
  }

  lemma CollectShape(node: CanvasNode, members: map<Id, Completion>)
    requires Ready(node, members)
    ensures CollectMember(node, members).id == node.id && CollectMember(node, members).outcome.state.Terminal()
  {
  }

  lemma CorePlan(g: Graph, s: Intents)
    requires Core(g, s)
    ensures PlanOk(g)
  {
  }

  lemma TaskVisitKeepsCore(c: Client, p: Sweep, s: Intents, i: nat)
    requires Handing(p.graph, i) && Ready(p.graph.plan[i], p.graph.members) && Core(p.graph, Merge(s, p.intents))
    ensures var r := AdvanceNode(c, p, i);
            (r.Err? ==> r.error == WorkflowSize) &&
            (r.Ok? ==> Core(r.value.graph, Merge(s, r.value.intents)) && SameShape(p.graph, r.value.graph))
  {
    hide Core, Decide, HandOut, Merge, SameShape, AllSucceeded, OutputsOf, Ready, PlanOk, FindChild;
    var g := p.graph;
    var node := g.plan[i];
    CorePlan(g, Merge(s, p.intents));
    FindTaskChild(g, i);
    var failed := !AllSucceeded(Prereqs(node), g.members);
    var decision := Decide(c, node.signature.value, g.children[TaskIndex(node.id)], failed,
      OutputsOf(node.deps, g.members), p.argumentBytes);
    DecideEnvelope(c, node.signature.value, g.children[TaskIndex(node.id)], failed, OutputsOf(node.deps, g.members),
      p.argumentBytes);
    if !decision.TooLarge? { DecisionKeepsCore(c, p, s, i, decision); }
  }

  lemma DecisionKeepsCore(c: Client, p: Sweep, s: Intents, i: nat, decision: Decision)
    requires Core(p.graph, Merge(s, p.intents)) && Handing(p.graph, i) && !decision.TooLarge?
    requires TaskIndex(p.graph.plan[i].id) < |p.graph.children|
    requires p.graph.children[TaskIndex(p.graph.plan[i].id)].id == p.graph.plan[i].id &&
             Owned(p.graph, p.graph.children[TaskIndex(p.graph.plan[i].id)])
    requires decision.Run? ==> AllSucceeded(Prereqs(p.graph.plan[i]), p.graph.members)
    requires decision.Run? ==>
               decision.envelope == p.graph.children[TaskIndex(p.graph.plan[i].id)].(args := decision.envelope.args)
    ensures var p' := HandOut(c, p, i, TaskIndex(p.graph.plan[i].id), decision);
            Core(p'.graph, Merge(s, p'.intents)) && SameShape(p.graph, p'.graph)
  {
    hide Core, Prereqs, AllSucceeded, Merge;
    var p' := HandOut(c, p, i, TaskIndex(p.graph.plan[i].id), decision);
    var x := p'.intents[|p.intents|];
    assert p'.intents == p.intents + [x];
    MergeSnoc(s, p.intents, x);
    HandOutKeepsCore(p.graph, Merge(s, p.intents), i, p'.graph, x);
  }

  lemma DecideEnvelope(c: Client, sig: Signature, e: Envelope, failed: bool, outputs: seq<Option<Value>>,
      argumentBytes: int)
    ensures var d := Decide(c, sig, e, failed, outputs, argumentBytes);
            d.Run? ==> !failed && d.envelope == e.(args := d.envelope.args)
  {
  }
}
