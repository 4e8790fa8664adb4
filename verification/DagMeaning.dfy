/** In the normal mode (no cancellation, no budget abort) everything a DAG stores agrees with the
    meaning of its plan: recorded members are the nodes' outcomes, and each dispatch intent
    carries the arguments, or the refusal, that the meaning gives the task. */
module DagMeaning {
  import opened Protocol
  import opened Compiler
  import opened Meaning
  import opened Plans
  import opened Preservation
  import opened Nested
  import opened Engine
  import opened IntentHash
  import opened DagInvariant
  import opened DagAdvance

  predicate Normal(g: Graph) { !g.cancelRequested && g.abortFailure.None? }

  /** The world validates envelopes the way the client validates this graph's children. */
  ghost predicate WorldOf(c: Client, w: World, g: Graph) {
    (forall k, a | 0 <= k < |g.children| :: w.admits(k, a) == c.admits(g.children[k].(args := a))) &&
    (forall k, a :: w.run(k, a).state.Terminal()) && !w.rechecks
  }

  /** The world of a compiled graph: advanceNested validates a child when it binds arguments. */
  function DagWorld(c: Client, run: (nat, Value) -> Outcome, g: Graph): World {
    World(run, (k: nat, a) => k < |g.children| && c.admits(g.children[k].(args := a)), false)
  }

  /** Every node's outcome is its own rule applied to the outcomes of its prerequisites. */
  lemma ValFix(c: Client, w: World, g: Graph, i: nat)
    requires PlanOk(g) && i < |g.plan|
    ensures Val(c, w, g, g.plan[i].id) == NodeOutcome(c, w, g.plan[i], Denote(c, w, g.plan))
  {
    PlanOkDistinct(g);
    var node, before, upto := g.plan[i], g.plan[..i], g.plan[..i + 1];
    assert upto[..|upto| - 1] == before && upto[|upto| - 1] == node;
    assert Planned(upto, node.id) by { assert upto[i].id == node.id; }
    DenotePrefix(c, w, upto, g.plan, node.id);
    forall d | d in Prereqs(node) ensures Look(Denote(c, w, before), d) == Look(Denote(c, w, g.plan), d) {
      assert KnownBefore(g.plan, i, d);
      var j :| 0 <= j < i && g.plan[j].id == d;
      assert before[j].id == d;
      assert Planned(before, d);
      DenotePrefix(c, w, before, g.plan, d);
    }
    SameLooks(c, w, node, Denote(c, w, before), Denote(c, w, g.plan));
  }

  lemma SameLooks(c: Client, w: World, node: CanvasNode, m: map<Id, Outcome>, m': map<Id, Outcome>)
    requires forall d | d in Prereqs(node) :: Look(m, d) == Look(m', d)
    ensures NodeOutcome(c, w, node, m) == NodeOutcome(c, w, node, m')
  {
    forall j | 0 <= j < |node.deps| ensures Look(m, node.deps[j]) == Look(m', node.deps[j]) {
      assert node.deps[j] in Prereqs(node);
    }
    if node.waitFor != [] { assert node.waitFor[0] in Prereqs(node); }
    assert Looks(m, node.deps) == Looks(m', node.deps);
  }

  predicate MembersMean(c: Client, w: World, g0: Graph, members: map<Id, Completion>) {
    forall id | id in members :: members[id].outcome == Val(c, w, g0, id)
  }

  /** What the meaning lets task node `i` do. */
  function NodeAdmission(c: Client, w: World, g0: Graph, i: nat): Admission
    requires i < |g0.plan| && g0.plan[i].signature.Some?
  {
    var node := g0.plan[i];
    Admit(c, w, node.signature.value, FirstOf(Denote(c, w, g0.plan), node.deps), TaskIndex(node.id))
  }

  predicate IntentMeans(x: Intent, admission: Admission) {
    match x.payload
    case Publish(e) => admission == Admitted(e.args)
    case Fail(_, f, state) => f.Some? && state.None? && admission == Refused(f.value)
    case _ => false
  }

  predicate NodeMeans(c: Client, w: World, g0: Graph, g: Graph, s: Intents, i: nat)
    requires i < |g.plan| && i < |g0.plan|
  {
    var node := g.plan[i];
    match node.kind
    case CollectNode => node.id in g.members ==> Ready(node, g.members)
    case TaskNode =>
      node.dispatched ==>
        Ready(node, g.members) && g0.plan[i].signature.Some? && DispatchId(g, node.id) in s &&
        IntentMeans(s[DispatchId(g, node.id)], NodeAdmission(c, w, g0, i))
  }

  predicate Means(c: Client, w: World, g0: Graph, g: Graph, s: Intents) {
    SameShape(g0, g) && MembersMean(c, w, g0, g.members) &&
    forall i | 0 <= i < |g.plan| :: NodeMeans(c, w, g0, g, s, i)
  }

  /** What the relay writes for a task that is failed before dispatch. */
  function Refusal(x: Intent): Outcome {
    match x.payload
    case Fail(_, f, state) => Outcome(state.GetOr(Failed), None, Some(f.GetOr(CallbackInput)))
    case _ => Failing(CallbackInput)
  }

  /** What a task reports when it ends, as its dispatch intent determines it. */
  function Settlement(w: World, x: Intent, k: nat): Outcome {
    if x.payload.Publish? then w.run(k, x.payload.envelope.args) else Refusal(x)
  }

  predicate Faithful(w: World, g: Graph, s: Intents, m: Completion) {
    DispatchId(g, m.id) in s && m.outcome == Settlement(w, s[DispatchId(g, m.id)], TaskIndex(m.id))
  }

  lemma SettlementIsVal(c: Client, w: World, g0: Graph, g: Graph, s: Intents, i: nat, m: Completion)
    requires PlanOk(g0) && Means(c, w, g0, g, s) && i < |g.plan| && g.plan[i].kind.TaskNode? && g.plan[i].dispatched
    requires m.id == g.plan[i].id && Faithful(w, g, s, m)
    ensures m.outcome == Val(c, w, g0, m.id)
  {
    hide PlanOk, Denote;
    assert NodeMeans(c, w, g0, g, s, i);
    ValFix(c, w, g0, i);
  }

  /** Recording a faithful completion keeps the agreement. */
  lemma RecordKeepsMeaning(c: Client, w: World, g0: Graph, g: Graph, s: Intents, m: Completion)
    requires Means(c, w, g0, g, s) && m.outcome == Val(c, w, g0, m.id) && m.id !in g.members
    requires forall i | 0 <= i < |g.plan| && g.plan[i].id == m.id && g.plan[i].kind.CollectNode? ::
               Ready(g.plan[i], g.members)
    ensures Means(c, w, g0, WithMember(g, m), s)
  {
    hide Val, NodeAdmission, IntentMeans;
    var g' := WithMember(g, m);
    forall i | 0 <= i < |g'.plan| ensures NodeMeans(c, w, g0, g', s, i) {
      assert NodeMeans(c, w, g0, g, s, i);
      if Ready(g.plan[i], g.members) { assert Ready(g'.plan[i], g'.members); }
    }
  }

  /** A barrier records exactly its node's outcome. */
  lemma CollectIsVal(c: Client, w: World, g0: Graph, g: Graph, i: nat)
    requires PlanOk(g0) && SameShape(g0, g) && i < |g.plan| && g.plan[i].kind.CollectNode?
    requires MembersMean(c, w, g0, g.members) && Ready(g.plan[i], g.members)
    ensures CollectMember(g.plan[i], g.members).outcome == Val(c, w, g0, g.plan[i].id)
  {
    var node, m := g.plan[i], Denote(c, w, g0.plan);
    ValFix(c, w, g0, i);
    assert NodeShape(g0, i);
    hide PlanOk, Denote;
    var parts, control := Looks(m, node.deps), FirstOf(m, node.waitFor);
    forall j | 0 <= j < |node.deps| ensures node.deps[j] in g.members && parts[j] == g.members[node.deps[j]].outcome {
      assert node.deps[j] in Prereqs(node);
    }
    if node.waitFor != [] { assert node.waitFor[0] in Prereqs(node); }
    GatherCollect(node, g.members, parts, control);
  }

  lemma GatherCollect(node: CanvasNode, members: map<Id, Completion>, parts: seq<Outcome>, control: Option<Outcome>)
    requires |parts| == |node.deps| &&
             forall j | 0 <= j < |parts| :: node.deps[j] in members && parts[j] == members[node.deps[j]].outcome
    requires |node.waitFor| <= 1 && (control.Some? <==> node.waitFor != [])
    requires control.Some? ==> node.waitFor[0] in members && control.value == members[node.waitFor[0]].outcome
    ensures CollectMember(node, members).outcome == Gather(parts, control)
  {
    if exists i | 0 <= i < |parts| :: parts[i].state != Succeeded {
      var i :| 0 <= i < |parts| && parts[i].state != Succeeded;
      assert node.deps[i] in Prereqs(node);
    } else if control.Some? && control.value.state != Succeeded {
      assert node.waitFor[0] in Prereqs(node);
    } else {
      assert AllSucceeded(Prereqs(node), members);
      assert OutputsOf(node.deps, members) == seq(|parts|, i requires 0 <= i < |parts| => parts[i].output);
    }
  }

  /** The interpreter's decision is the meaning's admission. */
  lemma DecideIsAdmit(c: Client, w: World, sig: Signature, child: Envelope, k: nat, input: Option<Outcome>,
      argumentBytes: int)
    requires child.args == sig.args && !w.rechecks && forall a :: w.admits(k, a) == c.admits(child.(args := a))
    ensures var outputs := if input.None? then [] else [input.value.output];
            var failed := input.Some? && input.value.state != Succeeded;
            var decision := Decide(c, sig, child, failed, outputs, argumentBytes);
            (decision.Run? ==> Admit(c, w, sig, input, k) == Admitted(decision.envelope.args)) &&
            (decision.Refuse? ==> Admit(c, w, sig, input, k) == Refused(decision.failure))
  {
  }

  /** The interpreter's view of a ready task's input is the meaning's. */
  lemma InputIsDenoted(c: Client, w: World, g0: Graph, g: Graph, i: nat)
    requires SameShape(g0, g) && i < |g.plan| && |g.plan[i].deps| <= 1 && g.plan[i].waitFor == []
    requires MembersMean(c, w, g0, g.members) && Ready(g.plan[i], g.members)
    ensures var input := FirstOf(Denote(c, w, g0.plan), g0.plan[i].deps);
            OutputsOf(g.plan[i].deps, g.members) == (if input.None? then [] else [input.value.output]) &&
            (!AllSucceeded(Prereqs(g.plan[i]), g.members) <==> input.Some? && input.value.state != Succeeded)
  {
    hide Denote;
    var node := g.plan[i];
    assert Prereqs(node) == node.deps;
    if node.deps != [] { assert node.deps == [node.deps[0]] && node.deps[0] in Prereqs(node); }
  }

  lemma HandOutKeepsMeaning(c: Client, w: World, g0: Graph, g: Graph, s: Intents, i: nat, g': Graph, x: Intent)
    requires Means(c, w, g0, g, s) && PlanOk(g) && Handing(g, i) && Ready(g.plan[i], g.members)
    requires SameShape(g, g') && g'.members == g.members && g'.plan == MarkDispatched(g, i).plan
    requires x.id == DispatchId(g, g.plan[i].id) && x.id !in s
    requires g0.plan[i].signature.Some? && IntentMeans(x, NodeAdmission(c, w, g0, i))
    ensures Means(c, w, g0, g', s[x.id := x])
  {
    PlanOkDistinct(g);
    hide PlanOk, NodeAdmission, IntentMeans, MembersMean;
    SameShapeTrans(g0, g, g');
    var s' := s[x.id := x];
    forall j | 0 <= j < |g'.plan| ensures NodeMeans(c, w, g0, g', s', j) {
      assert NodeMeans(c, w, g0, g, s, j);
    }
  }

  lemma VisitKeepsMeaning(c: Client, w: World, g0: Graph, p: Sweep, s: Intents, i: nat)
    requires PlanOk(g0) && WorldOf(c, w, g0) && i < |p.graph.plan|
    requires Core(p.graph, Merge(s, p.intents)) && Means(c, w, g0, p.graph, Merge(s, p.intents)) &&
             AdvanceNode(c, p, i).Ok?
    ensures var p' := AdvanceNode(c, p, i).value; Means(c, w, g0, p'.graph, Merge(s, p'.intents))
  {
    hide PlanOk, AllLeadToRoot, IntentsOk, MembersOk, Decide, Merge, NodeMeans, MembersMean, HandOut, NodesInv;
    var g := p.graph;
    var node := g.plan[i];
    if node.id in g.members || node.dispatched || !Ready(node, g.members) {
    } else if node.kind.CollectNode? {
      CollectIsVal(c, w, g0, g, i);
      PlanOkDistinct(g);
      RecordKeepsMeaning(c, w, g0, g, Merge(s, p.intents), CollectMember(node, g.members));
    } else {
      TaskVisitKeepsMeaning(c, w, g0, p, s, i);
    }
  }

  lemma TaskVisitKeepsMeaning(c: Client, w: World, g0: Graph, p: Sweep, s: Intents, i: nat)
    requires PlanOk(g0) && WorldOf(c, w, g0) && Handing(p.graph, i) && Ready(p.graph.plan[i], p.graph.members)
    requires Core(p.graph, Merge(s, p.intents)) && Means(c, w, g0, p.graph, Merge(s, p.intents)) &&
             AdvanceNode(c, p, i).Ok?
    ensures var p' := AdvanceNode(c, p, i).value; Means(c, w, g0, p'.graph, Merge(s, p'.intents))
  {
    VisitMeans(c, w, g0, p, s, i);
    VisitKeepsCore(c, p, s, i);
    var g, p' := p.graph, AdvanceNode(c, p, i).value;
    var x := p'.intents[|p.intents|];
    assert NodeInv(g, Merge(s, p.intents), i) && PlanOk(g);
    assert x.id !in Merge(s, p.intents);
    hide Core, Means, Merge, AdvanceNode, PlanOk, NodeAdmission, IntentMeans;
    MergeSnoc(s, p.intents, x);
    HandOutKeepsMeaning(c, w, g0, g, Merge(s, p.intents), i, p'.graph, x);
  }

  /** The one intent of a task visit is what the meaning of the plan decides for the task. */
  lemma VisitMeans(c: Client, w: World, g0: Graph, p: Sweep, s: Intents, i: nat)
    requires PlanOk(g0) && WorldOf(c, w, g0) && Handing(p.graph, i) && Ready(p.graph.plan[i], p.graph.members)
    requires Core(p.graph, Merge(s, p.intents)) && Means(c, w, g0, p.graph, Merge(s, p.intents)) &&
             AdvanceNode(c, p, i).Ok?
    ensures var p' := AdvanceNode(c, p, i).value;
            |p'.intents| == |p.intents| + 1 && p'.intents == p.intents + [p'.intents[|p.intents|]] &&
            p'.intents[|p.intents|].id == DispatchId(p.graph, p.graph.plan[i].id) && i < |g0.plan| &&
            g0.plan[i].signature.Some? &&
            IntentMeans(p'.intents[|p.intents|], NodeAdmission(c, w, g0, i)) &&
            p'.graph.members == p.graph.members && p'.graph.plan == MarkDispatched(p.graph, i).plan
  {
    hide PlanOk, AllLeadToRoot, IntentsOk, MembersOk, Decide, Merge, NodeMeans, MembersMean, AllSucceeded, OutputsOf,
           Denote;
    var g := p.graph;
    var node, k := g.plan[i], TaskIndex(g.plan[i].id);
    FindTaskChild(g, i);
    assert NodeInv(g, Merge(s, p.intents), i);
    InputIsDenoted(c, w, g0, g, i);
    var input := FirstOf(Denote(c, w, g0.plan), g0.plan[i].deps);
    DecideIsAdmit(c, w, node.signature.value, g.children[k], k, input, p.argumentBytes) by {
      forall a ensures w.admits(k, a) == c.admits(g.children[k].(args := a)) {
        assert g.children[k].(args := a) == g0.children[k].(args := a);
      }
    }
    DecideEnvelope(c, node.signature.value, g.children[k], !AllSucceeded(Prereqs(node), g.members),
      OutputsOf(node.deps, g.members), p.argumentBytes);
  }

  lemma {:induction false} SweepKeepsMeaning(c: Client, w: World, g0: Graph, p: Sweep, s: Intents, i: nat)
    requires PlanOk(g0) && WorldOf(c, w, g0) && i <= |p.graph.plan|
    requires Core(p.graph, Merge(s, p.intents)) && Means(c, w, g0, p.graph, Merge(s, p.intents)) &&
             SweepFrom(c, p, i).Ok?
    ensures var p' := SweepFrom(c, p, i).value; Means(c, w, g0, p'.graph, Merge(s, p'.intents))
    decreases |p.graph.plan| - i
  {
    hide PlanOk, Core, Means, AdvanceNode, Merge;
    if i < |p.graph.plan| {
      VisitKeepsCore(c, p, s, i);
      VisitKeepsMeaning(c, w, g0, p, s, i);
      SweepKeepsMeaning(c, w, g0, AdvanceNode(c, p, i).value, s, i + 1);
    }
  }

  lemma {:induction false} TurnsKeepMeaning(c: Client, w: World, g0: Graph, p: Sweep, s: Intents, turns: nat)
    requires PlanOk(g0) && WorldOf(c, w, g0)
    requires Core(p.graph, Merge(s, p.intents)) && Means(c, w, g0, p.graph, Merge(s, p.intents)) &&
             Turns(c, p, turns).Ok?
    ensures var p' := Turns(c, p, turns).value; Means(c, w, g0, p'.graph, Merge(s, p'.intents))
    decreases turns
  {
    hide PlanOk, Core, Means, SweepFrom, Merge;
    if turns > 0 {
      var start := p.(progress := false);
      SweepSettles(c, start, s, 0);
      SweepKeepsMeaning(c, w, g0, start, s, 0);
      var q := SweepFrom(c, start, 0).value;
      if q.progress { TurnsKeepMeaning(c, w, g0, q, s, turns - 1); }
    }
  }

  /** Settling and later releases do not touch what the agreement is about. */
  lemma MeaningFrame(c: Client, w: World, g0: Graph, g: Graph, g': Graph, s: Intents, batch: seq<Intent>)
    requires Means(c, w, g0, g, s) && g'.plan == g.plan && g'.members == g.members && g'.id == g.id && SameShape(g0, g')
    ensures Means(c, w, g0, g', Merge(s, batch))
  {
    hide MembersMean, NodeAdmission, IntentMeans, Merge;
    forall i | 0 <= i < |g'.plan| ensures NodeMeans(c, w, g0, g', Merge(s, batch), i) {
      assert NodeMeans(c, w, g0, g, s, i);
      if DispatchId(g, g.plan[i].id) in s { MergeKeeps(s, batch, DispatchId(g, g.plan[i].id)); }
    }
  }

  /** A settled normal graph shows its root's outcome. */
  predicate RootSettled(g: Graph) {
    g.state.Terminal() ==>
      g.rootNode.Some? && g.rootNode.value in g.members &&
      g.members[g.rootNode.value].outcome == Outcome(g.state, g.output, g.failure)
  }

  lemma NestedKeepsMeaning(c: Client, w: World, g0: Graph, g: Graph, s: Intents)
    requires PlanOk(g0) && WorldOf(c, w, g0) && Normal(g) && Core(g, s) && Means(c, w, g0, g, s) && RootSettled(g)
    requires AdvanceGraphSpec(c, g).Ok?
    ensures var (g', batch) := AdvanceGraphSpec(c, g).value;
            Means(c, w, g0, g', Merge(s, batch)) && RootSettled(g')
  {
    hide PlanOk, AllLeadToRoot, NodesInv, IntentsOk, MembersOk, Merge, Turns, MembersMean, NodeMeans, UnpinsOf,
           GraphUnpins, ArgumentBytes;
    if g.state.Terminal() {
      MeaningFrame(c, w, g0, g, g, s, GraphUnpins(g));
    } else {
      MergeEmpty(s);
      var p := Sweep(g, [], ArgumentBytes(c, g.children), false);
      TurnsKeepMeaning(c, w, g0, p, s, |g.plan| + 1);
      TurnsExtend(c, p, |g.plan| + 1);
      var q := Turns(c, p, |g.plan| + 1).value;
      SettleKeepsMeaning(c, w, g0, q, s);
    }
  }

  lemma SettleKeepsMeaning(c: Client, w: World, g0: Graph, q: Sweep, s: Intents)
    requires Means(c, w, g0, q.graph, Merge(s, q.intents)) && !q.graph.cancelRequested && !q.graph.state.Terminal()
    ensures var (g', batch) := Settle(q.graph, q.intents);
            Means(c, w, g0, g', Merge(s, batch)) && RootSettled(g')
  {
    hide Merge, MembersMean, NodeMeans, UnpinsOf;
    var (g', batch) := Settle(q.graph, q.intents);
    if q.graph.rootNode.Some? && q.graph.rootNode.value in q.graph.members {
      MergeAppend(s, q.intents, UnpinsOf(q.graph, q.graph.children));
      MeaningFrame(c, w, g0, q.graph, g', Merge(s, q.intents), UnpinsOf(q.graph, q.graph.children));
    }
  }

  /** An advance that stays normal keeps the agreement with the meaning. */
  lemma AdvanceKeepsMeaning(c: Client, w: World, g0: Graph, g: Graph, s: Intents)
    requires PlanOk(g0) && WorldOf(c, w, g0) && Normal(g) && Core(g, s) && Means(c, w, g0, g, s) && RootSettled(g)
    requires AdvanceSpec(c, g).Ok? && Normal(AdvanceSpec(c, g).value.0)
    ensures var (g', batch) := AdvanceSpec(c, g).value;
            Means(c, w, g0, g', Merge(s, batch)) && RootSettled(g')
  {
    assert g.kind.Dag?;
    hide PlanOk, Core, Means, Merge, AdvanceGraphSpec, AbortNodes;
    AbortStaysAborted(c, g);
    NestedKeepsMeaning(c, w, g0, g, s);
    var (g', batch) := AdvanceGraphSpec(c, g).value;
    var extra := ReplacementCompletionIntents(g');
    MergeAppend(s, batch, extra);
    MeansShape(c, w, g0, g', Merge(s, batch));
    MeaningFrame(c, w, g0, g', g', Merge(s, batch), extra);
  }

  lemma MeansShape(c: Client, w: World, g0: Graph, g: Graph, s: Intents)
    requires Means(c, w, g0, g, s)
    ensures SameShape(g0, g)
  {
  }

  lemma {:induction false} AbortNodesKeepAbort(g: Graph, intents: seq<Intent>, i: nat)
    requires i <= |g.plan| && AbortNodes(g, intents, i).Ok?
    ensures AbortNodes(g, intents, i).value.0.abortFailure == g.abortFailure
    decreases |g.plan| - i
  {
    if i < |g.plan| {
      var node := g.plan[i];
      if node.kind.CollectNode? || node.id in g.members || node.dispatched {
        AbortNodesKeepAbort(g, intents, i + 1);
      } else {
        var index := FindChild(g.children, node.id);
        AbortNodesKeepAbort(MarkDispatched(g, i),
          intents + [FailIntent(g.id, g.children[index.value], g.abortFailure, Some(Failed))], i + 1);
      }
    }
  }

  /** The only way to stay out of the aborted mode is an advance within budget. */
  lemma AbortStaysAborted(c: Client, g: Graph)
    requires g.kind.Dag? && AdvanceSpec(c, g).Ok? && AdvanceSpec(c, g).value.0.abortFailure.None?
    ensures AdvanceGraphSpec(c, g).Ok? && AdvanceMode(c, g) == AdvanceGraphSpec(c, g)
  {
    hide AbortNodes, AdvanceGraphSpec;
    if AdvanceMode(c, g) != AdvanceGraphSpec(c, g) {
      var aborting := if g.abortFailure.Some? &&
      !g.cancelRequested then g else g.(abortFailure := Some(BudgetExceeded));
      var cleared := aborting.(members := ClearOutputs(aborting.members), output := None);
      AbortNodesKeepAbort(cleared, [], 0);
      assert false;
    }
  }
}
