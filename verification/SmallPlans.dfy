/** Working out an advance of a plan of three nodes: one sweep that does something and one that
    finds nothing left to do. */
module SmallPlans {
  import opened Protocol
  import opened Plans
  import opened Nested
  import opened Engine
  import opened IntentHash
  import opened DagAdvance

  /** A task without prerequisites is handed out with its declared arguments. */
  lemma RootHandsOut(c: Client, p: Sweep, i: nat, index: nat)
    requires i < |p.graph.plan| && p.graph.plan[i].kind.TaskNode? && Prereqs(p.graph.plan[i]) == [] &&
             p.graph.plan[i].signature.Some?
    requires p.graph.plan[i].id !in p.graph.members && !p.graph.plan[i].dispatched
    requires FindChild(p.graph.children, p.graph.plan[i].id) == Some(index)
    ensures AdvanceNode(c, p, i) ==
            Ok(Sweep(MarkDispatched(p.graph, i), p.intents + [DispatchIntent(p.graph.id, p.graph.children[index])],
              p.argumentBytes, true))
  {
    var g, node := p.graph, p.graph.plan[i];
    assert |node.deps| == 0;
    hide FindChild;
    assert OutputsOf(node.deps, g.members) == [];
    assert Decide(c, node.signature.value, g.children[index], false, [], p.argumentBytes) == Run(g.children[index]);
    assert g.children[index := g.children[index]] == g.children;
    hide Decide;
  }

  lemma SweepThree(c: Client, p: Sweep, p1: Sweep, p2: Sweep, p3: Sweep)
    requires |p.graph.plan| == 3 && AdvanceNode(c, p, 0) == Ok(p1)
    requires |p1.graph.plan| == 3 && AdvanceNode(c, p1, 1) == Ok(p2)
    requires |p2.graph.plan| == 3 && AdvanceNode(c, p2, 2) == Ok(p3)
    ensures SweepFrom(c, p, 0) == Ok(p3)
  {
    hide AdvanceNode;
    assert SweepFrom(c, p3, 3) == Ok(p3);
    assert SweepFrom(c, p2, 2) == SweepFrom(c, p3, 3);
    assert SweepFrom(c, p1, 1) == SweepFrom(c, p2, 2);
  }

  lemma QuietSweep(c: Client, p: Sweep)
    requires |p.graph.plan| == 3 && SettledNode(p.graph, 0) && SettledNode(p.graph, 1) && SettledNode(p.graph, 2)
    ensures SweepFrom(c, p, 0) == Ok(p)
  {
    SweepThree(c, p, p, p, p);
  }

  /** A sweep that left every node settled is the last that changes anything. */
  lemma TurnsEnd(c: Client, p: Sweep, q: Sweep)
    requires |q.graph.plan| == 3 && SettledNode(q.graph, 0) && SettledNode(q.graph, 1) && SettledNode(q.graph, 2)
    requires SweepFrom(c, p.(progress := false), 0) == Ok(q)
    ensures Turns(c, p, 4) == Ok(q.(progress := false))
  {
    var quiet := q.(progress := false);
    QuietSweep(c, quiet);
    hide SweepFrom;
    if q.progress { assert Turns(c, q, 3) == Ok(quiet); } else { assert q == quiet; }
  }

  /** An advance of an unsettled plan of three nodes, from its one effective sweep. */
  lemma AdvanceThree(c: Client, g: Graph, g1: Graph, intents: seq<Intent>, q: Sweep)
    requires g.kind.Dag? && !g.state.Terminal() && |g.plan| == 3 && |g.children| <= 1000 && g.rootNode.Some? &&
             g.abortFailure.None?
    requires (if g.cancelRequested then CancelFrom(g, [], 0) else Ok((g, []))) == Ok((g1, intents)) && |g1.plan| == 3
    requires SweepFrom(c, Sweep(g1, intents, ArgumentBytes(c, g1.children), false), 0) == Ok(q)
    requires |q.graph.plan| == 3 && SettledNode(q.graph, 0) && SettledNode(q.graph, 1) && SettledNode(q.graph, 2)
    requires var (next, batch) := Settle(q.graph, q.intents);
             c.fits(next, batch, BudgetLimit(g)) && next.originTask.None?
    ensures AdvanceSpec(c, g) == Ok(Settle(q.graph, q.intents))
  {
    var p := Sweep(g1, intents, ArgumentBytes(c, g1.children), false);
    TurnsEnd(c, p, q);
    hide SweepFrom, ArgumentBytes, CancelFrom, Turns, SettledNode;
    var (next, batch) := Settle(q.graph, q.intents);
    assert AdvanceNestedSpec(c, g) == Ok((next, batch));
    hide AdvanceNestedSpec, Settle;
    assert batch + [] == batch;
  }

  lemma MergeOne(s: Intents, x: Intent)
    requires x.id !in s
    ensures Merge(s, [x]) == s[x.id := x]
  {
    assert [x][..0] == [];
    MergeEmpty(s);
  }
}
