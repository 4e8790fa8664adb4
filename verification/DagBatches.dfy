/** The store refuses a batch that names one intent twice or belongs to another source. No advance
    of a stored DAG produces such a batch, so its write is never refused for that. */
module DagBatches {
  import opened Protocol
  import opened Compiler
  import opened Plans
  import opened Nested
  import opened Engine
  import opened IntentHash
  import opened DagInvariant
  import opened DagAdvance

  /** A batch of the phases before settling: dispatch and cancel identities only. */
  predicate TaskBatch(g: Graph, batch: seq<Intent>) {
    BatchOk(g.id, batch) &&
    forall i | 0 <= i < |batch| ::
      batch[i].id.Stable? && (batch[i].id.tag.DispatchLabel? || batch[i].id.tag.CancelLabel?)
  }

  lemma TaskBatchSnoc(g: Graph, s: Intents, batch: seq<Intent>, x: Intent)
    requires TaskBatch(g, batch) && x.source == g.id && x.id.Stable? &&
             (x.id.tag.DispatchLabel? || x.id.tag.CancelLabel?)
    requires x.id !in Merge(s, batch)
    ensures TaskBatch(g, batch + [x])
  {
    forall i | 0 <= i < |batch| ensures batch[i].id != x.id { MergeHas(s, batch, i); }
  }

  /** A visit adds at most the dispatch intent of its node, which is not stored yet. */
  lemma VisitAdds(c: Client, p: Sweep, s: Intents, i: nat)
    requires i < |p.graph.plan| && Core(p.graph, Merge(s, p.intents)) && AdvanceNode(c, p, i).Ok?
    ensures var g, p' := p.graph, AdvanceNode(c, p, i).value;
            p'.graph.id == g.id && (p'.intents != p.intents ==>
              exists x ::
                p'.intents == p.intents + [x] && x.id == DispatchId(g, g.plan[i].id) && x.source == g.id &&
                x.id !in Merge(s, p.intents))
  {
    var g, p' := p.graph, AdvanceNode(c, p, i).value;
    if p'.intents != p.intents {
      FindTaskChild(g, i);
      assert NodeInv(g, Merge(s, p.intents), i);
      hide Core, Decide, Merge, NodeInv, PlanOk, Owned;
      DecideEnvelope(c, g.plan[i].signature.value, g.children[TaskIndex(g.plan[i].id)],
        !AllSucceeded(Prereqs(g.plan[i]), g.members),
                     OutputsOf(g.plan[i].deps, g.members), p.argumentBytes);
      var x := p'.intents[|p.intents|];
      assert p'.intents == p.intents + [x];
    }
  }

  lemma VisitKeepsBatch(c: Client, p: Sweep, s: Intents, i: nat)
    requires i < |p.graph.plan| && Core(p.graph, Merge(s, p.intents)) && TaskBatch(p.graph, p.intents) &&
             AdvanceNode(c, p, i).Ok?
    ensures var p' := AdvanceNode(c, p, i).value; TaskBatch(p'.graph, p'.intents) && p'.graph.id == p.graph.id
  {
    VisitAdds(c, p, s, i);
    hide Core, AdvanceNode, Merge;
    var g, p' := p.graph, AdvanceNode(c, p, i).value;
    if p'.intents != p.intents {
      var x :| p'.intents == p.intents + [x] && x.id == DispatchId(g, g.plan[i].id) && x.source == g.id &&
      x.id !in Merge(s, p.intents);
      TaskBatchSnoc(g, s, p.intents, x);
    }
  }

  lemma {:induction false} SweepKeepsBatch(c: Client, p: Sweep, s: Intents, i: nat)
    requires i <= |p.graph.plan| && Core(p.graph, Merge(s, p.intents)) && TaskBatch(p.graph, p.intents) &&
             SweepFrom(c, p, i).Ok?
    ensures var p' := SweepFrom(c, p, i).value; TaskBatch(p'.graph, p'.intents) && p'.graph.id == p.graph.id
    decreases |p.graph.plan| - i
  {
    hide Core, TaskBatch, AdvanceNode, Merge;
    if i < |p.graph.plan| {
      VisitKeepsCore(c, p, s, i);
      VisitKeepsBatch(c, p, s, i);
      SweepKeepsBatch(c, AdvanceNode(c, p, i).value, s, i + 1);
    }
  }

  lemma {:induction false} TurnsKeepBatch(c: Client, p: Sweep, s: Intents, turns: nat)
    requires Core(p.graph, Merge(s, p.intents)) && TaskBatch(p.graph, p.intents) && Turns(c, p, turns).Ok?
    ensures var p' := Turns(c, p, turns).value; TaskBatch(p'.graph, p'.intents) && p'.graph.id == p.graph.id
    decreases turns
  {
    hide Core, TaskBatch, SweepFrom, Merge;
    if turns > 0 {
      var start := p.(progress := false);
      SweepSettles(c, start, s, 0);
      SweepKeepsBatch(c, start, s, 0);
      var q := SweepFrom(c, start, 0).value;
      if q.progress { TurnsKeepBatch(c, q, s, turns - 1); }
    }
  }

  /** The cancellation loop names each node at most once. */
  predicate Names(g: Graph, id: Id, n: nat)
    requires n <= |g.plan|
  {
    exists j | 0 <= j < n :: id == CancelId(g, g.plan[j].id)
  }

  predicate NamesBelow(g: Graph, batch: seq<Intent>, n: nat)
    requires n <= |g.plan|
  {
    forall i | 0 <= i < |batch| :: Names(g, batch[i].id, n)
  }

  lemma CancelBatchStep(g: Graph, intents: seq<Intent>, i: nat, x: Intent)
    requires i < |g.plan| && DistinctIds(g.plan) && TaskBatch(g, intents) && NamesBelow(g, intents, i)
    requires x.id == CancelId(g, g.plan[i].id) && x.source == g.id
    ensures TaskBatch(MarkDispatched(g, i), intents + [x]) && NamesBelow(MarkDispatched(g, i), intents + [x], i + 1)
  {
    var g', batch := MarkDispatched(g, i), intents + [x];
    forall k | 0 <= k < |intents| ensures intents[k].id != x.id && Names(g', intents[k].id, i + 1) {
      assert Names(g, intents[k].id, i);
      var j :| 0 <= j < i && intents[k].id == CancelId(g, g.plan[j].id);
      assert intents[k].id == CancelId(g', g'.plan[j].id);
    }
    forall k | 0 <= k < |batch| ensures Names(g', batch[k].id, i + 1) {
      if k == |intents| { assert batch[k].id == CancelId(g', g'.plan[i].id); }
    }
  }

  lemma {:induction false} CancelBatch(g: Graph, intents: seq<Intent>, i: nat)
    requires i <= |g.plan| && PlanOk(g) && TaskBatch(g, intents) && NamesBelow(g, intents, i) &&
             CancelFrom(g, intents, i).Ok?
    ensures TaskBatch(CancelFrom(g, intents, i).value.0, CancelFrom(g, intents, i).value.1)
    decreases |g.plan| - i
  {
    hide PlanOk, TaskBatch;
    if i < |g.plan| {
      var node := g.plan[i];
      if node.kind.CollectNode? || node.id in g.members {
        NamesWeaken(g, intents, i);
        CancelBatch(g, intents, i + 1);
      } else {
        FindTaskChild(g, i);
        PlanOkDistinct(g);
        var x := CancellationIntent(g.id, g.children[TaskIndex(node.id)], node.dispatched);
        SameShapePlanOk(g, MarkDispatched(g, i));
        CancelBatchStep(g, intents, i, x);
        CancelBatch(MarkDispatched(g, i), intents + [x], i + 1);
      }
    }
  }

  lemma NamesWeaken(g: Graph, batch: seq<Intent>, i: nat)
    requires i < |g.plan| && NamesBelow(g, batch, i)
    ensures NamesBelow(g, batch, i + 1)
  {
    forall k | 0 <= k < |batch| ensures Names(g, batch[k].id, i + 1) {
      assert Names(g, batch[k].id, i);
      var j :| 0 <= j < i && batch[k].id == CancelId(g, g.plan[j].id);
    }
  }

  /** Unpin identities follow the children, which are numbered. */
  lemma {:induction false} UnpinBatch(g: Graph, n: nat)
    requires n <= |g.children| && ChildrenNumbered(g)
    ensures var batch := UnpinsOf(g, g.children[..n]);
            UniqueIds(batch) &&
            forall i | 0 <= i < |batch| ::
              batch[i].source == g.id && exists k | 0 <= k < n :: batch[i].id == UnpinId(g, TaskId(g.id, k))
    decreases n
  {
    if n > 0 {
      UnpinBatch(g, n - 1);
      assert g.children[..n][..n - 1] == g.children[..n - 1];
      var front, batch := UnpinsOf(g, g.children[..n - 1]), UnpinsOf(g, g.children[..n]);
      forall i | 0 <= i < |front| ensures exists k | 0 <= k < n :: front[i].id == UnpinId(g, TaskId(g.id, k)) {
        var k :| 0 <= k < n - 1 && front[i].id == UnpinId(g, TaskId(g.id, k));
      }
      if g.children[n - 1].id in g.members {
        assert batch == front + [UnpinIntent(g.id, TaskId(g.id, n - 1))];
        forall i | 0 <= i < |front| ensures front[i].id != UnpinId(g, TaskId(g.id, n - 1)) {
          var k :| 0 <= k < n - 1 && front[i].id == UnpinId(g, TaskId(g.id, k));
        }
      }
    }
  }

  lemma ReleasedBatch(g: Graph, batch: seq<Intent>)
    requires TaskBatch(g, batch) && ChildrenNumbered(g) && g.callbackId.None?
    ensures BatchOk(g.id, batch + UnpinsOf(g, g.children)) && GraphUnpins(g) == UnpinsOf(g, g.children)
    ensures forall i | 0 <= i < |batch + UnpinsOf(g, g.children)| ::
              (batch + UnpinsOf(g, g.children))[i].id.Stable? &&
              !(batch + UnpinsOf(g, g.children))[i].id.tag.ReplacementCompletionLabel?
  {
    UnpinBatch(g, |g.children|);
    assert g.children[..|g.children|] == g.children;
    hide UnpinsOf;
    var unpins := UnpinsOf(g, g.children);
    forall j | 0 <= j < |unpins| ensures unpins[j].id.Stable? && unpins[j].id.tag.UnpinLabel? {
      var k :| 0 <= k < |g.children| && unpins[j].id == UnpinId(g, TaskId(g.id, k));
    }
  }

  predicate BeforeReplacement(g: Graph, batch: seq<Intent>) {
    BatchOk(g.id, batch) &&
    forall i | 0 <= i < |batch| :: batch[i].id.Stable? && !batch[i].id.tag.ReplacementCompletionLabel?
  }

  lemma NestedBatch(c: Client, g: Graph, s: Intents)
    requires Core(g, s) && !g.state.Terminal() && AdvanceNestedSpec(c, g).Ok?
    ensures var (g', batch) := AdvanceNestedSpec(c, g).value; BeforeReplacement(g', batch)
  {
    hide PlanOk, NodesInv, IntentsOk, MembersOk, AllLeadToRoot, Turns, CancelFrom, Merge, UnpinsOf, ArgumentBytes,
           SettledBelow;
    StartKeepsCore(g, s);
    var (g1, intents) := NestedStart(g).value;
    if g.cancelRequested { CancelBatch(g, [], 0); }
    var p := Sweep(g1, intents, ArgumentBytes(c, g1.children), false);
    OneSweepSuffices(c, p, s);
    TurnsKeepBatch(c, p, s, |g1.plan| + 1);
    var q := Turns(c, p, |g1.plan| + 1).value;
    NumberedOf(q.graph);
    ReleasedBatch(q.graph, q.intents);
  }

  lemma NumberedOf(g: Graph)
    requires PlanOk(g)
    ensures ChildrenNumbered(g)
  {
  }

  lemma {:induction false} AbortBatch(g: Graph, s: Intents, intents: seq<Intent>, i: nat)
    requires i <= |g.plan| && Core(g, Merge(s, intents)) && TaskBatch(g, intents) && AbortNodes(g, intents, i).Ok?
    ensures TaskBatch(AbortNodes(g, intents, i).value.0, AbortNodes(g, intents, i).value.1)
    decreases |g.plan| - i
  {
    hide PlanOk, NodesInv, IntentsOk, MembersOk, AllLeadToRoot, Merge, TaskBatch;
    if i < |g.plan| {
      if g.plan[i].kind.CollectNode? || g.plan[i].id in g.members || g.plan[i].dispatched {
        AbortBatch(g, s, intents, i + 1);
      } else {
        FindTaskChild(g, i);
        var x := FailIntent(g.id, g.children[TaskIndex(g.plan[i].id)], g.abortFailure, Some(Failed));
        HandOutKeepsCore(g, Merge(s, intents), i, MarkDispatched(g, i), x);
        MergeSnoc(s, intents, x);
        TaskBatchSnoc(g, s, intents, x);
        TaskBatchSameId(g, MarkDispatched(g, i), intents + [x]);
        AbortBatch(MarkDispatched(g, i), s, intents + [x], i + 1);
      }
    }
  }

  lemma TaskBatchSameId(g: Graph, g': Graph, batch: seq<Intent>)
    requires TaskBatch(g, batch) && g'.id == g.id
    ensures TaskBatch(g', batch)
  {
  }

  lemma AbortedBatch(g: Graph, s: Intents)
    requires Core(g, s) && g.abortFailure.Some? && AdvanceAbortedSpec(g).Ok?
    ensures var (g', batch) := AdvanceAbortedSpec(g).value; BeforeReplacement(g', batch)
  {
    hide PlanOk, NodesInv, IntentsOk, MembersOk, AllLeadToRoot, Merge, AbortNodes, UnpinsOf, GraphUnpins;
    var cleared := g.(members := ClearOutputs(g.members), output := None);
    ClearedKeepsCore(g, s);
    MergeEmpty(s);
    AbortKeepsCore(cleared, s, [], 0);
    AbortBatch(cleared, s, [], 0);
    var (g1, intents) := AbortNodes(cleared, [], 0).value;
    NumberedOf(g1);
    ReleasedBatch(g1, intents);
  }

  /** Every advance of a stored DAG emits a batch the store accepts. */
  lemma AdvanceBatchAcceptable(c: Client, g: Graph, s: Intents)
    requires Core(g, s)
    ensures AdvanceSpec(c, g).Ok? && BatchOk(AdvanceSpec(c, g).value.0.id, AdvanceSpec(c, g).value.1)
  {
    hide PlanOk, NodesInv, IntentsOk, MembersOk, AllLeadToRoot, Merge, AdvanceNestedSpec, AdvanceAbortedSpec, UnpinsOf,
           GraphUnpins, Live;
    AdvanceKeepsInvariant(c, g, s);
    ModeBatch(c, g, s);
    var (next, batch) := AdvanceMode(c, g).value;
    assert AdvanceSpec(c, g).value == (next, batch + ReplacementCompletionIntents(next));
  }

  lemma ModeBatch(c: Client, g: Graph, s: Intents)
    requires Core(g, s) && AdvanceMode(c, g).Ok?
    ensures BeforeReplacement(AdvanceMode(c, g).value.0, AdvanceMode(c, g).value.1)
  {
    hide PlanOk, NodesInv, IntentsOk, MembersOk, AllLeadToRoot, Merge, AdvanceNestedSpec, AdvanceAbortedSpec, UnpinsOf,
           GraphUnpins;
    if g.abortFailure.Some? && !g.cancelRequested {
      AbortedBatch(g, s);
    } else if OverBudget(c, g) {
      var g' := g.(abortFailure := Some(BudgetExceeded));
      CoreFrame(g, g', s);
      AbortedBatch(g', s);
    } else if g.state.Terminal() {
      NumberedOf(g);
      ReleasedBatch(g, []);
      assert [] + UnpinsOf(g, g.children) == UnpinsOf(g, g.children);
    } else {
      NestedBatch(c, g, s);
    }
  }
}
