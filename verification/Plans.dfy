/** Well-formed plans: numbered, topologically ordered, one node per task, every node used. */
module Plans {
  import opened Protocol
  import opened Compiler

  function Prereqs(node: CanvasNode): seq<Id> { node.deps + node.waitFor }

  predicate KnownBefore(plan: seq<CanvasNode>, i: nat, id: Id)
    requires i <= |plan|
  {
    exists j | 0 <= j < i :: plan[j].id == id
  }

  predicate Planned(plan: seq<CanvasNode>, id: Id) { KnownBefore(plan, |plan|, id) }

  /** The declaration position of a compiled task. */
  function TaskIndex(id: Id): nat {
    if id.Stable? && id.tag.TaskLabel? then id.tag.n else 0
  }

  predicate NodeShape(g: Graph, i: nat)
    requires i < |g.plan|
  {
    var node := g.plan[i];
    match node.kind
    case CollectNode =>
      node.id == CollectId(g.id, i) && node.signature.None? && |node.deps| <= 1000 && |node.waitFor| <= 1 &&
      (node.waitFor != [] ==> node.deps == [])
    case TaskNode =>
      node.id == TaskId(g.id, TaskIndex(node.id)) && TaskIndex(node.id) < |g.children| &&
      node.signature.Some? && |node.deps| <= 1 && node.waitFor == []
  }

  predicate Topological(plan: seq<CanvasNode>) {
    forall i, d | 0 <= i < |plan| && d in Prereqs(plan[i]) :: KnownBefore(plan, i, d)
  }

  predicate TasksIncrease(plan: seq<CanvasNode>) {
    forall i, j | 0 <= i < j < |plan| && plan[i].kind.TaskNode? && plan[j].kind.TaskNode? ::
      TaskIndex(plan[i].id) < TaskIndex(plan[j].id)
  }

  /** A first-attempt envelope of one of the workflow's own tasks. */
  predicate Owned(g: Graph, e: Envelope) { e.workflow == Some(g.id) && e.retries == 0 }

  predicate ChildrenNumbered(g: Graph) {
    forall n | 0 <= n < |g.children| :: g.children[n].id == TaskId(g.id, n) && Owned(g, g.children[n])
  }

  predicate ChildrenPlanned(g: Graph) {
    forall n | 0 <= n < |g.children| :: Planned(g.plan, TaskId(g.id, n))
  }

  /** What every compiled plan satisfies and no later step changes. */
  predicate PlanOk(g: Graph) {
    (forall i | 0 <= i < |g.plan| :: NodeShape(g, i)) &&
    Topological(g.plan) && TasksIncrease(g.plan) && ChildrenNumbered(g) && ChildrenPlanned(g) && |g.children| <= 1000
  }

  /** The child envelope of a task node is the one its signature was prepared into. */
  predicate MatchedNode(g: Graph, i: nat)
    requires i < |g.plan|
  {
    var node := g.plan[i];
    node.kind.TaskNode? ==>
      TaskIndex(node.id) < |g.children| && node.signature.Some? &&
      var child, s := g.children[TaskIndex(node.id)], node.signature.value;
      child.task == s.task && child.scope == s.scope == g.scope && child.workflow == Some(g.id)
  }

  /** A node as the compiler leaves it: not handed out, with its declared arguments. */
  predicate FreshNode(g: Graph, i: nat)
    requires i < |g.plan|
  {
    var node := g.plan[i];
    !node.dispatched && MatchedNode(g, i) &&
    (node.kind.TaskNode? ==> g.children[TaskIndex(node.id)].args == node.signature.value.args)
  }

  predicate DistinctIds(plan: seq<CanvasNode>) {
    forall i, j | 0 <= i < j < |plan| :: plan[i].id != plan[j].id
  }

  lemma PlanOkDistinct(g: Graph)
    requires PlanOk(g)
    ensures DistinctIds(g.plan)
  {
    forall i, j | 0 <= i < j < |g.plan|
      ensures g.plan[i].id != g.plan[j].id
    {
      assert NodeShape(g, i) && NodeShape(g, j);
    }
  }

  predicate Consumed(plan: seq<CanvasNode>, i: nat)
    requires i < |plan|
  {
    exists j | i < j < |plan| :: plan[i].id in Prereqs(plan[j])
  }

  /** Every node from `lo` on is a prerequisite of a later node or one of `out`. */
  predicate Fed(plan: seq<CanvasNode>, lo: nat, out: set<Id>) {
    forall i | lo <= i < |plan| :: plan[i].id in out || Consumed(plan, i)
  }

  /** Every node leads to the root: the accepted graphs have no idle part. */
  predicate AllLeadToRoot(g: Graph) {
    g.rootNode.Some? && Planned(g.plan, g.rootNode.value) && Fed(g.plan, 0, {g.rootNode.value})
  }

  /** The closure argument behind "root done means all done": a set of ids that holds the root
      and the prerequisites of its elements holds every node. */
  lemma {:induction false} RootClosure(g: Graph, done: set<Id>, i: nat)
    requires AllLeadToRoot(g) && i < |g.plan|
    requires g.rootNode.value in done
    requires forall j, d | 0 <= j < |g.plan| && g.plan[j].id in done && d in Prereqs(g.plan[j]) :: d in done
    ensures g.plan[i].id in done
    decreases |g.plan| - i
  {
    if g.plan[i].id != g.rootNode.value {
      var j :| i < j < |g.plan| && g.plan[i].id in Prereqs(g.plan[j]);
      RootClosure(g, done, j);
    }
  }

  /** Appending a well-shaped node whose prerequisites are planned keeps a plan well formed. */
  lemma AppendKeepsPlan(g: Graph, g': Graph, node: CanvasNode)
    requires PlanOk(g)
    requires g'.id == g.id && g'.plan == g.plan + [node] && g.children <= g'.children
    requires node.kind.CollectNode? ==> g'.children == g.children
    requires node.kind.TaskNode? ==>
               |g.children| < 1000 && |g'.children| == |g.children| + 1 &&
               g'.children[|g.children|].id == node.id == TaskId(g.id, |g.children|) &&
               Owned(g, g'.children[|g.children|])
    requires NodeShape(g', |g.plan|)
    requires forall d | d in Prereqs(node) :: Planned(g.plan, d)
    ensures PlanOk(g')
  {
    var last := |g.plan|;
    forall i | 0 <= i < |g'.plan|
      ensures NodeShape(g', i)
    {
      if i < last { assert NodeShape(g, i); }
    }
    forall i, d | 0 <= i < |g'.plan| && d in Prereqs(g'.plan[i])
      ensures KnownBefore(g'.plan, i, d)
    {
      if i < last {
        assert KnownBefore(g.plan, i, d);
        var j :| 0 <= j < i && g.plan[j].id == d;
        assert g'.plan[j].id == d;
      } else {
        assert Planned(g.plan, d);
        var j :| 0 <= j < last && g.plan[j].id == d;
        assert g'.plan[j].id == d;
      }
    }
    forall i, j | 0 <= i < j < |g'.plan| && g'.plan[i].kind.TaskNode? && g'.plan[j].kind.TaskNode?
      ensures TaskIndex(g'.plan[i].id) < TaskIndex(g'.plan[j].id)
    {
      assert NodeShape(g, i);
    }
    forall n | 0 <= n < |g'.children|
      ensures Planned(g'.plan, TaskId(g'.id, n))
    {
      if n < |g.children| {
        assert Planned(g.plan, TaskId(g.id, n));
        var j :| 0 <= j < last && g.plan[j].id == TaskId(g.id, n);
        assert g'.plan[j].id == TaskId(g.id, n);
      } else {
        assert g'.plan[last].id == TaskId(g.id, n);
      }
    }
  }

  // ---- sizes ----

  lemma SubsetSize<T>(a: set<T>, b: set<T>)
    requires a <= b
    ensures |a| <= |b|
  {
    var rest := b - a;
    assert b == a + rest && |a + rest| == |a| + |rest|;
  }
}
