/** async/workflow_repair.go: the durable shape that repair demands of a graph, the tasks it looks
    at, and its agreement with what the engine stores. */
module Repair {
  import opened Protocol
  import opened Compiler
  import opened Plans
  import opened WorkflowStore
  import opened Flat
  import opened DagInvariant
  import opened DagAdvance
  import opened DagMeaning
  import opened DagRuns
  import opened FlatInvariant
  import opened FlatAdvance
  import opened FlatRuns
  import opened Rows

  predicate IsChildId(g: Graph, id: Id) { exists n | 0 <= n < |g.children| :: g.children[n].id == id }

  predicate DistinctChildren(g: Graph) {
    forall i, j | 0 <= i < j < |g.children| :: g.children[i].id != g.children[j].id
  }

  predicate ChildrenOwn(c: Client, g: Graph, id: Id) {
    forall n | 0 <= n < |g.children| ::
      c.admits(g.children[n]) && g.children[n].workflow == Some(id) && g.children[n].scope == g.scope
  }

  predicate Matches(s: Signature, child: Envelope) { s.task == child.task && s.scope == child.scope }

  predicate ChainShape(g: Graph) {
    g.next <= |g.children| && |g.signatures| == |g.children| &&
    forall n | 0 <= n < |g.children| :: Matches(g.signatures[n], g.children[n])
  }

  predicate ChordShape(c: Client, g: Graph, id: Id) {
    g.callback.Some? && g.callbackId.Some? && g.callback.value.scope == g.scope && !IsChildId(g, g.callbackId.value) &&
    (!g.callbackClaimed ==> g.callbackEnvelope.None?) &&
    (g.callbackClaimed ==> g.callbackEnvelope.Some? && BodyShape(c, g, id, g.callbackEnvelope.value))
  }

  predicate BodyShape(c: Client, g: Graph, id: Id, body: Envelope)
    requires g.callback.Some? && g.callbackId.Some?
  {
    c.admits(body) && body.id == g.callbackId.value && body.workflow == Some(id) && body.scope == g.scope &&
    body.task == g.callback.value.task
  }

  predicate NodeOk(g: Graph, i: nat)
    requires i < |g.plan|
  {
    var node := g.plan[i];
    !KnownBefore(g.plan, i, node.id) && |node.deps| <= 1000 && |node.waitFor| <= 1000 &&
    (forall d | d in Prereqs(node) :: KnownBefore(g.plan, i, d)) &&
    match node.kind
    case CollectNode => !IsChildId(g, node.id)
    case TaskNode =>
      node.signature.Some? && |node.deps| <= 1 &&
      exists n | 0 <= n < |g.children| :: g.children[n].id == node.id && Matches(node.signature.value, g.children[n])
  }

  function TaskCount(plan: seq<CanvasNode>): nat {
    if plan == [] then 0 else TaskCount(plan[..|plan| - 1]) + if plan[|plan| - 1].kind.TaskNode? then 1 else 0
  }

  predicate DagShape(g: Graph) {
    (forall i | 0 <= i < |g.plan| :: NodeOk(g, i)) && TaskCount(g.plan) == |g.children| && g.rootNode.Some? &&
    Planned(g.plan, g.rootNode.value)
  }

  /** Identities that may report: children, plan nodes and a claimed body. */
  predicate AllowedMember(g: Graph, id: Id) {
    IsChildId(g, id) || (g.kind.Dag? && Planned(g.plan, id)) ||
    (g.kind.Chord? && g.callbackClaimed && g.callbackId == Some(id))
  }

  predicate MembersShape(g: Graph) {
    |g.members| <= 2001 &&
    forall id | id in g.members ::
      AllowedMember(g, id) && g.members[id].id == id && g.members[id].outcome.state.Terminal()
  }

  /** Everything repairGraph checks. */
  predicate RepairShape(c: Client, g: Graph, id: Id) {
    g.id == id && g.revision > 0 && |g.children| <= 1000 && |g.plan| <= 2000 &&
    c.fits(g, [], MaxWorkflowDurableBytes) &&
    StateOk(g) && ChildrenOwn(c, g, id) && DistinctChildren(g) && MembersShape(g) &&
    match g.kind
    case Chain => ChainShape(g)
    case Group => true
    case Chord => ChordShape(c, g, id)
    case Dag => DagShape(g)
  }

  predicate Looked(g: Graph, n: nat)
    requires n < |g.children|
  {
    match g.kind
    case Chain => n <= g.next || g.cancelRequested || g.abortFailure.Some?
    case Dag => exists i | 0 <= i < |g.plan| ::
                  g.plan[i].id == g.children[n].id && g.plan[i].kind.TaskNode? && g.plan[i].dispatched
    case _ => true
  }

  /** Whether repair looks at this envelope's task. */
  predicate Candidate(g: Graph, e: Envelope) {
    !g.state.Terminal() && e.id !in g.members &&
    ((exists n | 0 <= n < |g.children| :: g.children[n] == e && Looked(g, n)) ||
     (g.kind.Chord? && g.callbackClaimed && g.callbackEnvelope == Some(e)))
  }

  // ---- repairGraph ----

  method CheckChildren(c: Client, g: Graph, id: Id) returns (ok: bool)
    ensures ok <==> ChildrenOwn(c, g, id) && DistinctChildren(g)
  {
    var seen: set<Id> := {};
    for n := 0 to |g.children|
      invariant forall i | 0 <= i < n ::
                  c.admits(g.children[i]) && g.children[i].workflow == Some(id) && g.children[i].scope == g.scope
      invariant forall i, j | 0 <= i < j < n :: g.children[i].id != g.children[j].id
      invariant seen == set i | 0 <= i < n :: g.children[i].id
    {
      var child := g.children[n];
      if !c.admits(child) || child.workflow != Some(id) || child.scope != g.scope { return false; }
      if child.id in seen {
        ghost var i :| 0 <= i < n && g.children[i].id == child.id;
        return false;
      }
      seen := seen + {child.id};
    }
    ok := true;
  }

  method CheckDag(g: Graph) returns (ok: bool)
    requires DistinctChildren(g)
    ensures ok <==> DagShape(g)
  {
    var nodes: set<Id> := {};
    var count := 0;
    for i := 0 to |g.plan|
      invariant forall j | 0 <= j < i :: NodeOk(g, j)
      invariant forall id :: id in nodes <==> KnownBefore(g.plan, i, id)
      invariant count == TaskCount(g.plan[..i])
    {
      var node := g.plan[i];
      if node.id in nodes || |node.deps| > 1000 || |node.waitFor| > 1000 {
        assert !NodeOk(g, i);
        return false;
      }
      if exists d | d in Prereqs(node) :: d !in nodes {
        assert !NodeOk(g, i);
        return false;
      }
      nodes := nodes + {node.id};
      KnownNext(g.plan, i);
      assert g.plan[..i + 1][..i] == g.plan[..i];
      match node.kind
      case CollectNode =>
        if IsChildId(g, node.id) {
          assert !NodeOk(g, i);
          return false;
        }
      case TaskNode =>
        if node.signature.None? || |node.deps| > 1 ||
           !exists n | 0 <= n < |g.children| ::
             g.children[n].id == node.id && Matches(node.signature.value, g.children[n]) {
          assert !NodeOk(g, i);
          return false;
        }
        count := count + 1;
    }
    assert g.plan[..|g.plan|] == g.plan;
    ok := count == |g.children| && g.rootNode.Some? && g.rootNode.value in nodes;
  }

  lemma KnownNext(plan: seq<CanvasNode>, i: nat)
    requires i < |plan|
    ensures forall id :: KnownBefore(plan, i + 1, id) <==> KnownBefore(plan, i, id) || id == plan[i].id
  {
    forall id ensures KnownBefore(plan, i + 1, id) <==> KnownBefore(plan, i, id) || id == plan[i].id {
      if KnownBefore(plan, i, id) { var j :| 0 <= j < i && plan[j].id == id; assert plan[j].id == id; }
    }
  }

  method RepairGraph(c: Client, g: Graph, id: Id) returns (r: Result<seq<Envelope>>)
    ensures r.Ok? <==> RepairShape(c, g, id)
    ensures r.Ok? ==> forall e :: e in r.value <==> Candidate(g, e)
  {
    if g.id != id || g.revision == 0 || |g.members| > 2001 || |g.children| > 1000 || |g.plan| > 2000 ||
       !c.fits(g, [], MaxWorkflowDurableBytes) {
      return Err(Unavailable);
    }
    if g.state != Running && !g.state.Terminal() { return Err(Unavailable); }
    var childrenOk := CheckChildren(c, g, id);
    if !childrenOk { return Err(Unavailable); }
    match g.kind {
      case Chain => if !ChainShape(g) { return Err(Unavailable); }
      case Group =>
      case Chord => if !ChordShape(c, g, id) { return Err(Unavailable); }
      case Dag =>
        var dagOk := CheckDag(g);
        if !dagOk { return Err(Unavailable); }
    }
    if exists k | k in g.members ::
         !(AllowedMember(g, k) && g.members[k].id == k && g.members[k].outcome.state.Terminal()) {
      return Err(Unavailable);
    }
    if g.state.Terminal() { return Ok([]); }
    var candidates := Candidates(g);
    r := Ok(candidates);
  }

  method Candidates(g: Graph) returns (candidates: seq<Envelope>)
    requires !g.state.Terminal() && (g.kind.Chord? && g.callbackClaimed ==> g.callbackEnvelope.Some?)
    ensures forall e :: e in candidates <==> Candidate(g, e)
  {
    candidates := [];
    for n := 0 to |g.children|
      invariant forall e ::
                  e in candidates <==> e.id !in g.members && exists i | 0 <= i < n :: g.children[i] == e && Looked(g, i)
    {
      if Looked(g, n) && g.children[n].id !in g.members { candidates := candidates + [g.children[n]]; }
    }
    if g.kind.Chord? && g.callbackClaimed && g.callbackEnvelope.value.id !in g.members {
      candidates := candidates + [g.callbackEnvelope.value];
    }
  }

  // ---- stored graphs pass ----

  function Ids(plan: seq<CanvasNode>): set<Id> { set i | 0 <= i < |plan| :: plan[i].id }

  lemma {:induction false} IdsCount(plan: seq<CanvasNode>)
    ensures |Ids(plan)| <= |plan|
    decreases |plan|
  {
    if plan != [] {
      var front := plan[..|plan| - 1];
      IdsCount(front);
      assert Ids(plan) == Ids(front) + {plan[|plan| - 1].id} by {
        forall i | 0 <= i < |front| ensures plan[i].id in Ids(front) { assert front[i] == plan[i]; }
        forall i | 0 <= i < |front| ensures front[i].id in Ids(plan) { assert plan[i] == front[i]; }
      }
    }
  }

  lemma DagMembersCount(g: Graph)
    requires MembersOk(g)
    ensures |g.members| <= |g.plan|
  {
    IdsCount(g.plan);
    forall id | id in g.members ensures id in Ids(g.plan) {
      assert Planned(g.plan, id);
      var i :| 0 <= i < |g.plan| && g.plan[i].id == id;
      assert g.plan[i].id in Ids(g.plan);
    }
    SubsetSize(g.members.Keys, Ids(g.plan));
    assert |g.members.Keys| == |g.members|;
  }

  /** The positions of the tasks a plan declares. */
  function Positions(plan: seq<CanvasNode>): set<nat> {
    set i | 0 <= i < |plan| && plan[i].kind.TaskNode? :: TaskIndex(plan[i].id)
  }

  lemma {:induction false} CountIsPositions(plan: seq<CanvasNode>)
    requires TasksIncrease(plan)
    ensures TaskCount(plan) == |Positions(plan)|
    decreases |plan|
  {
    if plan != [] {
      var front, last := plan[..|plan| - 1], plan[|plan| - 1];
      assert TasksIncrease(front) by {
        forall i, j | 0 <= i < j < |front| && front[i].kind.TaskNode? && front[j].kind.TaskNode?
          ensures TaskIndex(front[i].id) < TaskIndex(front[j].id)
        {
          assert plan[i] == front[i] && plan[j] == front[j];
        }
      }
      CountIsPositions(front);
      PositionsSnoc(plan);
    }
  }

  lemma PositionsSnoc(plan: seq<CanvasNode>)
    requires TasksIncrease(plan) && plan != []
    ensures var front, last := plan[..|plan| - 1], plan[|plan| - 1];
            Positions(plan) ==
              (if last.kind.TaskNode? then Positions(front) + {TaskIndex(last.id)} else Positions(front)) &&
            (last.kind.TaskNode? ==> TaskIndex(last.id) !in Positions(front))
  {
    var front, last := plan[..|plan| - 1], plan[|plan| - 1];
    forall i | 0 <= i < |front| && front[i].kind.TaskNode? ensures TaskIndex(front[i].id) in Positions(plan) {
      assert plan[i] == front[i];
    }
    forall i | 0 <= i < |plan| - 1 && plan[i].kind.TaskNode? ensures TaskIndex(plan[i].id) in Positions(front) {
      assert plan[i] == front[i];
    }
    if last.kind.TaskNode? {
      forall i | 0 <= i < |front| && front[i].kind.TaskNode? ensures TaskIndex(front[i].id) < TaskIndex(last.id) {
        assert plan[i] == front[i] && plan[|plan| - 1] == last;
      }
    }
  }

  /** The numbers below `n`. */
  function Below(n: nat): (r: set<nat>)
    ensures |r| == n && forall i: nat :: i in r <==> i < n
  {
    if n == 0 then {} else Below(n - 1) + {n - 1}
  }

  lemma TaskCountIsChildren(g: Graph)
    requires PlanOk(g)
    ensures TaskCount(g.plan) == |g.children|
  {
    CountIsPositions(g.plan);
    assert Positions(g.plan) == Below(|g.children|) by {
      forall i | 0 <= i < |g.plan| && g.plan[i].kind.TaskNode? ensures TaskIndex(g.plan[i].id) in Below(|g.children|) {
        assert NodeShape(g, i);
      }
      forall n | 0 <= n < |g.children| ensures n in Positions(g.plan) {
        assert Planned(g.plan, TaskId(g.id, n));
        var i :| 0 <= i < |g.plan| && g.plan[i].id == TaskId(g.id, n);
        assert NodeShape(g, i);
      }
    }
  }

  lemma NodePasses(g: Graph, i: nat)
    requires Static(g) && i < |g.plan|
    ensures NodeOk(g, i)
  {
    var node := g.plan[i];
    assert NodeShape(g, i) && MatchedNode(g, i);
    PlanOkDistinct(g);
    assert !KnownBefore(g.plan, i, node.id);
    forall d | d in Prereqs(node) ensures KnownBefore(g.plan, i, d) {}
    match node.kind
    case CollectNode =>
      forall n | 0 <= n < |g.children| ensures g.children[n].id != node.id {
        assert g.children[n].id == TaskId(g.id, n);
      }
    case TaskNode =>
      var n := TaskIndex(node.id);
      assert g.children[n].id == node.id && Matches(node.signature.value, g.children[n]);
  }

  lemma DagChildrenPass(c: Client, g: Graph)
    requires Static(g) && forall n | 0 <= n < |g.children| :: c.admits(g.children[n])
    ensures ChildrenOwn(c, g, g.id) && DistinctChildren(g)
  {
    forall n | 0 <= n < |g.children| ensures g.children[n].workflow == Some(g.id) && g.children[n].scope == g.scope {
      assert Planned(g.plan, TaskId(g.id, n));
      var i :| 0 <= i < |g.plan| && g.plan[i].id == TaskId(g.id, n);
      assert NodeShape(g, i) && MatchedNode(g, i);
    }
  }

  lemma DagPasses(c: Client, row: Row)
    requires Reachable(row) && row.graph.revision > 0 && c.fits(row.graph, [], MaxWorkflowDurableBytes)
    requires forall n | 0 <= n < |row.graph.children| :: c.admits(row.graph.children[n])
    ensures RepairShape(c, row.graph, row.graph.id)
  {
    var g := row.graph;
    DagMembersCount(g);
    TaskCountIsChildren(g);
    DagChildrenPass(c, g);
    forall i | 0 <= i < |g.plan| ensures NodeOk(g, i) { NodePasses(g, i); }
    hide PlanOk, NodesInv, IntentsOk, NodeOk, MatchedPlan, ChildrenOwn, DistinctChildren, Live, TaskCount, Fed;
  }

  lemma FlatMembersCount(c: Client, g: Graph)
    requires FlatStatic(c, g) && FlatMembersOk(g)
    ensures |g.members| <= |g.children| + 1
  {
    var own := set n | 0 <= n < |g.children| :: ChildId(g.id, n);
    ChildIdsCount(g.id, |g.children|);
    forall id | id in g.members ensures id in own + {BodyId(g.id)} {
      assert IsFlatTask(g, id);
      if IsChild(g, id) {
        var n :| 0 <= n < |g.children| && ChildId(g.id, n) == id;
        assert ChildId(g.id, n) in own;
      }
    }
    SubsetSize(g.members.Keys, own + {BodyId(g.id)});
    assert |g.members.Keys| == |g.members|;
  }

  lemma {:induction false} ChildIdsCount(id: Id, m: nat)
    ensures |(set n | 0 <= n < m :: ChildId(id, n))| == m
    decreases m
  {
    if m > 0 {
      ChildIdsCount(id, m - 1);
      assert (set n | 0 <= n < m :: ChildId(id, n)) ==
               (set n | 0 <= n < m - 1 :: ChildId(id, n)) + {ChildId(id, m - 1)};
    }
  }

  lemma FlatPasses(c: Client, row: Row)
    requires FlatReachable(c, row) && row.graph.revision > 0 && c.fits(row.graph, [], MaxWorkflowDurableBytes)
    requires forall n | 0 <= n < |row.graph.children| :: c.admits(row.graph.children[n])
    requires row.graph.callbackEnvelope.Some? ==> c.admits(row.graph.callbackEnvelope.value)
    ensures RepairShape(c, row.graph, row.graph.id)
  {
    var g := row.graph;
    FlatMembersCount(c, g);
    forall n | 0 <= n < |g.children|
      ensures g.children[n].workflow == Some(g.id) && g.children[n].scope == g.scope &&
              (g.kind.Chain? ==> Matches(g.signatures[n], g.children[n]))
    {
      assert InScope(g, n);
    }
    forall id | id in g.members ensures AllowedMember(g, id) {
      assert IsFlatTask(g, id);
      if IsChild(g, id) {
        var n :| 0 <= n < |g.children| && ChildId(g.id, n) == id;
        assert g.children[n].id == id;
      }
    }
    hide ChildInv, FlatIntentsOk, FlatLive, AllOut, BodyInv, FlatMembersOk;
  }

  /** Every envelope of the graph is valid as it is stored. */
  predicate EnvelopesValid(c: Client, g: Graph) {
    (forall n | 0 <= n < |g.children| :: c.admits(g.children[n])) &&
    (g.callbackClaimed ==> g.callbackEnvelope.Some? && c.admits(g.callbackEnvelope.value))
  }

  /** Repair accepts a row that the store accepted if and only if its envelopes are valid as stored. */
  lemma StoredGraphsPass(c: Client, row: Row)
    requires RowOk(c, row) && Storable(c, row.graph)
    ensures RepairShape(c, row.graph, row.graph.id) <==> EnvelopesValid(c, row.graph)
  {
    var g := row.graph;
    if EnvelopesValid(c, g) {
      if g.kind.Dag? { DagPasses(c, row); } else { NoEarlyBody(c, row); FlatPasses(c, row); }
    } else if RepairShape(c, g, g.id) {
      PassedParts(c, row);
    }
  }

  lemma NoEarlyBody(c: Client, row: Row)
    requires FlatReachable(c, row)
    ensures row.graph.callbackEnvelope.Some? ==> row.graph.callbackClaimed
  {
  }

  lemma PassedParts(c: Client, row: Row)
    requires RowOk(c, row) && RepairShape(c, row.graph, row.graph.id)
    ensures EnvelopesValid(c, row.graph)
  {
    var g := row.graph;
    if g.callbackClaimed { assert g.kind.Chord?; }
  }

  // ---- the candidates are the outstanding tasks ----

  lemma DagCandidate(row: Row, id: Id)
    requires Reachable(row) && !row.graph.state.Terminal()
    ensures (exists e :: Candidate(row.graph, e) && e.id == id) <==> Out(row, id) && id !in row.graph.members
  {
    var g, s := row.graph, row.intents;
    if Out(row, id) && id !in g.members {
      var i := HandedOutDispatched(g, s, id);
      FindTaskChild(g, i);
      var n := TaskIndex(id);
      assert Looked(g, n) by { assert g.plan[i].id == g.children[n].id; }
      assert Candidate(g, g.children[n]);
    }
    if e :| Candidate(g, e) && e.id == id {
      var n :| 0 <= n < |g.children| && g.children[n] == e && Looked(g, n);
      var i :| 0 <= i < |g.plan| && g.plan[i].id == g.children[n].id && g.plan[i].kind.TaskNode? &&
      g.plan[i].dispatched;
      assert NodeInv(g, s, i);
      assert IsTask(g, id);
    }
  }

  /** In a chain that is not settled, repair looks exactly at the handed-out children. */
  lemma ChildLooked(c: Client, row: Row, n: nat)
    requires FlatReachable(c, row) && !row.graph.state.Terminal() && n < |row.graph.children| &&
             ChildId(row.graph.id, n) !in row.graph.members
    ensures Looked(row.graph, n) <==> HandedOut(row.graph, row.intents, ChildId(row.graph.id, n))
  {
    var g, s := row.graph, row.intents;
    assert ChildInv(g, s, n);
    assert ChildId(g.id, n) in g.members || Normal(g) || HandedOut(g, s, ChildId(g.id, n));
  }

  lemma FlatCandidate(c: Client, row: Row, id: Id)
    requires FlatReachable(c, row) && !row.graph.kind.Dag? && !row.graph.state.Terminal()
    ensures (exists e :: Candidate(row.graph, e) && e.id == id) <==> Out(row, id) && id !in row.graph.members
  {
    FlatFacts(c, row.graph, row.intents);
    if Out(row, id) && id !in row.graph.members { FlatOutIsCandidate(c, row, id); }
    if e :| Candidate(row.graph, e) && e.id == id { FlatCandidateIsOut(c, row, e); }
  }

  lemma FlatOutIsCandidate(c: Client, row: Row, id: Id)
    requires FlatReachable(c, row) && !row.graph.kind.Dag? && !row.graph.state.Terminal() && Out(row, id) &&
             id !in row.graph.members
    ensures exists e :: Candidate(row.graph, e) && e.id == id
  {
    var g := row.graph;
    FlatFacts(c, g, row.intents);
    if IsChild(g, id) {
      var n :| 0 <= n < |g.children| && ChildId(g.id, n) == id;
      ChildLooked(c, row, n);
      assert g.children[n].id == id;
      assert Candidate(g, g.children[n]);
    } else {
      ClaimedBody(c, row);
      assert Candidate(g, g.callbackEnvelope.value);
    }
  }

  lemma ClaimedBody(c: Client, row: Row)
    requires FlatReachable(c, row) && row.graph.callbackClaimed
    ensures row.graph.kind.Chord? && row.graph.callbackEnvelope.Some? &&
            row.graph.callbackEnvelope.value.id == BodyId(row.graph.id)
    ensures row.graph.callbackId == Some(BodyId(row.graph.id)) &&
            HandedOut(row.graph, row.intents, BodyId(row.graph.id))
  {
  }

  lemma FlatCandidateIsOut(c: Client, row: Row, e: Envelope)
    requires FlatReachable(c, row) && !row.graph.kind.Dag? && Candidate(row.graph, e)
    ensures Out(row, e.id) && e.id !in row.graph.members
  {
    var g := row.graph;
    FlatFacts(c, g, row.intents);
    if n :| 0 <= n < |g.children| && g.children[n] == e && Looked(g, n) {
      assert ChildId(g.id, n) == e.id;
      ChildLooked(c, row, n);
      assert IsChild(g, e.id);
    } else {
      ClaimedBody(c, row);
    }
  }

  /** Repair looks exactly at the tasks that were handed out and have no recorded member. */
  lemma CandidatesAreOutstanding(c: Client, row: Row, id: Id)
    requires RowOk(c, row) && !row.graph.state.Terminal()
    ensures (exists e :: Candidate(row.graph, e) && e.id == id) <==> Out(row, id) && id !in row.graph.members
  {
    if row.graph.kind.Dag? { DagCandidate(row, id); } else { FlatCandidate(c, row, id); }
  }
}
