/** Compilation preserves meaning: evaluating the compiled plan node by node gives the root
    exactly the outcome the canvas means, and the plan is well formed and fully used. */
module Preservation {
  import opened Protocol
  import opened Compiler
  import opened Meaning
  import opened Plans

  function Look(m: map<Id, Outcome>, id: Id): Outcome {
    if id in m then m[id] else Failing(GroupFailed)
  }

  function Looks(m: map<Id, Outcome>, ids: seq<Id>): seq<Outcome> {
    seq(|ids|, i requires 0 <= i < |ids| => Look(m, ids[i]))
  }

  function FirstOf(m: map<Id, Outcome>, ids: seq<Id>): Option<Outcome> {
    if ids == [] then None else Some(Look(m, ids[0]))
  }

  /** The outcome of one node when its prerequisites have the outcomes in `m`. */
  function NodeOutcome(c: Client, w: World, node: CanvasNode, m: map<Id, Outcome>): Outcome {
    match node.kind
    case CollectNode => Gather(Looks(m, node.deps), FirstOf(m, node.waitFor))
    case TaskNode =>
      if node.signature.None? then Failing(WorkflowInput)
      else MeanTask(c, w, node.signature.value, FirstOf(m, node.deps), TaskIndex(node.id))
  }

  /** The outcome of every node of a plan, evaluated in plan order. */
  function Denote(c: Client, w: World, plan: seq<CanvasNode>): map<Id, Outcome>
    decreases |plan|
  {
    if plan == [] then map[] else
      var m := Denote(c, w, plan[..|plan| - 1]);
      m[plan[|plan| - 1].id := NodeOutcome(c, w, plan[|plan| - 1], m)]
  }

  function Val(c: Client, w: World, g: Graph, id: Id): Outcome {
    Look(Denote(c, w, g.plan), id)
  }

  function InputVal(c: Client, w: World, g: Graph, input: Option<ValueReference>): Option<Outcome> {
    if input.None? then None else Some(Val(c, w, g, input.value.id))
  }

  function Vals(c: Client, w: World, g: Graph, refs: seq<ValueReference>): seq<Outcome> {
    seq(|refs|, i requires 0 <= i < |refs| => Val(c, w, g, refs[i].id))
  }

  lemma {:induction false} DenoteKeys(c: Client, w: World, plan: seq<CanvasNode>, id: Id)
    ensures id in Denote(c, w, plan) <==> Planned(plan, id)
    decreases |plan|
  {
    if plan != [] {
      var front := plan[..|plan| - 1];
      DenoteKeys(c, w, front, id);
      if Planned(front, id) {
        var j :| 0 <= j < |front| && front[j].id == id;
        assert plan[j].id == id;
      }
      if Planned(plan, id) && plan[|plan| - 1].id != id {
        var j :| 0 <= j < |plan| && plan[j].id == id;
        assert front[j].id == id;
      }
    }
  }

  /** Later nodes do not change the outcome of earlier ones. */
  lemma {:induction false} DenotePrefix(c: Client, w: World, p: seq<CanvasNode>, q: seq<CanvasNode>, id: Id)
    requires p <= q && DistinctIds(q) && Planned(p, id)
    ensures Look(Denote(c, w, q), id) == Look(Denote(c, w, p), id)
    decreases |q|
  {
    if |p| < |q| {
      var front := q[..|q| - 1];
      assert p <= front;
      DenotePrefix(c, w, p, front, id);
      var j :| 0 <= j < |p| && p[j].id == id;
      assert q[j].id == id;
      DenoteKeys(c, w, front, id);
      assert front[j].id == id;
    } else {
      assert p == q;
    }
  }

  lemma ValStable(c: Client, w: World, g: Graph, g': Graph, id: Id)
    requires g.plan <= g'.plan && PlanOk(g') && Planned(g.plan, id)
    ensures Val(c, w, g', id) == Val(c, w, g, id) && Planned(g'.plan, id)
  {
    PlanOkDistinct(g');
    DenotePrefix(c, w, g.plan, g'.plan, id);
    var j :| 0 <= j < |g.plan| && g.plan[j].id == id;
    assert g'.plan[j].id == id;
  }

  /** The value of the node a compiler call has just appended. */
  lemma ValOfAppended(c: Client, w: World, g: Graph, g': Graph, node: CanvasNode)
    requires g'.plan == g.plan + [node]
    ensures Val(c, w, g', node.id) == NodeOutcome(c, w, node, Denote(c, w, g.plan))
    ensures Planned(g'.plan, node.id)
  {
    assert g'.plan[..|g'.plan| - 1] == g.plan;
    assert g'.plan[|g.plan|].id == node.id;
  }

  predicate Uses(plan: seq<CanvasNode>, lo: nat, id: Id) {
    exists j | lo <= j < |plan| :: id in Prereqs(plan[j])
  }

  lemma FedExtend(p: seq<CanvasNode>, q: seq<CanvasNode>, lo: nat, out: set<Id>, out': set<Id>)
    requires p <= q && Fed(p, lo, out) && Fed(q, |p|, out')
    requires forall id | id in out :: id in out' || Uses(q, |p|, id)
    ensures Fed(q, lo, out')
  {
    forall i | lo <= i < |q|
      ensures q[i].id in out' || Consumed(q, i)
    {
      if i < |p| {
        if p[i].id !in out {
          var j :| i < j < |p| && p[i].id in Prereqs(p[j]);
          assert q[j] == p[j];
        } else if p[i].id !in out' {
          var j :| |p| <= j < |q| && p[i].id in Prereqs(q[j]);
          assert q[i].id in Prereqs(q[j]);
        }
      }
    }
  }

  predicate Grown(b: Build, b': Build) {
    b'.graph == b.graph.(scope := b'.graph.scope, children := b'.graph.children, plan := b'.graph.plan) &&
    b.graph.plan <= b'.graph.plan && b.graph.children <= b'.graph.children
  }

  /** A graph with tasks has its scope fixed. */
  predicate Latched(b: Build) { |b.graph.children| > 0 ==> b.hasScope }

  /** One scope for all tasks, and every node made in between as the compiler makes it. */
  predicate FreshSince(b: Build, b': Build) {
    Latched(b) ==>
      Latched(b') && (b.hasScope ==> b'.hasScope && b'.graph.scope == b.graph.scope) &&
      forall i | |b.graph.plan| <= i < |b'.graph.plan| :: FreshNode(b'.graph, i)
  }

  lemma FreshTrans(b: Build, m: Build, b': Build)
    requires Grown(b, m) && Grown(m, b') && FreshSince(b, m) && FreshSince(m, b') && PlanOk(m.graph)
    ensures FreshSince(b, b')
  {
    if Latched(b) {
      forall i | |b.graph.plan| <= i < |b'.graph.plan| ensures FreshNode(b'.graph, i) {
        if i < |m.graph.plan| { assert FreshNode(m.graph, i) && NodeShape(m.graph, i); }
      }
    }
  }

  predicate InputOk(g: Graph, input: Option<ValueReference>) {
    input.Some? ==> Planned(g.plan, input.value.id)
  }

  /** The input is passed on or used by a node made in between. */
  predicate Threaded(b: Build, b': Build, input: Option<ValueReference>, out: set<Id>) {
    input.Some? ==> input.value.id in out || Uses(b'.graph.plan, |b.graph.plan|, input.value.id)
  }

  predicate Sound(b: Build, b': Build, tasks: nat, input: Option<ValueReference>, out: set<Id>) {
    PlanOk(b'.graph) && Grown(b, b') && FreshSince(b, b') && |b'.graph.children| == |b.graph.children| + tasks &&
    Fed(b'.graph.plan, |b.graph.plan|, out) && Threaded(b, b', input, out) &&
    forall id | id in out :: Planned(b'.graph.plan, id)
  }

  lemma SoundCompose(b: Build, m: Build, b': Build, t1: nat, t2: nat, input: Option<ValueReference>,
      mid: Option<ValueReference>, out: set<Id>)
    requires Sound(b, m, t1, input, if mid.Some? then {mid.value.id} else {})
    requires mid.Some? || m == b
    requires Sound(m, b', t2, if mid.Some? then mid else input, out)
    ensures Sound(b, b', t1 + t2, input, out)
  {
    FreshTrans(b, m, b');
    hide FreshSince, PlanOk, Planned, Fed;
    var p, q := m.graph.plan, b'.graph.plan;
    var outs := if mid.Some? then {mid.value.id} else {};
    FedExtend(p, q, |b.graph.plan|, outs, out);
    if input.Some? && input.value.id !in out && mid.Some? {
      if input.value.id in outs {
        var j :| |p| <= j < |q| && input.value.id in Prereqs(q[j]);
      } else {
        var j :| |b.graph.plan| <= j < |p| && input.value.id in Prereqs(p[j]);
        assert q[j] == p[j];
      }
    }
  }

  lemma TaskSound(c: Client, w: World, b: Build, s: Signature, input: Option<ValueReference>)
    requires PlanOk(b.graph) && InputOk(b.graph, input) && TaskSpec(c, b, s, input).Ok?
    ensures var (b', v) := TaskSpec(c, b, s, input).value;
            Sound(b, b', 1, input, {v.id}) && |b'.graph.plan| == |b.graph.plan| + 1 &&
            Val(c, w, b'.graph, v.id) == MeanTask(c, w, s, InputVal(c, w, b.graph, input), |b.graph.children|)
  {
    var (b', v) := TaskSpec(c, b, s, input).value;
    var node := b'.graph.plan[|b.graph.plan|];
    assert b'.graph.plan == b.graph.plan + [node];
    forall d | d in Prereqs(node) ensures Planned(b.graph.plan, d) {}
    AppendKeepsPlan(b.graph, b'.graph, node);
    assert FreshSince(b, b');
    hide PlanOk, FreshSince, Prepare;
    ValOfAppended(c, w, b.graph, b'.graph, node);
    if input.Some? { assert input.value.id in Prereqs(node); }
  }

  function IdSet(refs: seq<ValueReference>): set<Id> { set i | 0 <= i < |refs| :: refs[i].id }

  lemma CollectSound(c: Client, w: World, b: Build, values: seq<ValueReference>, input: Option<ValueReference>)
    requires PlanOk(b.graph) && InputOk(b.graph, input) && |values| <= 1000
    requires forall i | 0 <= i < |values| :: Planned(b.graph.plan, values[i].id)
    ensures var (b', v) := CollectSpec(b, values, input);
            PlanOk(b'.graph) && Grown(b, b') && FreshSince(b, b') && b'.graph.children == b.graph.children &&
            Fed(b'.graph.plan, |b.graph.plan|, {v.id}) && Planned(b'.graph.plan, v.id) &&
            (forall i | 0 <= i < |values| :: Uses(b'.graph.plan, |b.graph.plan|, values[i].id)) &&
            (values == [] ==> Threaded(b, b', input, {v.id})) &&
            Val(c, w, b'.graph, v.id) == MeanGroup(Vals(c, w, b.graph, values), InputVal(c, w, b.graph, input))
  {
    var (b', v) := CollectSpec(b, values, input);
    CollectPlan(b, values, input);
    CollectVal(c, w, b, values, input);
    hide PlanOk, MeanGroup, Val, Vals, Denote;
    var node := b'.graph.plan[|b.graph.plan|];
    forall i | 0 <= i < |values| ensures values[i].id in Prereqs(node) { assert node.deps[i] == values[i].id; }
  }

  lemma CollectPlan(b: Build, values: seq<ValueReference>, input: Option<ValueReference>)
    requires PlanOk(b.graph) && InputOk(b.graph, input) && |values| <= 1000
    requires forall i | 0 <= i < |values| :: Planned(b.graph.plan, values[i].id)
    ensures var (b', v) := CollectSpec(b, values, input); PlanOk(b'.graph) && Planned(b'.graph.plan, v.id)
  {
    var (b', v) := CollectSpec(b, values, input);
    var node := b'.graph.plan[|b.graph.plan|];
    assert b'.graph.plan == b.graph.plan + [node];
    AppendKeepsPlan(b.graph, b'.graph, node);
    assert b'.graph.plan[|b.graph.plan|].id == v.id;
  }

  lemma CollectVal(c: Client, w: World, b: Build, values: seq<ValueReference>, input: Option<ValueReference>)
    requires |values| <= 1000
    ensures var (b', v) := CollectSpec(b, values, input);
            Val(c, w, b'.graph, v.id) == MeanGroup(Vals(c, w, b.graph, values), InputVal(c, w, b.graph, input))
  {
    var (b', v) := CollectSpec(b, values, input);
    var node := b'.graph.plan[|b.graph.plan|];
    assert b'.graph.plan == b.graph.plan + [node];
    ValOfAppended(c, w, b.graph, b'.graph, node);
    assert Looks(Denote(c, w, b.graph.plan), node.deps) == Vals(c, w, b.graph, values);
  }

  lemma {:induction false} ChainSound(c: Client, w: World, b: Build, sigs: seq<Signature>,
      previous: Option<ValueReference>)
    requires PlanOk(b.graph) && InputOk(b.graph, previous) && ChainSpec(c, b, sigs, previous).Ok?
    ensures var (b', last) := ChainSpec(c, b, sigs, previous).value;
            Sound(b, b', |sigs|, previous, if last.Some? then {last.value.id} else {}) &&
            (last.None? ==> b' == b && previous.None?) &&
            InputVal(c, w, b'.graph, last) ==
              MeanChain(c, w, sigs, InputVal(c, w, b.graph, previous), |b.graph.children|)
    decreases sigs
  {
    hide PlanOk, Planned, Denote, TaskSpec, MeanTask;
    if sigs != [] {
      TaskSound(c, w, b, sigs[0], previous);
      var (m, v) := TaskSpec(c, b, sigs[0], previous).value;
      ChainSound(c, w, m, sigs[1..], Some(v));
      var (b', last) := ChainSpec(c, b, sigs, previous).value;
      SoundCompose(b, m, b', 1, |sigs| - 1, previous, Some(v), {last.value.id});
    }
  }

  /** What a list of side-by-side parts guarantees about the references it made. */
  predicate Parts(c: Client, w: World, b: Build, b': Build, tasks: nat, input: Option<ValueReference>,
      values: seq<ValueReference>, meanings: seq<Outcome>) {
    PlanOk(b'.graph) && Grown(b, b') && FreshSince(b, b') && |b'.graph.children| == |b.graph.children| + tasks &&
    Fed(b'.graph.plan, |b.graph.plan|, IdSet(values) + (if input.Some? then {input.value.id} else {})) &&
    (forall i | 0 <= i < |values| :: Planned(b'.graph.plan, values[i].id)) &&
    (values != [] ==> Threaded(b, b', input, IdSet(values))) &&
    Vals(c, w, b'.graph, values) == meanings
  }

  lemma IdSetCons(v: ValueReference, rest: seq<ValueReference>)
    ensures IdSet([v] + rest) == {v.id} + IdSet(rest)
  {
    var values := [v] + rest;
    forall id | id in IdSet(rest) ensures id in IdSet(values) {
      var i :| 0 <= i < |rest| && rest[i].id == id;
      assert values[i + 1].id == id;
    }
    assert values[0].id == v.id;
    forall id | id in IdSet(values) ensures id in {v.id} + IdSet(rest) {
      var i :| 0 <= i < |values| && values[i].id == id;
      if i > 0 { assert rest[i - 1].id == id; }
    }
  }

  lemma FedWeaken(p: seq<CanvasNode>, lo: nat, out: set<Id>, out': set<Id>)
    requires Fed(p, lo, out) && out <= out'
    ensures Fed(p, lo, out')
  {
    forall i | lo <= i < |p| ensures p[i].id in out' || Consumed(p, i) {}
  }

  lemma ValsCons(c: Client, w: World, g: Graph, v: ValueReference, rest: seq<ValueReference>)
    ensures Vals(c, w, g, [v] + rest) == [Val(c, w, g, v.id)] + Vals(c, w, g, rest)
  {
  }

  lemma UsesGrow(p: seq<CanvasNode>, q: seq<CanvasNode>, lo: nat, id: Id)
    requires p <= q && Uses(p, lo, id)
    ensures Uses(q, lo, id)
  {
    var j :| lo <= j < |p| && id in Prereqs(p[j]);
    assert q[j] == p[j];
  }

  lemma PartsExtend(c: Client, w: World, b: Build, m: Build, b': Build, t1: nat, t2: nat, input: Option<ValueReference>,
                    v: ValueReference, rest: seq<ValueReference>, mean: Outcome, means: seq<Outcome>)
    requires Sound(b, m, t1, input, {v.id}) && Val(c, w, m.graph, v.id) == mean
    requires Parts(c, w, m, b', t2, input, rest, means)
    ensures Parts(c, w, b, b', t1 + t2, input, [v] + rest, [mean] + means)
  {
    FreshTrans(b, m, b');
    hide FreshSince, PlanOk;
    var p, q := m.graph.plan, b'.graph.plan;
    var ins := if input.Some? then {input.value.id} else {};
    IdSetCons(v, rest);
    ValStable(c, w, m.graph, b'.graph, v.id);
    ValsCons(c, w, b'.graph, v, rest);
    FedWeaken(q, |p|, IdSet(rest) + ins, IdSet([v] + rest) + ins);
    FedExtend(p, q, |b.graph.plan|, {v.id}, IdSet([v] + rest) + ins);
    if input.Some? && input.value.id != v.id { UsesGrow(p, q, |b.graph.plan|, input.value.id); }
  }

  lemma PartsEmpty(c: Client, w: World, b: Build, input: Option<ValueReference>)
    requires PlanOk(b.graph)
    ensures Parts(c, w, b, b, 0, input, [], [])
  {
    hide PlanOk;
  }

  /** Accumulated references are a prefix of the final list. */
  lemma {:induction false} GroupAccumulates(c: Client, b: Build, sigs: seq<Signature>, input: Option<ValueReference>,
      values: seq<ValueReference>)
    ensures match GroupSpec(c, b, sigs, input, [])
            case Err(e) => GroupSpec(c, b, sigs, input, values) == Err(e)
            case Ok((b', made)) => GroupSpec(c, b, sigs, input, values) == Ok((b', values + made)) && |made| == |sigs|
    decreases sigs
  {
    if sigs != [] && TaskSpec(c, b, sigs[0], input).Ok? {
      var (m, v) := TaskSpec(c, b, sigs[0], input).value;
      GroupAccumulates(c, m, sigs[1..], input, values + [v]);
      GroupAccumulates(c, m, sigs[1..], input, [] + [v]);
      match GroupSpec(c, m, sigs[1..], input, [])
      case Err(_) =>
      case Ok((_, made)) =>
        assert values + [v] + made == values + ([v] + made);
        assert [] + [v] + made == [v] + made;
    } else {
      assert sigs == [] ==> values + [] == values;
    }
  }

  lemma {:induction false} GroupSound(c: Client, w: World, b: Build, sigs: seq<Signature>,
      input: Option<ValueReference>)
    requires PlanOk(b.graph) && InputOk(b.graph, input) && GroupSpec(c, b, sigs, input, []).Ok?
    ensures var (b', values) := GroupSpec(c, b, sigs, input, []).value;
            |values| == |sigs| && (sigs == [] ==> b' == b) &&
            Parts(c, w, b, b', |sigs|, input, values,
              MeanTasks(c, w, sigs, InputVal(c, w, b.graph, input), |b.graph.children|))
    decreases sigs
  {
    hide TaskSpec, PlanOk, Fed, Planned, MeanTask, Denote, Parts;
    var means := MeanTasks(c, w, sigs, InputVal(c, w, b.graph, input), |b.graph.children|);
    if sigs != [] {
      TaskSound(c, w, b, sigs[0], input);
      var (m, v) := TaskSpec(c, b, sigs[0], input).value;
      GroupAccumulates(c, m, sigs[1..], input, [] + [v]);
      if input.Some? { ValStable(c, w, b.graph, m.graph, input.value.id); }
      GroupSound(c, w, m, sigs[1..], input);
      var (b', rest) := GroupSpec(c, m, sigs[1..], input, []).value;
      var tail := MeanTasks(c, w, sigs[1..], InputVal(c, w, b.graph, input), |m.graph.children|);
      PartsExtend(c, w, b, m, b', 1, |sigs| - 1, input, v, rest, means[0], tail);
      assert means == [means[0]] + tail;
      assert [] + [v] + rest == [v] + rest;
    } else {
      assert means == [];
      PartsEmpty(c, w, b, input);
    }
  }

  /** A barrier node appended to side-by-side parts uses up all of their loose ends. */
  lemma FedBarrier(p: seq<CanvasNode>, q: seq<CanvasNode>, lo: nat, ends: set<Id>, v: Id, ins: set<Id>)
    requires p <= q && lo <= |p| && Fed(p, lo, ends + ins) && Fed(q, |p|, {v})
    requires forall id | id in ends :: Uses(q, |p|, id)
    requires forall i | lo <= i < |p| :: p[i].id !in ins
    ensures Fed(q, lo, {v})
  {
    FedWeaken(q, |p|, {v}, {v} + ins);
    FedExtend(p, q, lo, ends + ins, {v} + ins);
    forall i | lo <= i < |q| ensures q[i].id in {v} || Consumed(q, i) {
      if i < |p| { assert q[i] == p[i]; }
    }
  }

  /** Closing side-by-side parts with a barrier. */
  lemma BarrierSound(c: Client, w: World, b: Build, b': Build, tasks: nat, input: Option<ValueReference>,
      values: seq<ValueReference>, means: seq<Outcome>)
    requires PlanOk(b.graph) && InputOk(b.graph, input) && |values| <= 1000
    requires Parts(c, w, b, b', tasks, input, values, means) && (values == [] ==> b' == b)
    ensures var (b'', v) := CollectSpec(b', values, input);
            Sound(b, b'', tasks, input, {v.id}) &&
            Val(c, w, b''.graph, v.id) == MeanGroup(means, InputVal(c, w, b.graph, input))
  {
    hide PlanOk, Fed, Denote, MeanGroup, CollectSpec, Uses, Planned, FreshSince;
    var (b'', v) := CollectSpec(b', values, input);
    if input.Some? { ValStable(c, w, b.graph, b'.graph, input.value.id); }
    CollectSound(c, w, b', values, input);
    FreshTrans(b, b', b'');
    var p, q := b'.graph.plan, b''.graph.plan;
    var ins := if input.Some? then {input.value.id} else {};
    forall i | |b.graph.plan| <= i < |p| ensures p[i].id !in ins { InputIsOld(b, b', input, i); }
    forall id | id in IdSet(values) ensures Uses(q, |p|, id) {}
    FedBarrier(p, q, |b.graph.plan|, IdSet(values), v.id, ins);
    if input.Some? && values != [] {
      if input.value.id in IdSet(values) {
        UsesFrom(q, |b.graph.plan|, |p|, input.value.id);
      } else {
        UsesGrow(p, q, |b.graph.plan|, input.value.id);
      }
    }
  }

  lemma UsesFrom(p: seq<CanvasNode>, lo: nat, hi: nat, id: Id)
    requires lo <= hi && Uses(p, hi, id)
    ensures Uses(p, lo, id)
  {
  }

  /** A node made after `b` is not the input, which `b` already held. */
  lemma InputIsOld(b: Build, b': Build, input: Option<ValueReference>, i: nat)
    requires PlanOk(b'.graph) && Grown(b, b') && InputOk(b.graph, input)
    requires |b.graph.plan| <= i < |b'.graph.plan|
    ensures input.Some? ==> b'.graph.plan[i].id != input.value.id
  {
    if input.Some? {
      PlanOkDistinct(b'.graph);
      var j :| 0 <= j < |b.graph.plan| && b.graph.plan[j].id == input.value.id;
      assert b'.graph.plan[j].id == input.value.id;
    }
  }

  lemma LastSound(c: Client, w: World, b: Build, b': Build, tasks: nat, input: Option<ValueReference>,
      last: Option<ValueReference>, mean: Option<Outcome>)
    requires PlanOk(b.graph) && InputOk(b.graph, input)
    requires Sound(b, b', tasks, input, if last.Some? then {last.value.id} else {})
    requires last.None? ==> b' == b && input.None?
    requires InputVal(c, w, b'.graph, last) == mean
    ensures var (b'', v) := LastOrEmpty(b', last);
            Sound(b, b'', tasks, input, {v.id}) && Val(c, w, b''.graph, v.id) == LastMeaning(mean)
  {
    hide PlanOk, Fed, Denote, MeanGroup, CollectSpec, Planned, FreshSince;
    if last.None? {
      CollectSound(c, w, b', [], None);
      assert Vals(c, w, b'.graph, []) == [];
      FreshTrans(b, b', CollectSpec(b', [], None).0);
      assert MeanGroup([], None) == Gather([], None) by { EmptyGroupMeaning(); }
    }
  }

  lemma EmptyGroupMeaning()
    ensures MeanGroup([], None) == Gather([], None)
  {
  }

  /** A task appended after an already sound part. */
  lemma ThenTaskSound(c: Client, w: World, b: Build, m: Build, tasks: nat, input: Option<ValueReference>,
      mid: ValueReference, s: Signature)
    requires Sound(b, m, tasks, input, {mid.id}) && TaskSpec(c, m, s, Some(mid)).Ok?
    ensures var (b', v) := TaskSpec(c, m, s, Some(mid)).value;
            Sound(b, b', tasks + 1, input, {v.id}) &&
            Val(c, w, b'.graph, v.id) == MeanTask(c, w, s, Some(Val(c, w, m.graph, mid.id)), |m.graph.children|) &&
            |m.graph.children| == |b.graph.children| + tasks
  {
    hide PlanOk, Fed, Planned, Denote, TaskSpec, MeanTask;
    TaskSound(c, w, m, s, Some(mid));
    var (b', v) := TaskSpec(c, m, s, Some(mid)).value;
    SoundCompose(b, m, b', tasks, 1, input, Some(mid), {v.id});
  }

  /** The main induction: whatever a canvas compiles to means what the canvas means. */
  lemma {:induction false} CompileSound(c: Client, w: World, b: Build, canvas: Canvas, input: Option<ValueReference>,
      depth: nat)
    requires PlanOk(b.graph) && InputOk(b.graph, input) && CompileSpec(c, b, canvas, input, depth).Ok?
    ensures var (b', v) := CompileSpec(c, b, canvas, input, depth).value;
            Sound(b, b', TaskCount(canvas), input, {v.id}) &&
            Val(c, w, b'.graph, v.id) == Mean(c, w, canvas, InputVal(c, w, b.graph, input), |b.graph.children|)
    decreases canvas, 1
  {
    hide PlanOk, Fed, Planned, Denote, TaskSpec, ChainSpec, GroupSpec, MeanTask, MeanChain, MeanTasks, MeanGroup,
           Sound, Parts,
      CollectSpec, LastOrEmpty, LastMeaning, SequenceSpec, ParallelSpec, MeanSequence, MeanParallel;
    var inval, k := InputVal(c, w, b.graph, input), |b.graph.children|;
    match canvas.kind {
      case TaskCanvas => TaskSound(c, w, b, canvas.signatures[0], input);
      case ChainCanvas =>
        ChainSound(c, w, b, canvas.signatures, input);
        var (b', last) := ChainSpec(c, b, canvas.signatures, input).value;
        LastSound(c, w, b, b', |canvas.signatures|, input, last, MeanChain(c, w, canvas.signatures, inval, k));
      case GroupCanvas =>
        GroupSound(c, w, b, canvas.signatures, input);
        var (b', values) := GroupSpec(c, b, canvas.signatures, input, []).value;
        BarrierSound(c, w, b, b', |canvas.signatures|, input, values, MeanTasks(c, w, canvas.signatures, inval, k));
      case ChordCanvas =>
        GroupSound(c, w, b, canvas.signatures, input);
        var (b', values) := GroupSpec(c, b, canvas.signatures, input, []).value;
        BarrierSound(c, w, b, b', |canvas.signatures|, input, values, MeanTasks(c, w, canvas.signatures, inval, k));
        var (m, barrier) := CollectSpec(b', values, input);
        ThenTaskSound(c, w, b, m, |canvas.signatures|, input, barrier, canvas.callback.value);
      case SequenceCanvas =>
        SequenceSound(c, w, b, canvas.steps, input, depth + 1);
        var (b', last) := SequenceSpec(c, b, canvas.steps, input, depth + 1).value;
        LastSound(c, w, b, b', TaskCounts(canvas.steps), input, last, MeanSequence(c, w, canvas.steps, inval, k));
      case ParallelCanvas =>
        ParallelSound(c, w, b, canvas.steps, input, depth + 1);
        var (b', values) := ParallelSpec(c, b, canvas.steps, input, depth + 1, []).value;
        BarrierSound(c, w, b, b', TaskCounts(canvas.steps), input, values, MeanParallel(c, w, canvas.steps, inval, k));
    }
  }

  lemma {:induction false} SequenceSound(c: Client, w: World, b: Build, steps: seq<Canvas>,
      previous: Option<ValueReference>, depth: nat)
    requires PlanOk(b.graph) && InputOk(b.graph, previous) && SequenceSpec(c, b, steps, previous, depth).Ok?
    ensures var (b', last) := SequenceSpec(c, b, steps, previous, depth).value;
            Sound(b, b', TaskCounts(steps), previous, if last.Some? then {last.value.id} else {}) &&
            (last.None? ==> b' == b && previous.None?) &&
            InputVal(c, w, b'.graph, last) ==
              MeanSequence(c, w, steps, InputVal(c, w, b.graph, previous), |b.graph.children|)
    decreases steps, 0
  {
    hide PlanOk, Planned, Denote, CompileSpec, Mean, TaskCount;
    if steps != [] {
      CompileSound(c, w, b, steps[0], previous, depth);
      var (m, v) := CompileSpec(c, b, steps[0], previous, depth).value;
      SequenceSound(c, w, m, steps[1..], Some(v), depth);
      var (b', last) := SequenceSpec(c, b, steps, previous, depth).value;
      SoundCompose(b, m, b', TaskCount(steps[0]), TaskCounts(steps[1..]), previous, Some(v), {last.value.id});
    }
  }

  lemma {:induction false} ParallelAccumulates(c: Client, b: Build, steps: seq<Canvas>, input: Option<ValueReference>,
      depth: nat, values: seq<ValueReference>)
    ensures match ParallelSpec(c, b, steps, input, depth, [])
            case Err(e) => ParallelSpec(c, b, steps, input, depth, values) == Err(e)
            case Ok((b', made)) => ParallelSpec(c, b, steps, input, depth, values) == Ok((b', values + made)) &&
                                   |made| == |steps|
    decreases steps
  {
    if steps != [] && CompileSpec(c, b, steps[0], input, depth).Ok? {
      var (m, v) := CompileSpec(c, b, steps[0], input, depth).value;
      ParallelAccumulates(c, m, steps[1..], input, depth, values + [v]);
      ParallelAccumulates(c, m, steps[1..], input, depth, [] + [v]);
      match ParallelSpec(c, m, steps[1..], input, depth, [])
      case Err(_) =>
      case Ok((_, made)) =>
        assert values + [v] + made == values + ([v] + made);
        assert [] + [v] + made == [v] + made;
    } else {
      assert steps == [] ==> values + [] == values;
    }
  }

  lemma {:induction false} ParallelSound(c: Client, w: World, b: Build, steps: seq<Canvas>,
      input: Option<ValueReference>, depth: nat)
    requires PlanOk(b.graph) && InputOk(b.graph, input) && ParallelSpec(c, b, steps, input, depth, []).Ok?
    ensures var (b', values) := ParallelSpec(c, b, steps, input, depth, []).value;
            |values| == |steps| && (steps == [] ==> b' == b) &&
            Parts(c, w, b, b', TaskCounts(steps), input, values,
              MeanParallel(c, w, steps, InputVal(c, w, b.graph, input), |b.graph.children|))
    decreases steps, 0
  {
    hide PlanOk, Fed, Planned, Denote, CompileSpec, Mean, Parts;
    var means := MeanParallel(c, w, steps, InputVal(c, w, b.graph, input), |b.graph.children|);
    if steps != [] {
      CompileSound(c, w, b, steps[0], input, depth);
      var (m, v) := CompileSpec(c, b, steps[0], input, depth).value;
      ParallelAccumulates(c, m, steps[1..], input, depth, [] + [v]);
      if input.Some? { ValStable(c, w, b.graph, m.graph, input.value.id); }
      ParallelSound(c, w, m, steps[1..], input, depth);
      var (b', rest) := ParallelSpec(c, m, steps[1..], input, depth, []).value;
      PartsExtend(c, w, b, m, b', TaskCount(steps[0]), TaskCounts(steps[1..]), input, v, rest, means[0], means[1..]);
      assert means == [means[0]] + means[1..];
      assert [] + [v] + rest == [v] + rest;
    } else {
      assert means == [];
      PartsEmpty(c, w, b, input);
    }
  }

  /** Compilation preserves meaning, for every canvas that compiles and every world. */
  lemma CompilationPreservesMeaning(c: Client, w: World, id: Id, canvas: Canvas)
    requires CompileGraph(c, id, canvas).Ok?
    ensures var g := CompileGraph(c, id, canvas).value;
            PlanOk(g) && AllLeadToRoot(g) && |g.children| == TaskCount(canvas) &&
            (forall i | 0 <= i < |g.plan| :: FreshNode(g, i)) &&
            g == EmptyGraph(id, Dag).(scope := g.scope, children := g.children, plan := g.plan,
              rootNode := g.rootNode) &&
            Val(c, w, g, g.rootNode.value) == Mean(c, w, canvas, None, 0)
  {
    var b := Build(EmptyGraph(id, Dag), false);
    CompileSound(c, w, b, canvas, None, 0);
    var (b', root) := CompileSpec(c, b, canvas, None, 0).value;
    var g := CompileGraph(c, id, canvas).value;
    assert g.plan == b'.graph.plan && PlanOk(g) by {
      forall i | 0 <= i < |g.plan| ensures NodeShape(g, i) { assert NodeShape(b'.graph, i); }
    }
    forall i | 0 <= i < |g.plan| ensures FreshNode(g, i) { assert FreshNode(b'.graph, i); }
  }
}
