/** async/replacement.go: how a yielding task's canvas becomes the graph that replaces it. */
module Replacement {
  import opened Protocol
  import opened Compiler
  import opened Meaning
  import opened Plans
  import opened Preservation
  import opened Delivery
  import DagRuns

  predicate ForeignTo(e: Envelope, s: Signature) { s.scope != "" && s.scope != e.scope }

  /** A signature of the replacement inherits scope and expiry, and may not leave the scope. */
  function InheritSignature(e: Envelope, s: Signature): Result<Signature> {
    if ForeignTo(e, s) then Err(Denied)
    else Ok(s.(scope := e.scope,
               expires := if e.expires != 0 && (s.expires == 0 || e.expires < s.expires) then e.expires else s.expires))
  }

  function InheritSignatures(e: Envelope, sigs: seq<Signature>): Result<seq<Signature>> {
    if sigs == [] then Ok([]) else
      var first, rest := InheritSignature(e, sigs[0]), InheritSignatures(e, sigs[1..]);
      if first.Err? then Err(first.error) else if rest.Err? then rest else Ok([first.value] + rest.value)
  }

  function InheritBody(e: Envelope, body: Option<Signature>): Result<Option<Signature>> {
    if body.None? then Ok(None) else
      match InheritSignature(e, body.value) case Err(err) => Err(err) case Ok(s) => Ok(Some(s))
  }

  /** The recursive `inherit`: a canvas's own signatures before those of its steps. */
  function Inherit(e: Envelope, canvas: Canvas, depth: nat): Result<Canvas>
    decreases canvas, 1
  {
    if depth > 32 || |canvas.signatures| > 1000 || |canvas.steps| > 1000 then Err(Invalid) else
      var sigs, body := InheritSignatures(e, canvas.signatures), InheritBody(e, canvas.callback);
      if sigs.Err? then Err(sigs.error)
      else if body.Err? then Err(body.error)
      else
        match InheritSteps(e, canvas.steps, depth + 1)
        case Err(err) => Err(err)
        case Ok(steps) => Ok(canvas.(signatures := sigs.value, callback := body.value, steps := steps))
  }

  function InheritSteps(e: Envelope, steps: seq<Canvas>, depth: nat): Result<seq<Canvas>>
    decreases steps, 0
  {
    if steps == [] then Ok([]) else
      var first, rest := Inherit(e, steps[0], depth), InheritSteps(e, steps[1..], depth);
      if first.Err? then Err(first.error) else if rest.Err? then rest else Ok([first.value] + rest.value)
  }

  function ReplacementId(e: Envelope): Id { Stable(e.id, ReplacementLabel) }

  /** The compiler's starting point: the task's scope is fixed, and the graph names its origin. */
  function Seed(e: Envelope): Build {
    Build(EmptyGraph(ReplacementId(e), Dag).(scope := e.scope, originTask := Some(e.id),
      originDigest := Some(Digest(e))), true)
  }

  /** A child of the replacement is one level deeper and hangs off the task it replaces. */
  function Adopt(e: Envelope, child: Envelope): Envelope {
    child.(depth := e.depth + 1, root := if e.root.Some? then e.root else Some(e.id),
           parent := if child.parent == Some(ReplacementId(e)) then Some(e.id) else child.parent)
  }

  function AdoptAll(e: Envelope, children: seq<Envelope>): seq<Envelope> {
    seq(|children|, i requires 0 <= i < |children| => Adopt(e, children[i]))
  }

  /** prepareReplacement; `output` is the original task's result type. */
  function PrepareReplacement(c: Client, e: Envelope, output: Ty, canvas: Canvas): Result<Graph> {
    if e.depth >= MaxReplacementDepth then Err(Invalid) else
      var inherited := Inherit(e, canvas, 0);
      if inherited.Err? then Err(inherited.error) else
        match CompileSpec(c, Seed(e), inherited.value, None, 0)
        case Err(err) => Err(err)
        case Ok((b, root)) =>
          if root.typ != output && !(root.empty && output.SliceOf?) then Err(Invalid) else
            var g := b.graph.(rootNode := Some(root.id), children := AdoptAll(e, b.graph.children));
            if exists n | 0 <= n < |g.children| :: !c.admits(g.children[n]) then Err(Invalid)
            else if !c.fits(g, [], MaxWorkflowInitialBytes) then Err(Invalid) else Ok(g)
  }

  method AdoptChildren(e: Envelope, children: seq<Envelope>) returns (r: seq<Envelope>)
    ensures r == AdoptAll(e, children)
  {
    r := [];
    for i := 0 to |children|
      invariant |r| == i && forall j | 0 <= j < i :: r[j] == Adopt(e, children[j])
    {
      r := r + [Adopt(e, children[i])];
    }
  }

  // ---- what is prepared ----

  /** In the task's scope, and gone no later than the task. */
  predicate Within(e: Envelope, scope: string, expires: nat) {
    scope == e.scope && (e.expires != 0 ==> 0 < expires <= e.expires)
  }

  /** What an inherited signature may differ in from the one the handler gave. */
  predicate Inherits(e: Envelope, from: Signature, to: Signature) {
    Within(e, to.scope, to.expires) && to == from.(scope := to.scope, expires := to.expires) &&
    (to.expires == from.expires || to.expires == e.expires) && (from.expires != 0 ==> 0 < to.expires <= from.expires)
  }

  /** The same canvas, every signature of it inherited: its own, its body's and those of its steps. */
  predicate InheritsAll(e: Envelope, from: Canvas, to: Canvas)
    decreases from
  {
    to.kind == from.kind && |to.signatures| == |from.signatures| && |to.steps| == |from.steps| &&
    (to.callback.Some? <==> from.callback.Some?) &&
    (from.callback.Some? ==> Inherits(e, from.callback.value, to.callback.value)) &&
    (forall i | 0 <= i < |from.signatures| :: Inherits(e, from.signatures[i], to.signatures[i])) &&
    (forall i | 0 <= i < |from.steps| :: InheritsAll(e, from.steps[i], to.steps[i]))
  }

  /** Some signature, at any depth, names another scope. */
  predicate Foreign(e: Envelope, canvas: Canvas)
    decreases canvas
  {
    (exists i | 0 <= i < |canvas.signatures| :: ForeignTo(e, canvas.signatures[i])) ||
    (canvas.callback.Some? && ForeignTo(e, canvas.callback.value)) ||
    (exists i | 0 <= i < |canvas.steps| :: Foreign(e, canvas.steps[i]))
  }

  /** No deeper than 32 and no wider than 1000 anywhere. */
  predicate Bounded(canvas: Canvas, depth: nat)
    decreases canvas
  {
    depth <= 32 && |canvas.signatures| <= 1000 && |canvas.steps| <= 1000 &&
    forall i | 0 <= i < |canvas.steps| :: Bounded(canvas.steps[i], depth + 1)
  }

  lemma {:induction false} SignaturesInherit(e: Envelope, sigs: seq<Signature>)
    ensures var r := InheritSignatures(e, sigs);
            (r.Err? <==> exists i | 0 <= i < |sigs| :: ForeignTo(e, sigs[i])) && (r.Err? ==> r.error == Denied) &&
            (r.Ok? ==> |r.value| == |sigs| && forall i | 0 <= i < |sigs| :: Inherits(e, sigs[i], r.value[i]))
  {
    if sigs != [] {
      SignaturesInherit(e, sigs[1..]);
      assert forall i | 0 < i < |sigs| :: sigs[i] == sigs[1..][i - 1];
      if exists i | 0 <= i < |sigs[1..]| :: ForeignTo(e, sigs[1..][i]) {
        var i :| 0 <= i < |sigs[1..]| && ForeignTo(e, sigs[1..][i]);
        assert ForeignTo(e, sigs[i + 1]);
      }
    }
  }

  /** The whole replacement canvas stays in the task's scope and expires no later than the task, at
      every depth; it is refused exactly when it is too large or a signature leaves the scope. */
  lemma {:induction false} InheritedScope(e: Envelope, canvas: Canvas, depth: nat)
    ensures var r := Inherit(e, canvas, depth);
            (r.Ok? <==> Bounded(canvas, depth) && !Foreign(e, canvas)) &&
            (r.Ok? ==> InheritsAll(e, canvas, r.value)) &&
            (r.Err? ==> if r.error == Denied then Foreign(e, canvas) else r.error == Invalid && !Bounded(canvas, depth))
    decreases canvas, 1
  {
    SignaturesInherit(e, canvas.signatures);
    StepsInherit(e, canvas.steps, depth + 1);
  }

  lemma {:induction false} StepsInherit(e: Envelope, steps: seq<Canvas>, depth: nat)
    ensures var r := InheritSteps(e, steps, depth);
            (r.Ok? <==> forall i | 0 <= i < |steps| :: Bounded(steps[i], depth) && !Foreign(e, steps[i])) &&
            (r.Ok? ==> |r.value| == |steps| && forall i | 0 <= i < |steps| :: InheritsAll(e, steps[i], r.value[i])) &&
            (r.Err? ==> if r.error == Denied then exists i | 0 <= i < |steps| :: Foreign(e, steps[i])
                        else r.error == Invalid && exists i | 0 <= i < |steps| :: !Bounded(steps[i], depth))
    decreases steps, 0
  {
    if steps != [] {
      InheritedScope(e, steps[0], depth);
      StepsInherit(e, steps[1..], depth);
      assert forall i | 0 < i < |steps| :: steps[i] == steps[1..][i - 1];
      assert forall i | 0 <= i < |steps| - 1 :: steps[1..][i] == steps[i + 1];
    }
  }

  predicate AllWithin(e: Envelope, canvas: Canvas)
    decreases canvas
  {
    (forall i | 0 <= i < |canvas.signatures| :: Within(e, canvas.signatures[i].scope, canvas.signatures[i].expires)) &&
    (canvas.callback.Some? ==> Within(e, canvas.callback.value.scope, canvas.callback.value.expires)) &&
    (forall i | 0 <= i < |canvas.steps| :: AllWithin(e, canvas.steps[i]))
  }

  lemma {:induction false} InheritedIsWithin(e: Envelope, from: Canvas, to: Canvas)
    requires InheritsAll(e, from, to)
    ensures AllWithin(e, to)
    decreases from
  {
    forall i | 0 <= i < |to.steps| ensures AllWithin(e, to.steps[i]) {
      InheritedIsWithin(e, from.steps[i], to.steps[i]);
    }
  }

  predicate ChildrenWithin(e: Envelope, b: Build) {
    forall n | 0 <= n < |b.graph.children| :: Within(e, b.graph.children[n].scope, b.graph.children[n].expires)
  }

  lemma TaskWithin(c: Client, e: Envelope, b: Build, s: Signature, input: Option<ValueReference>)
    requires ChildrenWithin(e, b) && Within(e, s.scope, s.expires) && TaskSpec(c, b, s, input).Ok?
    ensures ChildrenWithin(e, TaskSpec(c, b, s, input).value.0)
  {
  }

  lemma {:induction false} ChainWithin(c: Client, e: Envelope, b: Build, sigs: seq<Signature>,
      previous: Option<ValueReference>)
    requires ChildrenWithin(e, b) && (forall i | 0 <= i < |sigs| :: Within(e, sigs[i].scope, sigs[i].expires)) &&
             ChainSpec(c, b, sigs, previous).Ok?
    ensures ChildrenWithin(e, ChainSpec(c, b, sigs, previous).value.0)
    decreases sigs
  {
    hide TaskSpec, ChildrenWithin;
    if sigs != [] {
      TaskWithin(c, e, b, sigs[0], previous);
      var (b', v) := TaskSpec(c, b, sigs[0], previous).value;
      ChainWithin(c, e, b', sigs[1..], Some(v));
    }
  }

  lemma {:induction false} GroupWithin(c: Client, e: Envelope, b: Build, sigs: seq<Signature>,
      input: Option<ValueReference>, values: seq<ValueReference>)
    requires ChildrenWithin(e, b) && (forall i | 0 <= i < |sigs| :: Within(e, sigs[i].scope, sigs[i].expires)) &&
             GroupSpec(c, b, sigs, input, values).Ok?
    ensures ChildrenWithin(e, GroupSpec(c, b, sigs, input, values).value.0)
    decreases sigs
  {
    hide TaskSpec, ChildrenWithin;
    if sigs != [] {
      TaskWithin(c, e, b, sigs[0], input);
      var (b', v) := TaskSpec(c, b, sigs[0], input).value;
      GroupWithin(c, e, b', sigs[1..], input, values + [v]);
    }
  }

  /** Compiling hands every signature's scope and expiry to its task's envelope. */
  lemma {:induction false} CompileWithin(c: Client, e: Envelope, b: Build, canvas: Canvas,
      input: Option<ValueReference>, depth: nat)
    requires ChildrenWithin(e, b) && AllWithin(e, canvas) && CompileSpec(c, b, canvas, input, depth).Ok?
    ensures ChildrenWithin(e, CompileSpec(c, b, canvas, input, depth).value.0)
    decreases canvas, 1
  {
    hide TaskSpec, ChainSpec, GroupSpec, SequenceSpec, ParallelSpec;
    match canvas.kind {
      case TaskCanvas => TaskWithin(c, e, b, canvas.signatures[0], input);
      case ChainCanvas => ChainWithin(c, e, b, canvas.signatures, input);
      case GroupCanvas => GroupWithin(c, e, b, canvas.signatures, input, []);
      case ChordCanvas =>
        GroupWithin(c, e, b, canvas.signatures, input, []);
        var (b', values) := GroupSpec(c, b, canvas.signatures, input, []).value;
        var (b'', barrier) := CollectSpec(b', values, input);
        TaskWithin(c, e, b'', canvas.callback.value, Some(barrier));
      case SequenceCanvas => SequenceWithin(c, e, b, canvas.steps, input, depth + 1);
      case ParallelCanvas => ParallelWithin(c, e, b, canvas.steps, input, depth + 1, []);
    }
  }

  lemma {:induction false} SequenceWithin(c: Client, e: Envelope, b: Build, steps: seq<Canvas>,
      previous: Option<ValueReference>, depth: nat)
    requires ChildrenWithin(e, b) && (forall i | 0 <= i < |steps| :: AllWithin(e, steps[i])) &&
             SequenceSpec(c, b, steps, previous, depth).Ok?
    ensures ChildrenWithin(e, SequenceSpec(c, b, steps, previous, depth).value.0)
    decreases steps, 0
  {
    hide CompileSpec, ChildrenWithin, AllWithin;
    if steps != [] {
      CompileWithin(c, e, b, steps[0], previous, depth);
      var (b', v) := CompileSpec(c, b, steps[0], previous, depth).value;
      SequenceWithin(c, e, b', steps[1..], Some(v), depth);
    }
  }

  lemma {:induction false} ParallelWithin(c: Client, e: Envelope, b: Build, steps: seq<Canvas>,
      input: Option<ValueReference>, depth: nat, values: seq<ValueReference>)
    requires ChildrenWithin(e, b) && (forall i | 0 <= i < |steps| :: AllWithin(e, steps[i])) &&
             ParallelSpec(c, b, steps, input, depth, values).Ok?
    ensures ChildrenWithin(e, ParallelSpec(c, b, steps, input, depth, values).value.0)
    decreases steps, 0
  {
    hide CompileSpec, ChildrenWithin, AllWithin;
    if steps != [] {
      CompileWithin(c, e, b, steps[0], input, depth);
      var (b', v) := CompileSpec(c, b, steps[0], input, depth).value;
      ParallelWithin(c, e, b', steps[1..], input, depth, values + [v]);
    }
  }

  /** No task of a replacement leaves the scope of the task it replaces or outlives it. */
  lemma ReplacementStaysWithin(c: Client, e: Envelope, output: Ty, canvas: Canvas)
    requires PrepareReplacement(c, e, output, canvas).Ok?
    ensures var g := PrepareReplacement(c, e, output, canvas).value;
            forall n | 0 <= n < |g.children| :: Within(e, g.children[n].scope, g.children[n].expires)
  {
    hide CompileSpec, Inherit;
    var inherited := Inherit(e, canvas, 0).value;
    InheritedScope(e, canvas, 0);
    InheritedIsWithin(e, canvas, inherited);
    CompileWithin(c, e, Seed(e), inherited, None, 0);
  }

  lemma AdoptKeepsPlan(e: Envelope, g: Graph, g': Graph)
    requires PlanOk(g) && g' == g.(rootNode := g'.rootNode, children := AdoptAll(e, g.children))
    ensures PlanOk(g')
  {
    forall i | 0 <= i < |g'.plan| ensures NodeShape(g', i) { assert NodeShape(g, i); }
    forall n | 0 <= n < |g'.children| ensures g'.children[n].id == TaskId(g'.id, n) && Owned(g', g'.children[n]) {
      assert Owned(g, g.children[n]);
    }
  }

  lemma AdoptKeepsFresh(e: Envelope, g: Graph, g': Graph, i: nat)
    requires i < |g.plan| && FreshNode(g, i) && g' == g.(rootNode := g'.rootNode, children := AdoptAll(e, g.children))
    ensures FreshNode(g', i)
  {
  }

  lemma CompiledSeed(c: Client, e: Envelope, canvas: Canvas)
    requires CompileSpec(c, Seed(e), canvas, None, 0).Ok?
    ensures var (b, root) := CompileSpec(c, Seed(e), canvas, None, 0).value;
            PlanOk(b.graph) && Planned(b.graph.plan, root.id) && Fed(b.graph.plan, 0, {root.id}) &&
            (forall i | 0 <= i < |b.graph.plan| :: FreshNode(b.graph, i)) &&
            b.graph == Seed(e).graph.(children := b.graph.children, plan := b.graph.plan)
  {
    var w := World((k, a) => Failing(WorkflowInput), (k, a) => false, false);
    CompileSound(c, w, Seed(e), canvas, None, 0);
    hide CompileSpec, PlanOk, Fed, Planned, Mean, Denote;
  }

  /** A prepared replacement is a fresh graph under the task's own replacement identity, in the
      task's scope, one level deeper and never deeper than 16; the engine accepts it exactly when
      its plan has at most 2000 nodes. */
  lemma PreparedIsPrepared(c: Client, e: Envelope, output: Ty, canvas: Canvas)
    requires PrepareReplacement(c, e, output, canvas).Ok?
    ensures var g := PrepareReplacement(c, e, output, canvas).value;
            PreparedFor(e, g) && (DagRuns.Initial(g) <==> |g.plan| <= 2000)
  {
    hide CompileSpec, Inherit, PlanOk, Fed, FreshNode;
    var inherited := Inherit(e, canvas, 0).value;
    CompiledSeed(c, e, inherited);
    var (b, root) := CompileSpec(c, Seed(e), inherited, None, 0).value;
    var g := b.graph.(rootNode := Some(root.id), children := AdoptAll(e, b.graph.children));
    assert g == PrepareReplacement(c, e, output, canvas).value && e.depth < MaxReplacementDepth;
    hide PrepareReplacement;
    AdoptKeepsPlan(e, b.graph, g);
    forall i | 0 <= i < |g.plan| ensures FreshNode(g, i) { AdoptKeepsFresh(e, b.graph, g, i); }
    AdoptedIsPrepared(e, b.graph, g);
  }

  lemma AdoptedIsPrepared(e: Envelope, from: Graph, g: Graph)
    requires e.depth < MaxReplacementDepth && from == Seed(e).graph.(children := from.children, plan := from.plan)
    requires g == from.(rootNode := g.rootNode, children := AdoptAll(e, from.children)) && AllLeadToRoot(g) && PlanOk(g)
    requires forall i | 0 <= i < |g.plan| :: FreshNode(g, i)
    ensures PreparedFor(e, g) && (DagRuns.Initial(g) <==> |g.plan| <= 2000)
  {
    DagRuns.PlanBound(g);
    hide PlanOk, AllLeadToRoot;
    if |g.plan| <= 2000 { DagRuns.FreshIsInitial(g); }
    hide FreshNode;
  }
}
