/** async/nested.go: the canvas compiler. `CompileSpec` and its companions say what each
    compiler call appends to the graph under construction; the class below performs the
    appends in place, as the source does, and is proved against them. */
module Compiler {
  import opened Protocol

  datatype ValueReference = ValueReference(id: Id, typ: Ty, empty: bool)

  /** The compiler's mutable state: the graph under construction and the scope latch. */
  datatype Build = Build(graph: Graph, hasScope: bool)

  const RawList: Ty := SliceOf(Named(0))

  function TaskId(graph: Id, n: nat): Id { Stable(graph, TaskLabel(n)) }

  function CollectId(graph: Id, n: nat): Id { Stable(graph, CollectLabel(n)) }

  /** Whether a non-immutable signature can take the value behind `input`. */
  predicate Compatible(c: Client, s: Signature, input: ValueReference) {
    var target := c.bindingType(s);
    target.Some? && (input.typ == target.value || (input.empty && target.value.SliceOf?))
  }

  function TaskSpec(c: Client, b: Build, s: Signature, input: Option<ValueReference>): Result<(Build, ValueReference)> {
    var g := b.graph;
    if |g.children| >= 1000 || |g.plan| >= 2000 then Err(Invalid)
    else if !c.known(s.task) then Err(UnknownTask)
    else if input.Some? && !s.immutable && !Compatible(c, s, input.value) then Err(Invalid)
    else
      var id := TaskId(g.id, |g.children|);
      var prepared := Prepare(c, s, id);
      if prepared.None? then Err(Invalid)
      else if b.hasScope && prepared.value.scope != g.scope then Err(Denied)
      else
        var parent := if input.Some? then input.value.id else g.id;
        var e := prepared.value.(workflow := Some(g.id), root := Some(g.id), parent := Some(parent));
        var node := CanvasNode(id, TaskNode, if input.Some? then [input.value.id] else [], [], Some(s), false);
        Ok((Build(g.(scope := e.scope, children := g.children + [e], plan := g.plan + [node]), true),
            ValueReference(id, c.outputType(s.task), false)))
  }

  function RefIds(values: seq<ValueReference>): seq<Id> {
    seq(|values|, i requires 0 <= i < |values| => values[i].id)
  }

  predicate Homogeneous(values: seq<ValueReference>) {
    forall i | 0 < i < |values| :: values[i].typ == values[0].typ
  }

  lemma HomogeneousNext(values: seq<ValueReference>, i: nat)
    requires i < |values|
    ensures Homogeneous(values[..i + 1]) <==> Homogeneous(values[..i]) && values[i].typ == values[0].typ
  {
    var a, b := values[..i], values[..i + 1];
    if Homogeneous(b) {
      forall k | 0 < k < |a| ensures a[k].typ == a[0].typ { assert b[k] == a[k] && b[0] == a[0]; }
      if i > 0 { assert b[i] == values[i]; }
    }
    if Homogeneous(a) && values[i].typ == values[0].typ {
      forall k | 0 < k < |b| ensures b[k].typ == b[0].typ { if k < i { assert a[k] == b[k] && a[0] == b[0]; } }
    }
  }

  function CollectSpec(b: Build, values: seq<ValueReference>, input: Option<ValueReference>): (Build, ValueReference) {
    var g := b.graph;
    var id := CollectId(g.id, |g.plan|);
    var waits := if values == [] && input.Some? then [input.value.id] else [];
    var node := CanvasNode(id, CollectNode, RefIds(values), waits, None, false);
    var typ := if values != [] && Homogeneous(values) then SliceOf(values[0].typ) else RawList;
    (b.(graph := g.(plan := g.plan + [node])), ValueReference(id, typ, values == []))
  }

  /** Tasks one after another, each fed by the one before. */
  function ChainSpec(c: Client, b: Build, sigs: seq<Signature>, previous: Option<ValueReference>): Result<(Build,
      Option<ValueReference>)>
    decreases sigs
  {
    if sigs == [] then Ok((b, previous)) else
      match TaskSpec(c, b, sigs[0], previous)
      case Err(e) => Err(e)
      case Ok((b', v)) => ChainSpec(c, b', sigs[1..], Some(v))
  }

  /** Tasks side by side, all fed by `input`; `values` holds the references made so far. */
  function GroupSpec(c: Client, b: Build, sigs: seq<Signature>, input: Option<ValueReference>,
      values: seq<ValueReference>): Result<(Build, seq<ValueReference>)>
    decreases sigs
  {
    if sigs == [] then Ok((b, values)) else
      match TaskSpec(c, b, sigs[0], input)
      case Err(e) => Err(e)
      case Ok((b', v)) => GroupSpec(c, b', sigs[1..], input, values + [v])
  }

  /** The value of a chain or a sequence: an empty one with no input yields the empty list. */
  function LastOrEmpty(b: Build, previous: Option<ValueReference>): (Build, ValueReference) {
    if previous.Some? then (b, previous.value) else CollectSpec(b, [], None)
  }

  predicate ShapeOk(canvas: Canvas) {
    match canvas.kind
    case TaskCanvas => |canvas.signatures| == 1 && canvas.steps == [] && canvas.callback.None?
    case ChainCanvas => canvas.steps == [] && canvas.callback.None? && |canvas.signatures| <= 1000
    case GroupCanvas => canvas.steps == [] && |canvas.signatures| <= 1000
    case ChordCanvas => canvas.steps == [] && |canvas.signatures| <= 1000
    case SequenceCanvas => canvas.signatures == [] && canvas.callback.None? && |canvas.steps| <= 1000
    case ParallelCanvas => canvas.signatures == [] && canvas.callback.None? && |canvas.steps| <= 1000
    case UnknownCanvas => false
  }

  function CompileSpec(c: Client, b: Build, canvas: Canvas, input: Option<ValueReference>, depth: nat): Result<(Build,
      ValueReference)>
    decreases canvas, 1
  {
    if depth > 32 || |b.graph.plan| > 2000 || |b.graph.children| > 1000 || !ShapeOk(canvas) then Err(Invalid)
    else match canvas.kind
      case TaskCanvas => TaskSpec(c, b, canvas.signatures[0], input)
      case ChainCanvas =>
        (match ChainSpec(c, b, canvas.signatures, input)
         case Err(e) => Err(e)
         case Ok((b', last)) => Ok(LastOrEmpty(b', last)))
      case GroupCanvas =>
        (match GroupSpec(c, b, canvas.signatures, input, [])
         case Err(e) => Err(e)
         case Ok((b', values)) =>
           if canvas.callback.Some? then Err(Invalid) else Ok(CollectSpec(b', values, input)))
      case ChordCanvas =>
        (match GroupSpec(c, b, canvas.signatures, input, [])
         case Err(e) => Err(e)
         case Ok((b', values)) =>
           if canvas.callback.None? then Err(Invalid) else
             var (b'', barrier) := CollectSpec(b', values, input);
             TaskSpec(c, b'', canvas.callback.value, Some(barrier)))
      case SequenceCanvas =>
        (match SequenceSpec(c, b, canvas.steps, input, depth + 1)
         case Err(e) => Err(e)
         case Ok((b', last)) => Ok(LastOrEmpty(b', last)))
      case ParallelCanvas =>
        (match ParallelSpec(c, b, canvas.steps, input, depth + 1, [])
         case Err(e) => Err(e)
         case Ok((b', values)) => Ok(CollectSpec(b', values, input)))
  }

  function SequenceSpec(c: Client, b: Build, steps: seq<Canvas>, previous: Option<ValueReference>,
      depth: nat): Result<(Build, Option<ValueReference>)>
    decreases steps, 0
  {
    if steps == [] then Ok((b, previous)) else
      match CompileSpec(c, b, steps[0], previous, depth)
      case Err(e) => Err(e)
      case Ok((b', v)) => SequenceSpec(c, b', steps[1..], Some(v), depth)
  }

  function ParallelSpec(c: Client, b: Build, steps: seq<Canvas>, input: Option<ValueReference>, depth: nat,
      values: seq<ValueReference>): Result<(Build, seq<ValueReference>)>
    decreases steps, 0
  {
    if steps == [] then Ok((b, values)) else
      match CompileSpec(c, b, steps[0], input, depth)
      case Err(e) => Err(e)
      case Ok((b', v)) => ParallelSpec(c, b', steps[1..], input, depth, values + [v])
  }

  /** A whole compilation into a fresh graph: what ApplyCanvas hands to the first advance. */
  function CompileGraph(c: Client, id: Id, canvas: Canvas): Result<Graph> {
    match CompileSpec(c, Build(EmptyGraph(id, Dag), false), canvas, None, 0)
    case Err(e) => Err(e)
    case Ok((b, root)) => Ok(b.graph.(rootNode := Some(root.id)))
  }

  /** After a failed call the source's callers drop the compiler, so only the error is specified. */
  class CanvasCompiler {
    const client: Client
    var graph: Graph
    var hasScope: bool

    constructor (client: Client, graph: Graph, hasScope: bool)
      ensures this.client == client && State() == Build(graph, hasScope)
    {
      this.client := client;
      this.graph := graph;
      this.hasScope := hasScope;
    }

    function State(): Build
      reads this
    {
      Build(graph, hasScope)
    }

    method Task(signature: Signature, input: Option<ValueReference>) returns (r: Result<ValueReference>)
      modifies this
      ensures match TaskSpec(client, old(State()), signature, input)
              case Err(e) => r == Err(e)
              case Ok((b, v)) => r == Ok(v) && State() == b
    {
      if |graph.children| >= 1000 || |graph.plan| >= 2000 { return Err(Invalid); }
      if !client.known(signature.task) { return Err(UnknownTask); }
      if input.Some? && !signature.immutable && !Compatible(client, signature, input.value) { return Err(Invalid); }
      var id := TaskId(graph.id, |graph.children|);
      var prepared := Prepare(client, signature, id);
      if prepared.None? { return Err(Invalid); }
      if hasScope && prepared.value.scope != graph.scope { return Err(Denied); }
      hasScope := true;
      var envelope := prepared.value.(workflow := Some(graph.id), root := Some(graph.id), parent := Some(graph.id));
      var node := CanvasNode(id, TaskNode, [], [], Some(signature), false);
      if input.Some? {
        node := node.(deps := [input.value.id]);
        envelope := envelope.(parent := Some(input.value.id));
      }
      graph := graph.(scope := envelope.scope, children := graph.children + [envelope], plan := graph.plan + [node]);
      r := Ok(ValueReference(id, client.outputType(signature.task), false));
    }

    method Collect(values: seq<ValueReference>, input: Option<ValueReference>) returns (r: ValueReference)
      modifies this
      ensures (State(), r) == CollectSpec(old(State()), values, input)
    {
      var id := CollectId(graph.id, |graph.plan|);
      var waits := if |values| == 0 && input.Some? then [input.value.id] else [];
      var deps := [];
      var homogeneous := true;
      for i := 0 to |values|
        invariant State() == old(State()) && deps == RefIds(values[..i])
        invariant homogeneous <==> Homogeneous(values[..i])
      {
        deps := deps + [values[i].id];
        HomogeneousNext(values, i);
        homogeneous := homogeneous && values[i].typ == values[0].typ;
      }
      assert values[..|values|] == values;
      var output := if homogeneous && |values| > 0 then SliceOf(values[0].typ) else RawList;
      graph := graph.(plan := graph.plan + [CanvasNode(id, CollectNode, deps, waits, None, false)]);
      r := ValueReference(id, output, |values| == 0);
    }

    method TaskList(signatures: seq<Signature>, input: Option<ValueReference>) returns (r: Result<seq<ValueReference>>)
      modifies this
      ensures match GroupSpec(client, old(State()), signatures, input, [])
              case Err(e) => r == Err(e)
              case Ok((b, values)) => r == Ok(values) && State() == b
    {
      var values := [];
      for i := 0 to |signatures|
        invariant GroupSpec(client, State(), signatures[i..], input, values)
               == GroupSpec(client, old(State()), signatures, input, [])
      {
        var value := Task(signatures[i], input);
        if value.Err? { return Err(value.error); }
        assert signatures[i..][1..] == signatures[i + 1..];
        values := values + [value.value];
      }
      r := Ok(values);
    }

    method Compile(canvas: Canvas, input: Option<ValueReference>, depth: nat) returns (r: Result<ValueReference>)
      modifies this
      ensures match CompileSpec(client, old(State()), canvas, input, depth)
              case Err(e) => r == Err(e)
              case Ok((b, v)) => r == Ok(v) && State() == b
      decreases canvas
    {
      if depth > 32 || |graph.plan| > 2000 || |graph.children| > 1000 || !ShapeOk(canvas) { return Err(Invalid); }
      match canvas.kind {
        case TaskCanvas => r := Task(canvas.signatures[0], input);
        case ChainCanvas =>
          var previous := input;
          for i := 0 to |canvas.signatures|
            invariant ChainSpec(client, State(), canvas.signatures[i..], previous)
                   == ChainSpec(client, old(State()), canvas.signatures, input)
          {
            var value := Task(canvas.signatures[i], previous);
            if value.Err? { return Err(value.error); }
            assert canvas.signatures[i..][1..] == canvas.signatures[i + 1..];
            previous := Some(value.value);
          }
          r := Last(previous);
        case GroupCanvas =>
          var values := TaskList(canvas.signatures, input);
          if values.Err? { return Err(values.error); }
          if canvas.callback.Some? { return Err(Invalid); }
          var group := Collect(values.value, input);
          r := Ok(group);
        case ChordCanvas =>
          var values := TaskList(canvas.signatures, input);
          if values.Err? { return Err(values.error); }
          if canvas.callback.None? { return Err(Invalid); }
          var group := Collect(values.value, input);
          r := Task(canvas.callback.value, Some(group));
        case SequenceCanvas => r := Sequence(canvas, input, depth);
        case ParallelCanvas => r := Parallel(canvas, input, depth);
      }
    }

    method Last(previous: Option<ValueReference>) returns (r: Result<ValueReference>)
      modifies this
      ensures r.Ok? && (State(), r.value) == LastOrEmpty(old(State()), previous)
    {
      if previous.Some? { return Ok(previous.value); }
      var empty := Collect([], None);
      r := Ok(empty);
    }

    method Sequence(canvas: Canvas, input: Option<ValueReference>, depth: nat) returns (r: Result<ValueReference>)
      modifies this
      ensures match SequenceSpec(client, old(State()), canvas.steps, input, depth + 1)
              case Err(e) => r == Err(e)
              case Ok((b, last)) => r.Ok? && (State(), r.value) == LastOrEmpty(b, last)
      decreases canvas, 0
    {
      var previous := input;
      for i := 0 to |canvas.steps|
        invariant SequenceSpec(client, State(), canvas.steps[i..], previous, depth + 1)
               == SequenceSpec(client, old(State()), canvas.steps, input, depth + 1)
      {
        var value := Compile(canvas.steps[i], previous, depth + 1);
        if value.Err? { return Err(value.error); }
        assert canvas.steps[i..][1..] == canvas.steps[i + 1..];
        previous := Some(value.value);
      }
      r := Last(previous);
    }

    method Parallel(canvas: Canvas, input: Option<ValueReference>, depth: nat) returns (r: Result<ValueReference>)
      modifies this
      ensures match ParallelSpec(client, old(State()), canvas.steps, input, depth + 1, [])
              case Err(e) => r == Err(e)
              case Ok((b, values)) => r.Ok? && (State(), r.value) == CollectSpec(b, values, input)
      decreases canvas, 0
    {
      var values := [];
      for i := 0 to |canvas.steps|
        invariant ParallelSpec(client, State(), canvas.steps[i..], input, depth + 1, values)
               == ParallelSpec(client, old(State()), canvas.steps, input, depth + 1, [])
      {
        var value := Compile(canvas.steps[i], input, depth + 1);
        if value.Err? { return Err(value.error); }
        assert canvas.steps[i..][1..] == canvas.steps[i + 1..];
        values := values + [value.value];
      }
      var group := Collect(values, input);
      r := Ok(group);
    }
  }
}
