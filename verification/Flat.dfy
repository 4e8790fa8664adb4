/** async/canvas.go: how ApplyCanvas turns a flat chain, group or chord into a graph with its
    first intents. */
module Flat {
  import opened Protocol
  import opened IntentHash
  import opened WorkflowStore

  function ChildId(graph: Id, n: nat): Id { Stable(graph, ChildLabel(n)) }

  function BodyId(graph: Id): Id { Stable(graph, BodyLabel) }

  predicate FlatKind(kind: CanvasKind) { kind.ChainCanvas? || kind.GroupCanvas? || kind.ChordCanvas? }

  /** Client.validateCanvas. */
  predicate ValidCanvas(c: Client, canvas: Canvas) {
    var sigs := canvas.signatures;
    |sigs| <= 1000 && FlatKind(canvas.kind) &&
    (forall i | 0 <= i < |sigs| :: c.known(sigs[i].task) && c.validate(sigs[i].task, sigs[i].args)) &&
    (canvas.kind.ChainCanvas? ==>
      forall i | 0 < i < |sigs| && !sigs[i].immutable ::
        c.bindingType(sigs[i]) == Some(c.outputType(sigs[i - 1].task))) &&
    (canvas.kind.ChordCanvas? ==>
      canvas.callback.Some? && c.known(canvas.callback.value.task) && BodyAccepts(c, canvas.callback.value, sigs))
  }

  predicate BodyAccepts(c: Client, body: Signature, sigs: seq<Signature>) {
    body.immutable ||
    (c.bindingType(body).Some? && c.bindingType(body).value.SliceOf? &&
     forall i | 0 <= i < |sigs| :: c.outputType(sigs[i].task) == c.bindingType(body).value.elem)
  }

  function GraphKindOf(kind: CanvasKind): GraphKind
    requires FlatKind(kind)
  {
    match kind
    case ChainCanvas => Chain
    case GroupCanvas => Group
    case ChordCanvas => Chord
  }

  /** The first `n` children; all must share the first one's scope. */
  function FlatChildren(c: Client, id: Id, kind: GraphKind, sigs: seq<Signature>, n: nat): (r: Result<seq<Envelope>>)
    requires n <= |sigs|
    ensures r.Ok? ==> |r.value| == n
  {
    if n == 0 then Ok([]) else
      match FlatChildren(c, id, kind, sigs, n - 1)
      case Err(e) => Err(e)
      case Ok(front) =>
        var e := Prepare(c, sigs[n - 1], ChildId(id, n - 1));
        if e.None? then Err(Invalid)
        else if n > 1 && front[0].scope != e.value.scope then Err(Denied)
        else
          var parent := if kind.Chain? && n > 1 then ChildId(id, n - 2) else id;
          Ok(front + [e.value.(workflow := Some(id), root := Some(id), parent := Some(parent))])
  }

  function FlatGraph(c: Client, id: Id, canvas: Canvas): Result<Graph> {
    if !ValidCanvas(c, canvas) then Err(Invalid) else
      match FlatChildren(c, id, GraphKindOf(canvas.kind), canvas.signatures, |canvas.signatures|)
      case Err(e) => Err(e)
      case Ok(children) =>
        var scope := if children != [] then children[0].scope
                     else if canvas.callback.Some? then canvas.callback.value.scope else "";
        if canvas.callback.Some? && canvas.callback.value.scope != scope then Err(Denied)
        else Ok(EmptyGraph(id, GraphKindOf(canvas.kind)).(
          scope := scope, children := children, signatures := canvas.signatures, callback := canvas.callback,
          callbackId := if canvas.callback.Some? then Some(BodyId(id)) else None))
  }

  function DispatchAll(id: Id, children: seq<Envelope>): seq<Intent>
    decreases |children|
  {
    if children ==
         [] then [] else DispatchAll(id, children[..|children| - 1]) + [DispatchIntent(id, children[|children| - 1])]
  }

  /** A chain starts with its first child, a group or chord with all of them. */
  function FirstIntents(g: Graph): seq<Intent> {
    if g.kind.Chain? then (if g.children == [] then [] else [DispatchIntent(g.id, g.children[0])])
    else DispatchAll(g.id, g.children)
  }

  function CreateFlatSpec(c: Client, g: Graph): Result<Row> {
    if g.children == [] then CreateSpec(c, g) else Ok(Row(g, Merge(map[], FirstIntents(g))))
  }

  method ApplyFlat(c: Client, id: Id, canvas: Canvas) returns (r: Result<Graph>)
    ensures r == FlatGraph(c, id, canvas)
  {
    if !ValidCanvas(c, canvas) { return Err(Invalid); }
    var kind := GraphKindOf(canvas.kind);
    var children: seq<Envelope> := [];
    var scope := "";
    for i := 0 to |canvas.signatures|
      invariant FlatChildren(c, id, kind, canvas.signatures, i) == Ok(children)
      invariant |children| == i && scope == if i > 0 then children[0].scope else ""
    {
      var e := Prepare(c, canvas.signatures[i], ChildId(id, i));
      if e.None? {
        ErrPropagates(c, id, kind, canvas.signatures, i + 1, |canvas.signatures|);
        return Err(Invalid);
      }
      if i == 0 {
        scope := e.value.scope;
      } else if scope != e.value.scope {
        ErrPropagates(c, id, kind, canvas.signatures, i + 1, |canvas.signatures|);
        return Err(Denied);
      }
      var child := e.value.(workflow := Some(id), root := Some(id), parent := Some(id));
      if kind.Chain? && i > 0 { child := child.(parent := Some(ChildId(id, i - 1))); }
      children := children + [child];
    }
    var graph := EmptyGraph(id, kind).(children := children, signatures := canvas.signatures,
      callback := canvas.callback);
    if canvas.callback.Some? {
      if |children| == 0 { scope := canvas.callback.value.scope; }
      if canvas.callback.value.scope != scope { return Err(Denied); }
      graph := graph.(callbackId := Some(BodyId(id)));
    }
    r := Ok(graph.(scope := scope));
  }

  lemma {:induction false} ErrPropagates(c: Client, id: Id, kind: GraphKind, sigs: seq<Signature>, n: nat, m: nat)
    requires n <= m <= |sigs| && FlatChildren(c, id, kind, sigs, n).Err?
    ensures FlatChildren(c, id, kind, sigs, m) == FlatChildren(c, id, kind, sigs, n)
    decreases m - n
  {
    if n < m { ErrPropagates(c, id, kind, sigs, n, m - 1); }
  }
}
