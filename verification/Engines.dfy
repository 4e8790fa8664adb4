/** The two workflow engines on one canvas: the flat chain, group or chord machine and the compiled
    DAG. They make the same checks at different moments, so they agree exactly as long as those
    checks decide alike on the values that the tasks really produce. */
module Engines {
  import opened Protocol
  import opened Compiler
  import opened Meaning
  import opened WorkflowStore
  import opened Flat
  import opened DagMeaning
  import opened FlatMeaning
  import opened FlatRuns
  import DagRuns

  type Behaviour = (nat, Value) -> Outcome

  /** Whether the flat engine lets task `n` have arguments `a`. */
  predicate FlatLets(c: Client, g: Graph, n: nat, a: Value)
    requires HasTask(g, n)
  {
    c.known(SigAt(g, n).task) && c.validate(SigAt(g, n).task, a) && FlatAdmits(c, g, n, a)
  }

  /** Whether the compiled graph `h` lets it: an immutable task was checked when it was compiled. */
  predicate DagLets(c: Client, g: Graph, h: Graph, n: nat, a: Value)
    requires HasTask(g, n)
  {
    SigAt(g, n).immutable ||
    (c.known(SigAt(g, n).task) && c.validate(SigAt(g, n).task, a) && n < |h.children| &&
    c.admits(h.children[n].(args := a)))
  }

  /** The engines decide alike on task `n`, with the arguments that its upstream outcome gives it. A
      task without a successful upstream, and one whose arguments cannot be bound, are no question. */
  predicate SameDecision(c: Client, run: Behaviour, g: Graph, h: Graph, n: nat)
    requires HasTask(g, n)
  {
    var input := TaskInput(c, FlatWorld(c, run, g), g, n);
    input.Some? && input.value.state == Succeeded ==>
      var args := BindArgs(c, SigAt(g, n), input.value.output);
      args.Some? ==> (FlatLets(c, g, n, args.value) <==> DagLets(c, g, h, n, args.value))
  }

  predicate SameDecisions(c: Client, run: Behaviour, g: Graph, h: Graph) {
    forall n | 0 <= n <= |g.signatures| && HasTask(g, n) :: SameDecision(c, run, g, h, n)
  }

  // ---- from decisions to meanings ----

  /** On one upstream outcome the two admissions are equal exactly when the decisions are. */
  lemma AdmissionsMatch(c: Client, run: Behaviour, g: Graph, h: Graph, n: nat, x: Outcome)
    requires HasTask(g, n)
    ensures var f, d := Admit(c, FlatWorld(c, run, g), SigAt(g, n), Some(x), n),
              Admit(c, DagWorld(c, run, h), SigAt(g, n), Some(x), n);
            var args := BindArgs(c, SigAt(g, n), x.output);
            f == d <==>
              (x.state == Succeeded && args.Some? ==>
                (FlatLets(c, g, n, args.value) <==> DagLets(c, g, h, n, args.value)))
  {
    hide FlatAdmits;
  }

  /** Same upstream outcome and same decision: same outcome. */
  lemma ValuesMatch(c: Client, run: Behaviour, g: Graph, h: Graph, n: nat)
    requires HasTask(g, n) && SameDecision(c, run, g, h, n)
    requires TaskInput(c, FlatWorld(c, run, g), g, n) == TaskInput(c, DagWorld(c, run, h), g, n)
    ensures TaskVal(c, FlatWorld(c, run, g), g, n) == TaskVal(c, DagWorld(c, run, h), g, n)
  {
    var input := TaskInput(c, FlatWorld(c, run, g), g, n);
    if input.Some? { AdmissionsMatch(c, run, g, h, n, input.value); }
    hide TaskInput, SameDecision, FlatAdmits, BindArgs;
  }

  /** Same upstream outcome and success on both sides: same decision and same outcome. */
  lemma SuccessMatches(c: Client, run: Behaviour, g: Graph, h: Graph, n: nat)
    requires HasTask(g, n) && TaskInput(c, FlatWorld(c, run, g), g, n) == TaskInput(c, DagWorld(c, run, h), g, n)
    requires TaskVal(c, FlatWorld(c, run, g), g, n).state == Succeeded &&
             TaskVal(c, DagWorld(c, run, h), g, n).state == Succeeded
    ensures SameDecision(c, run, g, h, n) &&
            TaskVal(c, FlatWorld(c, run, g), g, n) == TaskVal(c, DagWorld(c, run, h), g, n)
  {
    var input := TaskInput(c, FlatWorld(c, run, g), g, n);
    hide TaskInput, FlatAdmits;
    if input.Some? { AdmissionsMatch(c, run, g, h, n, input.value); }
  }

  lemma {:induction false} ChainValuesMatch(c: Client, run: Behaviour, g: Graph, h: Graph, n: nat)
    requires g.kind.Chain? && n < |g.signatures| && SameDecisions(c, run, g, h)
    ensures TaskVal(c, FlatWorld(c, run, g), g, n) == TaskVal(c, DagWorld(c, run, h), g, n)
    decreases n
  {
    assert SameDecision(c, run, g, h, n);
    if n > 0 { ChainValuesMatch(c, run, g, h, n - 1); }
    hide SameDecision, SameDecisions;
    ValuesMatch(c, run, g, h, n);
  }

  /** A chain that succeeds on both sides decided alike at every task. */
  lemma {:induction false} ChainSuccessMatches(c: Client, run: Behaviour, g: Graph, h: Graph, n: nat)
    requires g.kind.Chain? && n < |g.signatures|
    requires TaskVal(c, FlatWorld(c, run, g), g, |g.signatures| - 1).state == Succeeded
    requires TaskVal(c, DagWorld(c, run, h), g, |g.signatures| - 1).state == Succeeded
    ensures SameDecision(c, run, g, h, n) &&
            TaskVal(c, FlatWorld(c, run, g), g, n) == TaskVal(c, DagWorld(c, run, h), g, n)
    decreases n
  {
    if n > 0 { ChainSuccessMatches(c, run, g, h, n - 1); }
    hide SameDecision;
    assert TaskInput(c, FlatWorld(c, run, g), g, n) == TaskInput(c, DagWorld(c, run, h), g, n);
    hide TaskVal, TaskInput;
    if TaskVal(c, FlatWorld(c, run, g), g, n).state != Succeeded {
      ChainFails(c, FlatWorld(c, run, g), g, n, |g.signatures| - 1);
    }
    if TaskVal(c, DagWorld(c, run, h), g, n).state != Succeeded {
      ChainFails(c, DagWorld(c, run, h), g, n, |g.signatures| - 1);
    }
    SuccessMatches(c, run, g, h, n);
  }

  /** The header of a group or chord starts at once, so both engines give it the same outcomes. */
  lemma HeadersMatch(c: Client, run: Behaviour, g: Graph, h: Graph)
    requires !g.kind.Chain?
    ensures Header(c, FlatWorld(c, run, g), g) == Header(c, DagWorld(c, run, h), g)
  {
    forall n | 0 <= n < |g.signatures|
      ensures TaskVal(c, FlatWorld(c, run, g), g, n) == TaskVal(c, DagWorld(c, run, h), g, n)
    {
      assert TaskInput(c, FlatWorld(c, run, g), g, n) == None;
    }
  }

  lemma BodyInputsMatch(c: Client, run: Behaviour, g: Graph, h: Graph)
    requires g.kind.Chord? && g.callback.Some?
    ensures TaskInput(c, FlatWorld(c, run, g), g, |g.signatures|) ==
              TaskInput(c, DagWorld(c, run, h), g, |g.signatures|)
    ensures TaskInput(c, FlatWorld(c, run, g), g, |g.signatures|) ==
              Some(Gather(Header(c, FlatWorld(c, run, g), g), None))
  {
    HeadersMatch(c, run, g, h);
    FlatMeanOfBarrier(c, FlatWorld(c, run, g), g);
    FlatMeanOfBarrier(c, DagWorld(c, run, h), g);
    hide TaskInput, Header, Gather;
  }

  /** A header task has no upstream: only a chord's body is a question. */
  lemma OnlyBodyDecides(c: Client, run: Behaviour, g: Graph, h: Graph)
    requires !g.kind.Chain?
    ensures SameDecisions(c, run, g, h) <==> (HasTask(g, |g.signatures|) ==> SameDecision(c, run, g, h, |g.signatures|))
  {
    forall n | 0 <= n < |g.signatures| ensures SameDecision(c, run, g, h, n) {
      assert TaskInput(c, FlatWorld(c, run, g), g, n) == None;
    }
    hide SameDecision;
  }

  predicate Succeeds(a: Outcome, b: Outcome) { a.state == Succeeded || b.state == Succeeded }

  lemma ChainMeaningsAgree(c: Client, run: Behaviour, g: Graph, h: Graph)
    requires g.kind.Chain?
    ensures var a, b := FlatMean(c, FlatWorld(c, run, g), g), FlatMean(c, DagWorld(c, run, h), g);
            Agree(a, b) <==> (Succeeds(a, b) ==> SameDecisions(c, run, g, h))
  {
    var a, b := FlatMean(c, FlatWorld(c, run, g), g), FlatMean(c, DagWorld(c, run, h), g);
    hide TaskVal, SameDecision;
    if g.signatures != [] {
      if SameDecisions(c, run, g, h) { ChainValuesMatch(c, run, g, h, |g.signatures| - 1); }
      if Agree(a, b) && Succeeds(a, b) {
        forall n | 0 <= n <= |g.signatures| && HasTask(g, n) ensures SameDecision(c, run, g, h, n) {
          ChainSuccessMatches(c, run, g, h, n);
        }
      }
    }
  }

  lemma BarrierMeaningsAgree(c: Client, run: Behaviour, g: Graph, h: Graph)
    requires g.kind.Group? || (g.kind.Chord? && g.callback.Some?)
    ensures var a, b := FlatMean(c, FlatWorld(c, run, g), g), FlatMean(c, DagWorld(c, run, h), g);
            Agree(a, b) <==> (Succeeds(a, b) ==> SameDecisions(c, run, g, h))
  {
    HeadersMatch(c, run, g, h);
    OnlyBodyDecides(c, run, g, h);
    hide TaskVal, SameDecision, SameDecisions, Header, Gather;
    if g.kind.Chord? {
      var n := |g.signatures|;
      BodyInputsMatch(c, run, g, h);
      var a, b := TaskVal(c, FlatWorld(c, run, g), g, n), TaskVal(c, DagWorld(c, run, h), g, n);
      if SameDecision(c, run, g, h, n) { ValuesMatch(c, run, g, h, n); }
      if Agree(a, b) && Succeeds(a, b) { SuccessMatches(c, run, g, h, n); }
    }
  }

  lemma MeaningsAgree(c: Client, run: Behaviour, g: Graph, h: Graph)
    requires !g.kind.Dag? && (g.kind.Chord? ==> g.callback.Some?)
    ensures var a, b := FlatMean(c, FlatWorld(c, run, g), g), FlatMean(c, DagWorld(c, run, h), g);
            Agree(a, b) <==> (Succeeds(a, b) ==> SameDecisions(c, run, g, h))
  {
    hide FlatMean, SameDecisions;
    if g.kind.Chain? { ChainMeaningsAgree(c, run, g, h); } else { BarrierMeaningsAgree(c, run, g, h); }
  }

  // ---- the engines ----

  /** A settled run that was neither cancelled nor aborted. */
  predicate SettledNormal(g: Graph) { Normal(g) && g.state.Terminal() }

  function End(c: Client, row: Row, events: seq<Event>): Graph { DagRuns.End(c, row, events).graph }

  function ResultOf(g: Graph): Outcome { Outcome(g.state, g.output, g.failure) }

  /** Both engines accept the canvas and run it, whatever the order of completions. */
  ghost predicate BothRun(c: Client, run: Behaviour, id: Id, canvas: Canvas, flat: seq<Event>, nested: seq<Event>) {
    (forall k, a :: run(k, a).state.Terminal()) &&
    FlatGraph(c, id, canvas).Ok? && CreateFlatSpec(c, FlatGraph(c, id, canvas).value).Ok? &&
    CompileGraph(c, id, canvas).Ok? && |CompileGraph(c, id, canvas).value.plan| <= 2000 &&
    CreateSpec(c, CompileGraph(c, id, canvas).value).Ok? &&
    var g, h := FlatGraph(c, id, canvas).value, CompileGraph(c, id, canvas).value;
    FlatRun(c, FlatWorld(c, run, g), CreateFlatSpec(c, g).value, flat) &&
    DagRuns.Run(c, DagWorld(c, run, h), CreateSpec(c, h).value, nested)
  }

  /** What the two settled runs show are the two meanings of the canvas. */
  lemma EndsMean(c: Client, run: Behaviour, id: Id, canvas: Canvas, flat: seq<Event>, nested: seq<Event>)
    requires BothRun(c, run, id, canvas, flat, nested)
    ensures var g0, h0 := FlatGraph(c, id, canvas).value, CompileGraph(c, id, canvas).value;
            var g, h := End(c, CreateFlatSpec(c, g0).value, flat), End(c, CreateSpec(c, h0).value, nested);
            (SettledNormal(g) ==> Agree(ResultOf(g), FlatMean(c, FlatWorld(c, run, g0), g0))) &&
            (SettledNormal(h) ==> ResultOf(h) == FlatMean(c, DagWorld(c, run, h0), g0))
  {
    hide FlatGraph, CompileGraph, CreateFlatSpec, CreateSpec, FlatRun, DagRuns.Run, DagRuns.End, Mean, FlatMean;
    var g0, h0 := FlatGraph(c, id, canvas).value, CompileGraph(c, id, canvas).value;
    assert WorldOf(c, DagWorld(c, run, h0), h0);
    hide WorldOf, FlatWorld, DagWorld;
    FlatComputesMeaning(c, run, id, canvas, flat);
    DagRuns.WorkflowComputesMeaning(c, DagWorld(c, run, h0), id, canvas, nested);
    FlatMeaningIsMeaning(c, FlatWorld(c, run, g0), id, canvas);
    FlatMeaningIsMeaning(c, DagWorld(c, run, h0), id, canvas);
  }

  lemma FlatShape(c: Client, id: Id, canvas: Canvas)
    requires FlatGraph(c, id, canvas).Ok?
    ensures var g := FlatGraph(c, id, canvas).value;
            !g.kind.Dag? && (g.kind.Chord? ==> g.callback.Some? && c.known(g.callback.value.task)) && g.id == id &&
            |g.children| == |g.signatures| &&
            g.signatures == canvas.signatures && g.callback == canvas.callback &&
            (canvas.kind.ChordCanvas? ==> g.kind.Chord?)
  {
  }

  /** Neither meaning is a success, or the engines decide alike on every task's arguments: a matter
      of the canvas and of what its tasks do, not of any run. */
  predicate Comparable(c: Client, run: Behaviour, canvas: Canvas, g: Graph, h: Graph) {
    Succeeds(Mean(c, FlatWorld(c, run, g), canvas, None, 0), Mean(c, DagWorld(c, run, h), canvas, None, 0)) ==>
      SameDecisions(c, run, g, h)
  }

  /** When the two engines agree: settled normal runs of one canvas, with the same tasks in any two
      orders of completion, either both succeed with the same output or both fail to succeed, if
      and only if the canvas is comparable. */
  lemma EnginesAgree(c: Client, run: Behaviour, id: Id, canvas: Canvas, flat: seq<Event>, nested: seq<Event>)
    requires BothRun(c, run, id, canvas, flat, nested)
    ensures var g0, h0 := FlatGraph(c, id, canvas).value, CompileGraph(c, id, canvas).value;
            var g, h := End(c, CreateFlatSpec(c, g0).value, flat), End(c, CreateSpec(c, h0).value, nested);
            SettledNormal(g) && SettledNormal(h) ==>
              (Agree(ResultOf(g), ResultOf(h)) <==> Comparable(c, run, canvas, g0, h0))
  {
    hide FlatGraph, CompileGraph, CreateFlatSpec, CreateSpec, End, FlatMean, Mean, FlatRun, DagRuns.Run, SameDecisions,
           FlatWorld, DagWorld;
    var g0, h0 := FlatGraph(c, id, canvas).value, CompileGraph(c, id, canvas).value;
    EndsMean(c, run, id, canvas, flat, nested);
    FlatShape(c, id, canvas);
    FlatMeaningIsMeaning(c, FlatWorld(c, run, g0), id, canvas);
    FlatMeaningIsMeaning(c, DagWorld(c, run, h0), id, canvas);
    MeaningsAgree(c, run, g0, h0);
  }

  // ---- when the decisions are alike ----

  /** A task's envelope as either engine makes it: the signature's fields, and all three links. */
  predicate MadeFrom(c: Client, s: Signature, e: Envelope) {
    e == Envelope(e.id, s.task, s.args, s.scope, e.workflow, e.parent, e.root, 0, c.maxRetries(s.task), s.eta,
      s.expires, 0) &&
    e.workflow.Some? && e.parent.Some? && e.root.Some?
  }

  lemma {:induction false} FlatChildMade(c: Client, id: Id, kind: GraphKind, sigs: seq<Signature>, n: nat, i: nat)
    requires n <= |sigs| && i < n && FlatChildren(c, id, kind, sigs, n).Ok?
    ensures MadeFrom(c, sigs[i], FlatChildren(c, id, kind, sigs, n).value[i])
    decreases n
  {
    if i < n - 1 { FlatChildMade(c, id, kind, sigs, n - 1, i); }
  }

  lemma TaskMade(c: Client, b: Build, s: Signature, input: Option<ValueReference>)
    requires TaskSpec(c, b, s, input).Ok?
    ensures var b' := TaskSpec(c, b, s, input).value.0;
            b.graph.children <= b'.graph.children && |b'.graph.children| == |b.graph.children| + 1 &&
            MadeFrom(c, s, b'.graph.children[|b.graph.children|])
  {
  }

  lemma {:induction false} ChainMade(c: Client, b: Build, sigs: seq<Signature>, previous: Option<ValueReference>,
      i: nat)
    requires ChainSpec(c, b, sigs, previous).Ok? && i <= |sigs|
    ensures var b' := ChainSpec(c, b, sigs, previous).value.0;
            b.graph.children <= b'.graph.children && |b'.graph.children| == |b.graph.children| + |sigs| &&
            (i < |sigs| ==> MadeFrom(c, sigs[i], b'.graph.children[|b.graph.children| + i]))
    decreases sigs
  {
    hide MadeFrom;
    if sigs != [] {
      TaskMade(c, b, sigs[0], previous);
      var (b1, v) := TaskSpec(c, b, sigs[0], previous).value;
      hide TaskSpec, MadeFrom;
      ChainMade(c, b1, sigs[1..], Some(v), if i > 0 then i - 1 else 0);
      if 0 < i < |sigs| { assert sigs[1..][i - 1] == sigs[i]; }
    }
  }

  lemma {:induction false} GroupMade(c: Client, b: Build, sigs: seq<Signature>, input: Option<ValueReference>,
      values: seq<ValueReference>)
    requires GroupSpec(c, b, sigs, input, values).Ok?
    ensures |GroupSpec(c, b, sigs, input, values).value.0.graph.children| == |b.graph.children| + |sigs|
    decreases sigs
  {
    if sigs != [] {
      TaskMade(c, b, sigs[0], input);
      var (b1, v) := TaskSpec(c, b, sigs[0], input).value;
      hide TaskSpec, MadeFrom;
      GroupMade(c, b1, sigs[1..], input, values + [v]);
    }
  }

  /** Every task a question can be about is compiled from its signature. */
  lemma CompiledMade(c: Client, id: Id, canvas: Canvas, n: nat)
    requires FlatGraph(c, id, canvas).Ok? && CompileGraph(c, id, canvas).Ok?
    requires (canvas.kind.ChainCanvas? && n < |canvas.signatures|) ||
             (canvas.kind.ChordCanvas? && n == |canvas.signatures|)
    ensures var g, h := FlatGraph(c, id, canvas).value, CompileGraph(c, id, canvas).value;
            HasTask(g, n) && n < |h.children| && MadeFrom(c, SigAt(g, n), h.children[n])
  {
    var b := Build(EmptyGraph(id, Dag), false);
    hide TaskSpec;
    if canvas.kind.ChainCanvas? {
      ChainMade(c, b, canvas.signatures, None, n);
    } else {
      GroupMade(c, b, canvas.signatures, None, []);
      var (b1, values) := GroupSpec(c, b, canvas.signatures, None, []).value;
      var (b2, barrier) := CollectSpec(b1, values, None);
      TaskMade(c, b2, canvas.callback.value, Some(barrier));
    }
  }

  /** Groups always agree: their tasks start at once. */
  lemma GroupsAgree(c: Client, run: Behaviour, id: Id, canvas: Canvas, flat: seq<Event>, nested: seq<Event>)
    requires BothRun(c, run, id, canvas, flat, nested) && canvas.kind.GroupCanvas?
    ensures var g := End(c, CreateFlatSpec(c, FlatGraph(c, id, canvas).value).value, flat);
            var h := End(c, CreateSpec(c, CompileGraph(c, id, canvas).value).value, nested);
            SettledNormal(g) && SettledNormal(h) ==> Agree(ResultOf(g), ResultOf(h))
  {
    var g0, h0 := FlatGraph(c, id, canvas).value, CompileGraph(c, id, canvas).value;
    assert g0.kind.Group?;
    hide BothRun, FlatGraph, CompileGraph, CreateFlatSpec, CreateSpec, End, Mean;
    EnginesAgree(c, run, id, canvas, flat, nested);
    OnlyBodyDecides(c, run, g0, h0);
    hide SameDecisions;
  }

  /** The validation of an envelope sees of its links only whether they are there. */
  ghost predicate LinkBlind(c: Client) {
    forall s, a, e, e' | MadeFrom(c, s, e) && MadeFrom(c, s, e') :: c.admits(e.(args := a)) == c.admits(e'.(args := a))
  }

  /** Chains agree for every client whose validation ignores which links an envelope carries, when
      each immutable task after the first is still valid with its links. */
  lemma ChainsAgree(c: Client, run: Behaviour, id: Id, canvas: Canvas, flat: seq<Event>, nested: seq<Event>)
    requires BothRun(c, run, id, canvas, flat, nested) && canvas.kind.ChainCanvas? && LinkBlind(c)
    requires forall n | 0 < n < |canvas.signatures| && canvas.signatures[n].immutable ::
               c.admits(FlatGraph(c, id, canvas).value.children[n])
    ensures var g := End(c, CreateFlatSpec(c, FlatGraph(c, id, canvas).value).value, flat);
            var h := End(c, CreateSpec(c, CompileGraph(c, id, canvas).value).value, nested);
            SettledNormal(g) && SettledNormal(h) ==> Agree(ResultOf(g), ResultOf(h))
  {
    var g0, h0 := FlatGraph(c, id, canvas).value, CompileGraph(c, id, canvas).value;
    forall n | 0 <= n <= |g0.signatures| && HasTask(g0, n) ensures SameDecision(c, run, g0, h0, n) {
      ChainDecision(c, run, id, canvas, n);
    }
    hide BothRun, FlatGraph, CompileGraph, CreateFlatSpec, CreateSpec, End, Mean, SameDecision;
    EnginesAgree(c, run, id, canvas, flat, nested);
  }

  lemma ChainDecision(c: Client, run: Behaviour, id: Id, canvas: Canvas, n: nat)
    requires FlatGraph(c, id, canvas).Ok? && CompileGraph(c, id, canvas).Ok? && canvas.kind.ChainCanvas? && LinkBlind(c)
    requires n < |canvas.signatures|
    requires n > 0 && canvas.signatures[n].immutable ==> c.admits(FlatGraph(c, id, canvas).value.children[n])
    ensures SameDecision(c, run, FlatGraph(c, id, canvas).value, CompileGraph(c, id, canvas).value, n)
  {
    var g, h := FlatGraph(c, id, canvas).value, CompileGraph(c, id, canvas).value;
    CompiledMade(c, id, canvas, n);
    FlatChildMade(c, id, Chain, canvas.signatures, |canvas.signatures|, n);
    FlatGraphStarts(c, id, canvas);
    assert c.known(g.signatures[n].task) && c.validate(g.signatures[n].task, g.signatures[n].args) &&
           g.children[n].args == g.signatures[n].args;
    assert g.children[n].(args := g.signatures[n].args) == g.children[n];
    hide FlatGraph, CompileGraph, TaskVal, FlatStart;
    if n == 0 { assert TaskInput(c, FlatWorld(c, run, g), g, n) == None; }
    hide TaskInput;
  }

  // ---- chords ----

  /** The list a chord's header combines to, when all of it succeeds. */
  function Combined(run: Behaviour, sigs: seq<Signature>): Option<Value> {
    if exists i | 0 <= i < |sigs| :: run(i, sigs[i].args).state != Succeeded then None
    else Some(MarshalList(seq(|sigs|, i requires 0 <= i < |sigs| => run(i, sigs[i].args).output)))
  }

  /** Chords agree if and only if the body, with the one value that the header combines to, does not
      succeed or is let through by both checks: prepared anew without links by the flat engine,
      validated with its links by the compiled one. */
  lemma ChordsAgree(c: Client, run: Behaviour, id: Id, canvas: Canvas, flat: seq<Event>, nested: seq<Event>)
    requires BothRun(c, run, id, canvas, flat, nested) && canvas.kind.ChordCanvas? && canvas.callback.Some?
    ensures var g0, h0 := FlatGraph(c, id, canvas).value, CompileGraph(c, id, canvas).value;
            var g, h := End(c, CreateFlatSpec(c, g0).value, flat), End(c, CreateSpec(c, h0).value, nested);
            var n, combined := |canvas.signatures|, Combined(run, canvas.signatures);
            var args := if combined.Some? then BindArgs(c, canvas.callback.value, combined) else None;
            SettledNormal(g) && SettledNormal(h) ==>
              (Agree(ResultOf(g), ResultOf(h)) <==>
               (args.Some? && run(n, args.value).state == Succeeded ==>
                 (Prepare(c, canvas.callback.value.(args := args.value), BodyId(id)).Some? <==>
                  canvas.callback.value.immutable ||
                  (n < |h0.children| && c.validate(canvas.callback.value.task, args.value) &&
                  c.admits(h0.children[n].(args := args.value))))))
  {
    hide FlatGraph, CompileGraph, CreateFlatSpec, CreateSpec, End, FlatMean, FlatRun, DagRuns.Run, FlatWorld, DagWorld;
    EndsMean(c, run, id, canvas, flat, nested);
    FlatShape(c, id, canvas);
    ChordMeanings(c, run, FlatGraph(c, id, canvas).value, CompileGraph(c, id, canvas).value);
  }

  lemma HeaderCombines(c: Client, run: Behaviour, g: Graph)
    requires g.kind.Chord?
    ensures var x := Gather(Header(c, FlatWorld(c, run, g), g), None);
            (Combined(run, g.signatures).Some? <==> x.state == Succeeded) &&
            (x.state == Succeeded ==> x.output == Combined(run, g.signatures))
  {
    var w := FlatWorld(c, run, g);
    forall n | 0 <= n < |g.signatures| ensures Header(c, w, g)[n] == run(n, g.signatures[n].args) {
      assert TaskInput(c, w, g, n) == None;
    }
    hide FlatWorld;
    PartsCombine(run, g.signatures, Header(c, w, g));
  }

  lemma PartsCombine(run: Behaviour, sigs: seq<Signature>, parts: seq<Outcome>)
    requires |parts| == |sigs| && forall n | 0 <= n < |sigs| :: parts[n] == run(n, sigs[n].args)
    ensures var x := Gather(parts, None);
            (Combined(run, sigs).Some? <==> x.state == Succeeded) &&
            (x.state == Succeeded ==> x.output == Combined(run, sigs))
  {
    var a := seq(|parts|, i requires 0 <= i < |parts| => parts[i].output);
    var b := seq(|sigs|, i requires 0 <= i < |sigs| => run(i, sigs[i].args).output);
    assert a == b;
    hide MarshalList;
    if n :| 0 <= n < |sigs| && run(n, sigs[n].args).state != Succeeded { assert parts[n].state != Succeeded; }
    if n :| 0 <= n < |parts| && parts[n].state != Succeeded { assert run(n, sigs[n].args).state != Succeeded; }
  }

  lemma ChordMeanings(c: Client, run: Behaviour, g: Graph, h: Graph)
    requires g.kind.Chord? && g.callback.Some? && c.known(g.callback.value.task) && |g.children| == |g.signatures|
    ensures var a, b := FlatMean(c, FlatWorld(c, run, g), g), FlatMean(c, DagWorld(c, run, h), g);
            var n, combined := |g.signatures|, Combined(run, g.signatures);
            var args := if combined.Some? then BindArgs(c, g.callback.value, combined) else None;
            Agree(a, b) <==>
              (args.Some? && run(n, args.value).state == Succeeded ==>
                (Prepare(c, g.callback.value.(args := args.value), BodyId(g.id)).Some? <==>
                 g.callback.value.immutable ||
                 (n < |h.children| && c.validate(g.callback.value.task, args.value) &&
                 c.admits(h.children[n].(args := args.value)))))
  {
    var n, sig, x := |g.signatures|, g.callback.value, Gather(Header(c, FlatWorld(c, run, g), g), None);
    HeaderCombines(c, run, g);
    BodyInputsMatch(c, run, g, h);
    assert FlatMean(c, FlatWorld(c, run, g), g) == MeanTask(c, FlatWorld(c, run, g), sig, Some(x), n);
    assert FlatMean(c, DagWorld(c, run, h), g) == MeanTask(c, DagWorld(c, run, h), sig, Some(x), n);
    hide FlatMean, Gather, Header, Combined;
    BodyOutcomes(c, run, g, h, x);
  }

  lemma BodyOutcomes(c: Client, run: Behaviour, g: Graph, h: Graph, x: Outcome)
    requires g.callback.Some? && c.known(g.callback.value.task) && |g.children| == |g.signatures|
    ensures var n, sig := |g.signatures|, g.callback.value;
            var a, b := MeanTask(c, FlatWorld(c, run, g), sig, Some(x), n),
              MeanTask(c, DagWorld(c, run, h), sig, Some(x), n);
            var args := if x.state == Succeeded then BindArgs(c, sig, x.output) else None;
            Agree(a, b) <==>
              (args.Some? && run(n, args.value).state == Succeeded ==>
                (Prepare(c, sig.(args := args.value), BodyId(g.id)).Some? <==>
                 sig.immutable ||
                 (n < |h.children| && c.validate(sig.task, args.value) &&
                 c.admits(h.children[n].(args := args.value)))))
  {
  }
}
