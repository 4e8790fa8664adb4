/** In the normal mode a chain, group or chord stores what its canvas means: recorded outcomes
    agree with the tasks' meanings and each dispatch intent carries the arguments, or the
    refusal, that the meaning gives the task. */
module FlatMeaning {
  import opened Protocol
  import opened Meaning
  import opened Nested
  import opened Engine
  import opened IntentHash
  import opened WorkflowStore
  import opened Flat
  import opened DagInvariant
  import opened DagMeaning
  import opened FlatInvariant
  import opened FlatAdvance

  /** Both succeed with the same output, or neither succeeds. */
  predicate Agree(a: Outcome, b: Outcome) {
    (a.state == Succeeded <==> b.state == Succeeded) && (a.state == Succeeded ==> a.output == b.output)
  }

  predicate HasTask(g: Graph,
      n: nat) { n < |g.signatures| || (g.kind.Chord? && g.callback.Some? && n == |g.signatures|) }

  function SigAt(g: Graph, n: nat): Signature
    requires HasTask(g, n)
  {
    if n < |g.signatures| then g.signatures[n] else g.callback.value
  }

  function TaskAt(g: Graph, n: nat): Id { if n < |g.signatures| then ChildId(g.id, n) else BodyId(g.id) }

  /** The position of a flat graph's task. */
  function Position(g: Graph, id: Id): nat {
    match id
    case Stable(_, ChildLabel(n)) => n
    case _ => |g.signatures|
  }

  function TaskVal(c: Client, w: World, g: Graph, n: nat): Outcome
    requires HasTask(g, n)
    decreases n, 0
  {
    MeanTask(c, w, SigAt(g, n), TaskInput(c, w, g, n), n)
  }

  function TaskInput(c: Client, w: World, g: Graph, n: nat): Option<Outcome>
    requires HasTask(g, n)
    decreases n, -1
  {
    if n == |g.signatures| then Some(Gather(seq(n, i requires 0 <= i < n => TaskVal(c, w, g, i)), None))
    else if g.kind.Chain? && n > 0 then Some(TaskVal(c, w, g, n - 1))
    else None
  }

  function Header(c: Client, w: World, g: Graph): seq<Outcome> {
    seq(|g.signatures|, i requires 0 <= i < |g.signatures| => TaskVal(c, w, g, i))
  }

  /** What the whole flat graph means. */
  function FlatMean(c: Client, w: World, g: Graph): Outcome {
    match g.kind
    case Chain => if g.signatures == [] then Gather([], None) else TaskVal(c, w, g, |g.signatures| - 1)
    case Chord => if g.callback.Some? then TaskVal(c, w, g, |g.signatures|) else Gather(Header(c, w, g), None)
    case _ => Gather(Header(c, w, g), None)
  }

  function TaskAdmission(c: Client, w: World, g: Graph, n: nat): Admission
    requires HasTask(g, n)
  {
    Admit(c, w, SigAt(g, n), TaskInput(c, w, g, n), n)
  }

  predicate FlatIntentMeans(x: Intent, admission: Admission) {
    match x.payload
    case Publish(e) => admission == Admitted(e.args)
    case Fail(_, f, state) => f.None? && state.None? && admission.Refused?
    case _ => false
  }

  predicate TaskMeans(c: Client, w: World, g0: Graph, g: Graph, s: Intents, n: nat)
    requires HasTask(g0, n)
  {
    var id := TaskAt(g0, n);
    (id in g.members ==> Agree(g.members[id].outcome, TaskVal(c, w, g0, n))) &&
    (DispatchId(g, id) in s ==> FlatIntentMeans(s[DispatchId(g, id)], TaskAdmission(c, w, g0, n)))
  }

  predicate TasksMean(c: Client, w: World, g0: Graph, g: Graph, s: Intents) {
    forall n | 0 <= n <= |g0.signatures| && HasTask(g0, n) :: TaskMeans(c, w, g0, g, s, n)
  }

  predicate SettledMean(c: Client, w: World, g0: Graph, g: Graph) {
    g.state.Terminal() ==> Agree(Outcome(g.state, g.output, g.failure), FlatMean(c, w, g0))
  }

  predicate FlatMeans(c: Client, w: World, g0: Graph, g: Graph, s: Intents) {
    SameFlat(g0, g) && TasksMean(c, w, g0, g, s) && SettledMean(c, w, g0, g)
  }

  /** The result of an advance agrees with the meaning. */
  predicate MeansAfter(c: Client, w: World, g0: Graph, s: Intents, r: Advanced) {
    r.Ok? && FlatMeans(c, w, g0, r.value.0, Merge(s, r.value.1))
  }

  predicate FlatFaithful(w: World, g: Graph, s: Intents, m: Completion) {
    DispatchId(g, m.id) in s && m.outcome == Settlement(w, s[DispatchId(g, m.id)], Position(g, m.id))
  }

  /** What the flat engine checks before task `k` gets arguments `a`: the chain validates the
      child's envelope, the chord prepares its body anew. */
  predicate FlatAdmits(c: Client, g: Graph, k: nat, a: Value) {
    if k < |g.children| then c.admits(g.children[k].(args := a))
    else g.callback.Some? && Prepare(c, g.callback.value.(args := a), BodyId(g.id)).Some?
  }

  /** The world of a flat graph: immutable tasks are checked like the others. */
  function FlatWorld(c: Client, run: (nat, Value) -> Outcome, g: Graph): World {
    World(run, (k: nat, a) => FlatAdmits(c, g, k, a), true)
  }

  /** The world validates envelopes the way the client does for this graph. */
  ghost predicate FlatWorldOf(c: Client, w: World, g: Graph) {
    |g.children| == |g.signatures| && w.rechecks && (g.kind.Chord? ==> g.callback.Some?) &&
    (forall k, a :: w.run(k, a).state.Terminal()) && (forall k: nat, a :: w.admits(k, a) == FlatAdmits(c, g, k, a))
  }

  /** Agreeing inputs admit a task alike. */
  lemma AgreeAdmits(c: Client, w: World, s: Signature, a: Outcome, b: Outcome, k: nat)
    requires Agree(a, b)
    ensures Admit(c, w, s, Some(a), k) == Admit(c, w, s, Some(b), k)
  {
  }

  lemma SettlementAgrees(c: Client, w: World, g0: Graph, g: Graph, s: Intents, m: Completion, n: nat)
    requires HasTask(g0, n) && m.id == TaskAt(g0, n) && TaskMeans(c, w, g0, g, s, n) && FlatFaithful(w, g, s, m)
    requires SameFlat(g0, g)
    ensures Agree(m.outcome, TaskVal(c, w, g0, n))
  {
    assert Position(g, m.id) == n;
  }

  lemma RecordFlatMeaning(c: Client, w: World, g0: Graph, g: Graph, s: Intents, m: Completion, n: nat)
    requires FlatMeans(c, w, g0, g, s) && HasTask(g0, n) && m.id == TaskAt(g0, n) &&
             Agree(m.outcome, TaskVal(c, w, g0, n))
    ensures FlatMeans(c, w, g0, WithMember(g, m), s)
  {
    hide TaskVal, TaskAdmission, Agree, FlatIntentMeans, FlatMean;
    var g' := WithMember(g, m);
    forall k | 0 <= k <= |g0.signatures| && HasTask(g0, k) ensures TaskMeans(c, w, g0, g', s, k) {
      assert TaskMeans(c, w, g0, g, s, k);
      assert TaskAt(g0, k) == m.id ==> k == n;
    }
  }

  /** New intents that are not dispatches do not matter to the meaning. */
  lemma UnpinsMean(c: Client, w: World, g0: Graph, g: Graph, g': Graph, s: Intents, batch: seq<Intent>)
    requires TasksMean(c, w, g0, g, s) && g'.members == g.members && g'.id == g.id
    requires forall x | x in batch :: !x.id.Stable? || !x.id.tag.DispatchLabel?
    ensures TasksMean(c, w, g0, g', Merge(s, batch))
  {
    hide TaskVal, TaskAdmission, Agree, FlatIntentMeans, Merge;
    forall n | 0 <= n <= |g0.signatures| && HasTask(g0, n) ensures TaskMeans(c, w, g0, g', Merge(s, batch), n) {
      assert TaskMeans(c, w, g0, g, s, n);
      var d := DispatchId(g, TaskAt(g0, n));
      if d in s { MergeKeeps(s, batch, d); } else if d in Merge(s, batch) { MergeOrigin(s, batch, d); }
    }
  }

  lemma UnpinsAreNoDispatch(g: Graph)
    ensures forall x | x in GraphUnpins(g) :: !x.id.Stable? || !x.id.tag.DispatchLabel?
  {
    forall x | x in UnpinsOf(g, g.children) ensures !x.id.Stable? || !x.id.tag.DispatchLabel? {
      UnpinIsUnpin(g, g.children, x);
    }
  }

  lemma {:induction false} UnpinIsUnpin(g: Graph, children: seq<Envelope>, x: Intent)
    requires x in UnpinsOf(g, children)
    ensures x.id.Stable? && x.id.tag.UnpinLabel?
    decreases |children|
  {
    if x in UnpinsOf(g, children[..|children| - 1]) { UnpinIsUnpin(g, children[..|children| - 1], x); }
  }

  lemma FinishMeans(c: Client, w: World, g0: Graph, g: Graph, g1: Graph, s: Intents, state: State,
      output: Option<Value>)
    requires FlatMeans(c, w, g0, g, s) && g1 == g.(next := g1.next, failure := g1.failure) && state.Terminal()
    requires Agree(Outcome(state, output, g1.failure), FlatMean(c, w, g0))
    ensures MeansAfter(c, w, g0, s, Ok(Finish(g1, state, output)))
  {
    var (g', batch) := Finish(g1, state, output);
    hide FlatMean, TasksMean, Agree, GraphUnpins, Merge;
    UnpinsAreNoDispatch(g1);
    UnpinsMean(c, w, g0, g, g', s, batch);
  }

  /** Handing out one task keeps the agreement when its intent matches its admission. */
  lemma StartMeans(c: Client, w: World, g0: Graph, g: Graph, g': Graph, s: Intents, x: Intent, n: nat)
    requires FlatMeans(c, w, g0, g, s) && HasTask(g0, n) && SameFlat(g, g') && g'.members == g.members &&
             !g'.state.Terminal()
    requires x.id == DispatchId(g, TaskAt(g0, n)) && FlatIntentMeans(x, TaskAdmission(c, w, g0, n))
    ensures MeansAfter(c, w, g0, s, Ok((g', [x])))
  {
    hide TaskVal, TaskAdmission, Agree, FlatIntentMeans, FlatMean, Merge;
    SameFlatTrans(g0, g, g');
    assert [] + [x] == [x];
    MergeEmpty(s);
    MergeSnoc(s, [], x);
    forall k | 0 <= k <= |g0.signatures| && HasTask(g0, k) ensures TaskMeans(c, w, g0, g', Merge(s, [x]), k) {
      assert TaskMeans(c, w, g0, g, s, k);
      assert TaskAt(g0, k) == TaskAt(g0, n) ==> k == n;
    }
  }

  // ---- the chain machine ----

  /** A chain whose task `n` does not succeed does not succeed. */
  lemma {:induction false} ChainFails(c: Client, w: World, g: Graph, n: nat, m: nat)
    requires g.kind.Chain? && n <= m < |g.signatures| && TaskVal(c, w, g, n).state != Succeeded
    ensures TaskVal(c, w, g, m).state != Succeeded
    decreases m
  {
    if n < m { ChainFails(c, w, g, n, m - 1); }
  }

  lemma NextAdmission(c: Client, w: World, g0: Graph, g: Graph, completed: Outcome)
    requires g0.kind.Chain? && g.next + 1 < |g0.signatures| && Agree(completed, TaskVal(c, w, g0, g.next)) &&
             completed.state == Succeeded
    ensures TaskAdmission(c, w, g0, g.next + 1) == Admit(c, w, g0.signatures[g.next + 1], Some(completed), g.next + 1)
  {
    AgreeAdmits(c, w, g0.signatures[g.next + 1], completed, TaskVal(c, w, g0, g.next), g.next + 1);
  }

  /** The current child's outcome agrees with its meaning, and the last child's meaning is the chain's. */
  lemma CurrentMeans(c: Client, w: World, g0: Graph, g: Graph, s: Intents)
    requires FlatMeans(c, w, g0, g, s) && g.kind.Chain? && g.next < |g.signatures| && ChildId(g.id, g.next) in g.members
    ensures SameFlat(g0, g) && Agree(g.members[ChildId(g.id, g.next)].outcome, TaskVal(c, w, g0, g.next))
    ensures FlatMean(c, w, g0) == TaskVal(c, w, g0, |g0.signatures| - 1)
  {
    assert TaskMeans(c, w, g0, g, s, g.next);
  }

  lemma ChainStepMeans(c: Client, w: World, g0: Graph, g: Graph, s: Intents)
    requires FlatMeans(c, w, g0, g, s) && FlatWorldOf(c, w, g0) && g.kind.Chain? && !g.state.Terminal()
    requires g.next < |g.children| && |g.signatures| == |g.children| && g.children[g.next].id == ChildId(g.id, g.next)
    requires g.next + 1 < |g.children| ==>
               g.children[g.next + 1].id == ChildId(g.id, g.next + 1) && c.known(g.signatures[g.next + 1].task)
    requires ChildId(g.id, g.next) in g.members
    ensures MeansAfter(c, w, g0, s, AdvanceChain(c, g))
  {
    hide MeansAfter, FlatMeans, BindArgs, BindFails, Finish, StartChild, FlatWorldOf;
    if g.members[ChildId(g.id, g.next)].outcome.state != Succeeded || g.next + 1 == |g.children| {
      ChainLastMeans(c, w, g0, g, s);
    } else {
      ChainNextMeans(c, w, g0, g, s);
    }
  }

  lemma ChainLastMeans(c: Client, w: World, g0: Graph, g: Graph, s: Intents)
    requires FlatMeans(c, w, g0, g, s) && g.kind.Chain? && g.next < |g.signatures| && ChildId(g.id, g.next) in g.members
    ensures var completed := g.members[ChildId(g.id, g.next)].outcome;
            (completed.state != Succeeded ==>
              MeansAfter(c, w, g0, s, Ok(Finish(g.(failure := Some(ChainFailed)), Failed, None)))) &&
            (completed.state == Succeeded && g.next + 1 == |g.signatures| ==>
              MeansAfter(c, w, g0, s, Ok(Finish(g.(next := g.next + 1), Succeeded, completed.output))))
  {
    hide MeansAfter, TaskVal, FlatMeans, FlatMean, Merge, Finish, SameFlat;
    CurrentMeans(c, w, g0, g, s);
    SameSignatures(g0, g);
    var completed := g.members[ChildId(g.id, g.next)].outcome;
    if completed.state != Succeeded {
      ChainFails(c, w, g0, g.next, |g.signatures| - 1);
      FinishMeans(c, w, g0, g, g.(failure := Some(ChainFailed)), s, Failed, None);
    } else if g.next + 1 == |g.signatures| {
      FinishMeans(c, w, g0, g, g.(next := g.next + 1), s, Succeeded, completed.output);
    }
  }

  lemma SameSignatures(g0: Graph, g: Graph)
    requires SameFlat(g0, g)
    ensures g0.signatures == g.signatures && g0.kind == g.kind
  {
  }

  lemma ChainNextMeans(c: Client, w: World, g0: Graph, g: Graph, s: Intents)
    requires FlatMeans(c, w, g0, g, s) && FlatWorldOf(c, w, g0) && g.kind.Chain? && !g.state.Terminal()
    requires g.next + 1 < |g.children| == |g.signatures|
    requires g.children[g.next + 1].id == ChildId(g.id, g.next + 1) && c.known(g.signatures[g.next + 1].task)
    requires ChildId(g.id, g.next) in g.members && g.members[ChildId(g.id, g.next)].outcome.state == Succeeded
    ensures var g1, completed := g.(next := g.next + 1), g.members[ChildId(g.id, g.next)].outcome;
            MeansAfter(c, w, g0, s,
              if BindFails(c, g.signatures[g1.next], completed.output)
              then Ok(Finish(g1.(failure := Some(ChainInput)), Failed, None))
              else StartChild(c, g1, BindArgs(c, g.signatures[g1.next], completed.output)))
  {
    hide MeansAfter, TaskVal, FlatMeans, FlatMean, Merge, BindArgs, BindFails, Finish, StartChild, FlatWorldOf,
           TaskAdmission, Admit, SameFlat;
    CurrentMeans(c, w, g0, g, s);
    SameSignatures(g0, g);
    var completed := g.members[ChildId(g.id, g.next)].outcome;
    NextAdmission(c, w, g0, g, completed);
    if BindFails(c, g.signatures[g.next + 1], completed.output) {
      RefusedFails(c, w, g0, g.next + 1, completed);
      ChainFails(c, w, g0, g.next + 1, |g.signatures| - 1);
      FinishMeans(c, w, g0, g, g.(next := g.next + 1, failure := Some(ChainInput)), s, Failed, None);
    } else {
      StartChildMeans(c, w, g0, g, s, completed);
    }
  }

  lemma FlatMeansSame(c: Client, w: World, g0: Graph, g: Graph, s: Intents)
    requires FlatMeans(c, w, g0, g, s)
    ensures SameFlat(g0, g)
  {
  }

  lemma RefusedFails(c: Client, w: World, g0: Graph, n: nat, completed: Outcome)
    requires n < |g0.signatures| && completed.state == Succeeded && BindFails(c, g0.signatures[n], completed.output)
    requires TaskAdmission(c, w, g0, n) == Admit(c, w, g0.signatures[n], Some(completed), n)
    ensures TaskVal(c, w, g0, n).state != Succeeded
  {
  }

  lemma StartChildMeans(c: Client, w: World, g0: Graph, g: Graph, s: Intents, completed: Outcome)
    requires FlatMeans(c, w, g0, g, s) && FlatWorldOf(c, w, g0) && g.kind.Chain? && !g.state.Terminal()
    requires g.next + 1 < |g.children| == |g.signatures| && completed.state == Succeeded
    requires g.children[g.next + 1].id == ChildId(g.id, g.next + 1) && c.known(g.signatures[g.next + 1].task)
    requires TaskAdmission(c, w, g0, g.next + 1) == Admit(c, w, g0.signatures[g.next + 1], Some(completed), g.next + 1)
    ensures var r := StartChild(c, g.(next := g.next + 1), BindArgs(c, g.signatures[g.next + 1], completed.output));
            MeansAfter(c, w, g0, s, r)
  {
    var n := g.next + 1;
    var sig, child, args := g.signatures[n], g.children[n], BindArgs(c, g.signatures[n], completed.output);
    StartChildAdmission(c, w, g0, g, n, completed);
    FlatMeansSame(c, w, g0, g, s);
    hide FlatMeans, FlatWorldOf, TaskAdmission, Admit, Merge, BindArgs;
    if args.None? || !c.validate(sig.task, args.value) || !c.admits(child.(args := args.value)) {
      StartMeans(c, w, g0, g, g.(next := n), s, FailIntent(g.id, child, None, None), n);
    } else {
      var e := child.(args := args.value);
      StartMeans(c, w, g0, g, g.(next := n, children := g.children[n := e]), s, DispatchIntent(g.id, e), n);
    }
  }

  /** The flat machine's checks decide exactly as the meaning's admission. */
  lemma StartChildAdmission(c: Client, w: World, g0: Graph, g: Graph, n: nat, completed: Outcome)
    requires SameFlat(g0, g) && FlatWorldOf(c, w, g0) && n < |g.children| == |g.signatures| &&
             c.known(g.signatures[n].task)
    requires completed.state == Succeeded
    ensures var sig, args := g.signatures[n], BindArgs(c, g.signatures[n], completed.output);
            Admit(c, w, sig, Some(completed), n) ==
              if args.None? || !c.validate(sig.task, args.value) || !c.admits(g.children[n].(args := args.value))
              then Refused(WorkflowInput) else Admitted(args.value)
  {
    var args := BindArgs(c, g.signatures[n], completed.output);
    if args.Some? { assert g.children[n].(args := args.value) == g0.children[n].(args := args.value); }
  }

  // ---- the barrier machine ----

  /** A fully recorded header agrees with the meaning's barrier. */
  lemma BarrierMeans(c: Client, w: World, g0: Graph, g: Graph, s: Intents)
    requires FlatMeans(c, w, g0, g, s) && |g.signatures| == |g.children|
    requires forall n | 0 <= n < |g.children| :: g.children[n].id == ChildId(g.id, n)
    requires AllRecorded(ChildIds(g.children), g.members)
    ensures AllSucceeded(ChildIds(g.children), g.members) <==> Gather(Header(c, w, g0), None).state == Succeeded
    ensures AllSucceeded(ChildIds(g.children), g.members) ==>
              Gather(Header(c, w, g0), None).output == Some(MarshalList(OutputsOf(ChildIds(g.children), g.members)))
  {
    var ids, header := ChildIds(g.children), Header(c, w, g0);
    forall n | 0 <= n < |ids| ensures Agree(g.members[ids[n]].outcome, header[n]) {
      assert TaskMeans(c, w, g0, g, s, n);
    }
    hide TaskVal, FlatMeans;
    if AllSucceeded(ids, g.members) {
      forall n | 0 <= n < |ids| ensures header[n].state == Succeeded { assert ids[n] in ids; }
      assert OutputsOf(ids, g.members) == seq(|header|, i requires 0 <= i < |header| => header[i].output);
    } else {
      var d :| d in ids && !(d in g.members && g.members[d].outcome.state == Succeeded);
      var n :| 0 <= n < |ids| && ids[n] == d;
      assert header[n].state != Succeeded;
    }
  }

  lemma BarrierStepMeans(c: Client, w: World, g0: Graph, g: Graph, s: Intents)
    requires FlatMeans(c, w, g0, g, s) && FlatWorldOf(c, w, g0) && FlatCore(c, g, s) && !g.kind.Chain? &&
             !g.state.Terminal()
    ensures MeansAfter(c, w, g0, s, AdvanceBarrier(c, g))
  {
    FlatMeansSame(c, w, g0, g, s);
    BarrierFacts(c, g, s);
    MergeEmpty(s);
    if g.callbackClaimed {
      if BodyId(g.id) in g.members { BodyEndMeans(c, w, g0, g, s); }
    } else if AllRecorded(ChildIds(g.children), g.members) {
      HeaderEndMeans(c, w, g0, g, s);
    }
  }

  lemma BarrierFacts(c: Client, g: Graph, s: Intents)
    requires FlatCore(c, g, s) && !g.kind.Chain?
    ensures !g.kind.Dag? && |g.signatures| == |g.children| &&
            forall n | 0 <= n < |g.children| :: g.children[n].id == ChildId(g.id, n)
    ensures g.callbackClaimed ==> g.kind.Chord? && g.callbackId == Some(BodyId(g.id))
    ensures g.kind.Chord? ==> g.callback.Some? && g.callbackId == Some(BodyId(g.id))
    ensures BodyId(g.id) in g.members ==> g.members[BodyId(g.id)].outcome.state.Terminal()
  {
  }

  lemma BodyEndMeans(c: Client, w: World, g0: Graph, g: Graph, s: Intents)
    requires FlatMeans(c, w, g0, g, s) && g.kind.Chord? && g.callback.Some? && BodyId(g.id) in g.members
    requires g.callbackClaimed && g.callbackId == Some(BodyId(g.id)) && g.members[BodyId(g.id)].outcome.state.Terminal()
    ensures MeansAfter(c, w, g0, s, AdvanceBarrier(c, g))
  {
    var n := |g.signatures|;
    assert TaskMeans(c, w, g0, g, s, n);
    hide TaskVal, FlatMeans, Finish, Merge;
    var body := g.members[BodyId(g.id)].outcome;
    FinishMeans(c, w, g0, g, if body.state != Succeeded then g.(failure := body.failure) else g, s, body.state,
      body.output);
  }

  lemma HeaderEndMeans(c: Client, w: World, g0: Graph, g: Graph, s: Intents)
    requires FlatMeans(c, w, g0, g, s) && FlatWorldOf(c, w, g0) && FlatCore(c, g, s) && !g.kind.Chain? &&
             !g.state.Terminal()
    requires !g.callbackClaimed && AllRecorded(ChildIds(g.children), g.members)
    ensures MeansAfter(c, w, g0, s, AdvanceBarrier(c, g))
  {
    FlatMeansSame(c, w, g0, g, s);
    BarrierFacts(c, g, s);
    BarrierMeans(c, w, g0, g, s);
    FlatMeanOfBarrier(c, w, g0);
    hide FlatCore, FlatMeans, FlatMean, FlatWorldOf, Merge, Finish, StartBody, AllSucceeded, OutputsOf, Gather,
           MarshalList, Header;
    if !AllSucceeded(ChildIds(g.children), g.members) {
      FinishMeans(c, w, g0, g, g.(failure := Some(GroupFailed)), s, Failed, None);
    } else {
      var combined := MarshalList(OutputsOf(ChildIds(g.children), g.members));
      if g.kind.Group? {
        FinishMeans(c, w, g0, g, g, s, Succeeded, Some(combined));
      } else {
        StartBodyMeans(c, w, g0, g, s, combined);
      }
    }
  }

  lemma FlatMeanOfBarrier(c: Client, w: World, g: Graph)
    requires g.kind.Group? || (g.kind.Chord? && g.callback.Some?)
    ensures g.kind.Group? ==> FlatMean(c, w, g) == Gather(Header(c, w, g), None)
    ensures g.kind.Chord? ==> TaskInput(c, w, g, |g.signatures|) == Some(Gather(Header(c, w, g), None))
    ensures g.kind.Chord? && Gather(Header(c, w, g), None).state != Succeeded ==> FlatMean(c, w, g).state != Succeeded
  {
    if g.kind.Chord? {
      var n := |g.signatures|;
      assert seq(n, i requires 0 <= i < n => TaskVal(c, w, g, i)) == Header(c, w, g);
    }
  }

  lemma StartBodyMeans(c: Client, w: World, g0: Graph, g: Graph, s: Intents, combined: Value)
    requires FlatMeans(c, w, g0, g, s) && FlatWorldOf(c, w, g0) && !g.state.Terminal() && !g.callbackClaimed
    requires g.kind.Chord? && g.callback.Some? && g.callbackId == Some(BodyId(g.id))
    requires TaskInput(c, w, g0, |g0.signatures|).Some?
    requires var input := TaskInput(c, w, g0, |g0.signatures|).value;
             input.state == Succeeded && input.output == Some(combined)
    ensures var r := StartBody(c, g, combined); MeansAfter(c, w, g0, s, r)
  {
    var n := |g.signatures|;
    FlatMeansSame(c, w, g0, g, s);
    BodyAdmission(c, w, g0, combined);
    hide FlatMeans, FlatWorldOf, TaskInput, Admit, Merge, BindArgs, Finish;
    var sig := g.callback.value;
    var args := BindArgs(c, sig, Some(combined));
    var prepared := if args.None? then None else Prepare(c, sig.(args := args.value), g.callbackId.value);
    if prepared.None? {
      FinishMeans(c, w, g0, g, g.(failure := Some(ChordInput)), s, Failed, None);
    } else {
      var e := prepared.value.(workflow := Some(g.id), root := Some(g.id), parent := Some(g.id));
      StartMeans(c, w, g0, g, g.(callbackClaimed := true, callbackEnvelope := Some(e)), s, DispatchIntent(g.id, e), n);
    }
  }

  lemma BodyAdmission(c: Client, w: World, g: Graph, combined: Value)
    requires FlatWorldOf(c, w, g) && g.kind.Chord? && TaskInput(c, w, g, |g.signatures|).Some?
    requires var input := TaskInput(c, w, g, |g.signatures|).value;
             input.state == Succeeded && input.output == Some(combined)
    ensures var args := BindArgs(c, g.callback.value, Some(combined));
            TaskAdmission(c, w, g, |g.signatures|) ==
              if args.None? ||
                 Prepare(c, g.callback.value.(args := args.value),
                   BodyId(g.id)).None? then Refused(WorkflowInput) else Admitted(args.value)
  {
    hide TaskInput;
  }

  // ---- one whole advance ----

  lemma FlatAbortStays(c: Client, g: Graph)
    requires !g.kind.Dag? && AdvanceSpec(c, g).Ok? && AdvanceSpec(c, g).value.0.abortFailure.None?
    ensures AdvanceGraphSpec(c, g).Ok? && AdvanceMode(c, g) == AdvanceGraphSpec(c, g)
  {
    hide AdvanceGraphSpec, AbortChildren, GraphUnpins;
  }

  lemma FlatGraphKeepsAbort(c: Client, g: Graph)
    requires !g.kind.Dag? && AdvanceGraphSpec(c, g).Ok?
    ensures AdvanceGraphSpec(c, g).value.0.abortFailure == g.abortFailure
  {
    hide GraphUnpins, CancelChildren, BindArgs, Prepare, AllRecorded, AllSucceeded, OutputsOf;
  }

  lemma FlatModeMeans(c: Client, w: World, g0: Graph, g: Graph, s: Intents)
    requires FlatMeans(c, w, g0, g, s) && FlatWorldOf(c, w, g0) && FlatCore(c, g, s) && Normal(g)
    ensures MeansAfter(c, w, g0, s, AdvanceGraphSpec(c, g))
  {
    assert FlatStatic(c, g);
    if g.state.Terminal() {
      UnpinsAreNoDispatch(g);
      UnpinsMean(c, w, g0, g, g, s, GraphUnpins(g));
    } else if g.kind.Chain? {
      ChainFacts(c, g, s);
      hide FlatCore, FlatMeans, FlatWorldOf, Merge;
      if ChildId(g.id, g.next) in g.members { ChainStepMeans(c, w, g0, g, s); } else { MergeEmpty(s); }
    } else {
      hide FlatCore, FlatMeans, FlatWorldOf, Merge;
      BarrierStepMeans(c, w, g0, g, s);
    }
  }

  /** An advance that ends in the normal mode keeps everything stored in agreement with the meaning. */
  lemma FlatAdvanceKeepsMeaning(c: Client, w: World, g0: Graph, g: Graph, s: Intents)
    requires FlatCore(c, g, s) && FlatWorldOf(c, w, g0) && (Normal(g) ==> FlatMeans(c, w, g0, g, s))
    requires AdvanceSpec(c, g).Ok? && Normal(AdvanceSpec(c, g).value.0)
    ensures FlatMeans(c, w, g0, AdvanceSpec(c, g).value.0, Merge(s, AdvanceSpec(c, g).value.1))
  {
    assert FlatStatic(c, g);
    FlatAdvanceKeepsInvariant(c, g, s);
    assert AdvanceSpec(c, g).value.0.cancelRequested == g.cancelRequested;
    FlatAbortStays(c, g);
    FlatGraphKeepsAbort(c, g);
    FlatModeMeans(c, w, g0, g, s);
    var (next, batch) := AdvanceGraphSpec(c, g).value;
    var extra := ReplacementCompletionIntents(next);
    hide FlatCore, FlatWorldOf, AdvanceGraphSpec, TasksMean, Merge, SettledMean, OverBudget;
    MergeAppend(s, batch, extra);
    UnpinsMean(c, w, g0, next, next, Merge(s, batch), extra);
  }
}
