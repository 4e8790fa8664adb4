/** One whole advance of a chain, group or chord, in every mode. */
module FlatAdvance {
  import opened Protocol
  import opened Plans
  import opened Nested
  import opened Engine
  import opened IntentHash
  import opened Flat
  import opened DagInvariant
  import opened DagMeaning
  import opened FlatInvariant

  /** What one advance of a stored flat graph guarantees. */
  predicate FlatAdvanceOk(c: Client, g: Graph, s: Intents, r: Advanced) {
    r.Ok? && FlatCore(c, r.value.0, Merge(s, r.value.1)) && SameFlat(g, r.value.0) &&
    FlatLive(r.value.0, Merge(s, r.value.1)) &&
    AllOut(r.value.0, Merge(s, r.value.1)) &&
    MembersKept(g.members, r.value.0.members) && r.value.0.cancelRequested == g.cancelRequested &&
    (g.state.Terminal() ==> r.value.0.state.Terminal())
  }

  lemma UnchangedOk(c: Client, g: Graph, s: Intents)
    requires FlatCore(c, g, s) && FlatLive(g, s) && Normal(g)
    ensures FlatAdvanceOk(c, g, s, Ok((g, [])))
  {
    hide FlatCore, FlatLive;
    MergeEmpty(s);
  }

  /** Settling, possibly with the chain's cursor already moved on. */
  lemma FinishOk(c: Client, g: Graph, s: Intents, g1: Graph, state: State, output: Option<Value>)
    requires FlatCore(c, g, s) && state.Terminal() && g1 == g.(next := g1.next, failure := g1.failure) &&
             g.next <= g1.next && (g.kind.Chain? ==> g1.next <= |g.children|)
    ensures FlatAdvanceOk(c, g, s, Ok(Finish(g1, state, output)))
  {
    var (g', batch) := Finish(g1, state, output);
    FinishCore(c, g, s, g');
    hide FlatCore, Merge, UnpinsOf;
    SameUnpins(g1, g', g.children);
    FlatUnpinsKeepCore(c, g', s);
  }

  lemma FinishCore(c: Client, g: Graph, s: Intents, g': Graph)
    requires FlatCore(c, g, s) && g'.state.Terminal() &&
             g' == g.(next := g'.next, failure := g'.failure, state := g'.state, output := g'.output)
    requires g.next <= g'.next && (g.kind.Chain? ==> g'.next <= |g.children|)
    ensures FlatCore(c, g', s)
  {
    forall n | 0 <= n < |g'.children| ensures ChildInv(g', s, n) { assert ChildInv(g, s, n); }
    FlatIntentsFrame(g, g', s);
    MovedMembers(c, g, g');
  }

  lemma MovedMembers(c: Client, g: Graph, g': Graph)
    requires FlatStatic(c, g) && FlatMembersOk(g)
    requires g' == g.(next := g'.next, failure := g'.failure, state := g'.state, output := g'.output) && StateOk(g')
    ensures FlatStatic(c, g') && FlatMembersOk(g')
  {
    forall id | id in g'.members ensures IsFlatTask(g', id) {
      assert IsFlatTask(g, id);
      if IsChild(g, id) {
        var n :| 0 <= n < |g.children| && ChildId(g.id, n) == id;
        assert ChildId(g'.id, n) == id;
      }
    }
  }

  /** Moving the chain to its next child and handing that child out. */
  predicate ChildStart(g: Graph, g': Graph, x: Intent) {
    g.next + 1 < |g.children| && |g'.children| == |g.children| &&
    g' == g.(next := g.next + 1, children := g'.children) &&
    (forall n | 0 <= n < |g.children| :: g'.children[n] == g.children[n].(args := g'.children[n].args)) &&
    x.id == DispatchId(g, ChildId(g.id, g.next + 1)) && x.source == g.id &&
    (x.payload.Publish? || x.payload.Fail?) && x.payload.envelope.id == ChildId(g.id, g.next + 1) &&
    Owned(g, x.payload.envelope)
  }

  lemma ChildStartStatic(c: Client, g: Graph, g': Graph, x: Intent)
    requires FlatStatic(c, g) && FlatMembersOk(g) && ChildStart(g, g', x)
    ensures FlatStatic(c, g') && FlatMembersOk(g') && SameFlat(g, g')
  {
    forall id | id in g'.members ensures IsFlatTask(g', id) {
      assert IsFlatTask(g, id);
      if IsChild(g, id) {
        var n :| 0 <= n < |g.children| && ChildId(g.id, n) == id;
        assert ChildId(g'.id, n) == id;
      }
    }
  }

  lemma ChildStartIntents(g: Graph, s: Intents, g': Graph, x: Intent)
    requires FlatIntentsOk(g, s) && ChildStart(g, g', x)
    ensures FlatIntentsOk(g', s[x.id := x])
  {
    FlatIntentsFrame(g, g', s);
    assert IsChild(g', x.payload.envelope.id) by { assert ChildId(g'.id, g.next + 1) == x.payload.envelope.id; }
  }

  lemma ChildStartInv(g: Graph, s: Intents, g': Graph, x: Intent, n: nat)
    requires Normal(g) && !g.state.Terminal() && g.kind.Chain? && SucceededMember(g, ChildId(g.id, g.next)) &&
             ChildStart(g, g', x)
    requires n < |g.children| && ChildInv(g, s, n) && x.id !in s
    ensures ChildInv(g', s[x.id := x], n)
  {
  }

  lemma ChildStartCore(c: Client, g: Graph, s: Intents, g': Graph, x: Intent)
    requires FlatCore(c, g, s) && Normal(g) && !g.state.Terminal() && g.kind.Chain? && g.next < |g.children|
    requires SucceededMember(g, ChildId(g.id, g.next)) && ChildStart(g, g', x)
    ensures x.id !in s && FlatCore(c, g', s[x.id := x]) && SameFlat(g, g') && ChildId(g.id, g.next + 1) !in g.members
  {
    ChildStartFresh(c, g, s, g', x);
    ChildStartStatic(c, g, g', x);
    ChildStartIntents(g, s, g', x);
    var s' := s[x.id := x];
    hide FlatStatic, FlatMembersOk, FlatIntentsOk, ChildInv, ChainInv, BodyInv, SameFlat, ChildStart;
    forall n | 0 <= n < |g'.children| ensures ChildInv(g', s', n) { ChildStartInv(g, s, g', x, n); }
  }

  lemma ChildStartFresh(c: Client, g: Graph, s: Intents, g': Graph, x: Intent)
    requires FlatCore(c, g, s) && Normal(g) && !g.state.Terminal() && g.kind.Chain? && g.next < |g.children|
    requires SucceededMember(g, ChildId(g.id, g.next)) && ChildStart(g, g', x)
    ensures x.id !in s && ChildId(g.id, g.next + 1) !in g.members && ChainInv(g') && BodyInv(g', s[x.id := x])
  {
    hide FlatStatic, FlatMembersOk, FlatIntentsOk, ChildInv, BodyInv, ChainInv, SucceededMember;
    assert ChildInv(g, s, g.next + 1);
    NextChildFresh(g, s);
    ChildStartBody(g, s, g', x);
    ChildStartChain(g, g', x);
  }

  lemma ChildStartChain(g: Graph, g': Graph, x: Intent)
    requires ChainInv(g) && ChildStart(g, g', x) && SucceededMember(g, ChildId(g.id, g.next))
    ensures ChainInv(g')
  {
    forall n | 0 <= n < g'.next && g.kind.Chain? && !g.state.Terminal() ensures SucceededMember(g', ChildId(g'.id, n)) {
      assert n < g.next ==> SucceededMember(g, ChildId(g.id, n));
    }
  }

  lemma NextChildFresh(g: Graph, s: Intents)
    requires g.kind.Chain? && Normal(g) && ChildInv(g, s, g.next + 1)
    ensures DispatchId(g, ChildId(g.id, g.next + 1)) !in s && ChildId(g.id, g.next + 1) !in g.members
  {
  }

  lemma ChildStartBody(g: Graph, s: Intents, g': Graph, x: Intent)
    requires BodyInv(g, s) && ChildStart(g, g', x) && x.id !in s
    ensures BodyInv(g', s[x.id := x])
  {
  }

  lemma ChildStartOk(c: Client, g: Graph, s: Intents, g': Graph, x: Intent)
    requires FlatCore(c, g, s) && Normal(g) && !g.state.Terminal() && g.kind.Chain? && g.next < |g.children|
    requires SucceededMember(g, ChildId(g.id, g.next)) && ChildStart(g, g', x)
    ensures FlatAdvanceOk(c, g, s, Ok((g', [x])))
  {
    hide FlatCore, SameFlat, Merge;
    ChildStartCore(c, g, s, g', x);
    assert [] + [x] == [x];
    MergeEmpty(s);
    MergeSnoc(s, [], x);
    assert HandedOut(g', s[x.id := x], ChildId(g'.id, g'.next)) && ChildId(g'.id, g'.next) !in g'.members;
  }

  lemma ChainAdvanceOk(c: Client, g: Graph, s: Intents)
    requires FlatCore(c, g, s) && Normal(g) && !g.state.Terminal() && g.kind.Chain?
    ensures FlatAdvanceOk(c, g, s, AdvanceFlat(c, g))
  {
    ChainFacts(c, g, s);
    hide FlatCore, FlatAdvanceOk, FlatLive;
    if ChildId(g.id, g.next) !in g.members {
      UnchangedOk(c, g, s);
    } else {
      ChainStepOk(c, g, s);
    }
  }

  lemma ChainStepOk(c: Client, g: Graph, s: Intents)
    requires FlatCore(c, g, s) && Normal(g) && !g.state.Terminal() && g.kind.Chain?
    requires g.next < |g.children| && |g.signatures| == |g.children| && g.children[g.next].id == ChildId(g.id, g.next)
    requires ChildId(g.id, g.next) in g.members
    ensures FlatAdvanceOk(c, g, s, AdvanceChain(c, g))
  {
    hide FlatCore, FlatAdvanceOk, BindArgs, BindFails, Finish, StartChild;
    var completed := g.members[ChildId(g.id, g.next)].outcome;
    if completed.state != Succeeded {
      FinishOk(c, g, s, g.(failure := Some(ChainFailed)), Failed, None);
    } else if g.next + 1 == |g.children| {
      FinishOk(c, g, s, g.(next := g.next + 1), Succeeded, completed.output);
    } else if BindFails(c, g.signatures[g.next + 1], completed.output) {
      FinishOk(c, g, s, g.(next := g.next + 1, failure := Some(ChainInput)), Failed, None);
    } else {
      StartChildOk(c, g, s, BindArgs(c, g.signatures[g.next + 1], completed.output));
    }
  }

  lemma ChainFacts(c: Client, g: Graph, s: Intents)
    requires FlatCore(c, g, s) && !g.state.Terminal() && g.kind.Chain?
    ensures g.next < |g.children| && g.children[g.next].id == ChildId(g.id, g.next) && |g.signatures| == |g.children|
    ensures ChildId(g.id, g.next) !in g.members ==> FlatLive(g, s)
  {
    ChildOut(c, g, s, g.next);
  }

  lemma ChildAt(c: Client, g: Graph, s: Intents, n: nat)
    requires FlatCore(c, g, s) && n < |g.children|
    ensures |g.signatures| == |g.children| && c.known(g.signatures[n].task) && g.children[n].id == ChildId(g.id, n) &&
            Owned(g, g.children[n])
  {
  }

  lemma StartChildOk(c: Client, g: Graph, s: Intents, args: Option<Value>)
    requires FlatCore(c, g, s) && Normal(g) && !g.state.Terminal() && g.kind.Chain? && g.next + 1 < |g.children| &&
             |g.signatures| == |g.children|
    requires SucceededMember(g, ChildId(g.id, g.next))
    ensures FlatAdvanceOk(c, g, s, StartChild(c, g.(next := g.next + 1), args))
  {
    hide FlatCore, FlatAdvanceOk, SucceededMember, ChildStart;
    ChildAt(c, g, s, g.next + 1);
    var n, child := g.next + 1, g.children[g.next + 1];
    if args.None? || !c.validate(g.signatures[n].task, args.value) || !c.admits(child.(args := args.value)) {
      FailStart(g);
      ChildStartOk(c, g, s, g.(next := n), FailIntent(g.id, child, None, None));
    } else {
      DispatchStart(g, args.value);
      var e := child.(args := args.value);
      ChildStartOk(c, g, s, g.(next := n, children := g.children[n := e]), DispatchIntent(g.id, e));
    }
  }

  lemma FailStart(g: Graph)
    requires g.next + 1 < |g.children| && g.children[g.next + 1].id == ChildId(g.id, g.next + 1) &&
             Owned(g, g.children[g.next + 1])
    ensures ChildStart(g, g.(next := g.next + 1), FailIntent(g.id, g.children[g.next + 1], None, None))
  {
  }

  lemma DispatchStart(g: Graph, args: Value)
    requires g.next + 1 < |g.children| && g.children[g.next + 1].id == ChildId(g.id, g.next + 1) &&
             Owned(g, g.children[g.next + 1])
    ensures var n, e := g.next + 1, g.children[g.next + 1].(args := args);
            ChildStart(g, g.(next := n, children := g.children[n := e]), DispatchIntent(g.id, e))
  {
  }

  lemma ChildOut(c: Client, g: Graph, s: Intents, n: nat)
    requires FlatCore(c, g, s) && n < |g.children| && !g.state.Terminal() && FlatDispatched(g, n)
    ensures HandedOut(g, s, ChildId(g.id, n))
  {
    assert ChildInv(g, s, n);
  }

  lemma BodyStartOk(c: Client, g: Graph, s: Intents, e: Envelope)
    requires FlatCore(c, g, s) && Normal(g) && g.kind.Chord? && !g.callbackClaimed && BodyOf(g, e)
    requires AllSucceeded(ChildIds(g.children), g.members)
    ensures FlatAdvanceOk(c, g, s,
              Ok((g.(callbackClaimed := true, callbackEnvelope := Some(e)), [DispatchIntent(g.id, e)])))
  {
    var g', x := g.(callbackClaimed := true, callbackEnvelope := Some(e)), DispatchIntent(g.id, e);
    assert [] + [x] == [x];
    MergeEmpty(s);
    MergeSnoc(s, [], x);
    var s' := s[x.id := x];
    forall n | 0 <= n < |g'.children| ensures ChildInv(g', s', n) && SucceededMember(g', ChildId(g'.id, n)) {
      assert ChildInv(g, s, n);
      assert ChildIds(g.children)[n] == ChildId(g.id, n);
    }
    FlatIntentsFrame(g, g', s);
    forall id | id in g'.members ensures IsFlatTask(g', id) {
      assert IsFlatTask(g, id);
      var n :| 0 <= n < |g.children| && ChildId(g.id, n) == id;
      assert ChildId(g'.id, n) == id;
    }
  }

  lemma BarrierAdvanceOk(c: Client, g: Graph, s: Intents)
    requires FlatCore(c, g, s) && !g.state.Terminal() && !g.kind.Chain? && Normal(g)
    ensures FlatAdvanceOk(c, g, s, AdvanceFlat(c, g))
  {
    assert FlatStatic(c, g) && FlatMembersOk(g) && BodyInv(g, s);
    hide FlatCore, FlatAdvanceOk, Prepare, BindArgs, Finish, MarshalList, OutputsOf, AllSucceeded;
    if g.callbackClaimed {
      if BodyId(g.id) !in g.members { UnchangedOk(c, g, s); }
      else {
        var body := g.members[BodyId(g.id)].outcome;
        FinishOk(c, g, s, if body.state != Succeeded then g.(failure := body.failure) else g, body.state, body.output);
      }
    } else if !AllRecorded(ChildIds(g.children), g.members) {
      var n :| 0 <= n < |g.children| && ChildIds(g.children)[n] !in g.members;
      ChildOut(c, g, s, n);
      UnchangedOk(c, g, s);
    } else if !AllSucceeded(ChildIds(g.children), g.members) {
      FinishOk(c, g, s, g.(failure := Some(GroupFailed)), Failed, None);
    } else if g.kind.Group? {
      FinishOk(c, g, s, g, Succeeded, Some(MarshalList(OutputsOf(ChildIds(g.children), g.members))));
    } else {
      BodyOk(c, g, s, MarshalList(OutputsOf(ChildIds(g.children), g.members)));
    }
  }

  lemma BodyOk(c: Client, g: Graph, s: Intents, combined: Value)
    requires FlatCore(c, g, s) && Normal(g) && g.kind.Chord? && !g.callbackClaimed &&
             AllSucceeded(ChildIds(g.children), g.members)
    ensures FlatAdvanceOk(c, g, s, StartBody(c, g, combined))
  {
    assert g.callback.Some? && g.callbackId == Some(BodyId(g.id));
    hide FlatCore, FlatAdvanceOk, BindArgs, Finish, AllSucceeded;
    var sig := g.callback.value;
    var args := BindArgs(c, sig, Some(combined));
    var prepared := if args.None? then None else Prepare(c, sig.(args := args.value), g.callbackId.value);
    if prepared.None? {
      FinishOk(c, g, s, g.(failure := Some(ChordInput)), Failed, None);
    } else {
      BodyStartOk(c, g, s, prepared.value.(workflow := Some(g.id), root := Some(g.id), parent := Some(g.id)));
    }
  }

  /** A mildly changed graph with a batch that keeps the invariant is an acceptable result. */
  lemma MildOk(c: Client, g: Graph, s: Intents, g': Graph, batch: seq<Intent>)
    requires FlatCore(c, g', Merge(s, batch)) && FlatLive(g', Merge(s, batch)) && AllOut(g', Merge(s, batch)) &&
             MildChange(g, g')
    requires g'.cancelRequested == g.cancelRequested
    ensures FlatAdvanceOk(c, g, s, Ok((g', batch)))
  {
    hide FlatCore, FlatLive, Merge, AllOut;
  }

  /** What the cancelled and aborted modes use of a stored graph. */
  lemma FlatFacts(c: Client, g: Graph, s: Intents)
    requires FlatCore(c, g, s)
    ensures !g.kind.Dag? && (g.callbackClaimed ==> g.callbackEnvelope.Some? && g.callbackId == Some(BodyId(g.id)))
    ensures forall n | 0 <= n < |g.children| :: g.children[n].id == ChildId(g.id, n)
  {
  }

  lemma CanceledAdvanceOk(c: Client, g: Graph, s: Intents)
    requires FlatCore(c, g, s) && g.cancelRequested && !g.state.Terminal()
    ensures FlatAdvanceOk(c, g, s, AdvanceCanceledSpec(g))
  {
    FlatFacts(c, g, s);
    hide FlatCore, CancelChildren, Merge, GraphUnpins, HandedOut, FlatAdvanceOk, MildChange;
    var childIntents := CancelChildren(g, |g.children|);
    CancelChildrenKeepCore(c, g, s, |g.children|);
    CanceledOut(c, g, Merge(s, childIntents));
    if BodyPending(g) {
      CanceledBodyOk(c, g, s, childIntents);
    } else if AllRecorded(ChildIds(g.children), g.members) {
      CanceledDoneOk(c, g, s, childIntents);
    } else {
      var n :| 0 <= n < |g.children| && ChildIds(g.children)[n] !in g.members;
      assert g.children[n].id == ChildId(g.id, n);
      MildSame(g);
      MildOk(c, g, s, g, childIntents);
    }
  }

  lemma MildSame(g: Graph)
    ensures MildChange(g, g)
  {
  }

  lemma CanceledOut(c: Client, g: Graph, s: Intents)
    requires FlatCore(c, g, s) && !g.state.Terminal()
    requires forall n | 0 <= n < |g.children| && g.children[n].id !in g.members :: CancelId(g, g.children[n].id) in s
    ensures AllOut(g, s) &&
            forall n | 0 <= n < |g.children| && ChildId(g.id, n) !in g.members :: HandedOut(g, s, ChildId(g.id, n))
  {
    FlatFacts(c, g, s);
    forall n | 0 <= n < |g.children| && ChildId(g.id, n) !in g.members ensures HandedOut(g, s, ChildId(g.id, n)) {
      assert g.children[n].id == ChildId(g.id, n);
      CanceledChildOut(c, g, s, n);
    }
  }

  lemma CanceledBodyOk(c: Client, g: Graph, s: Intents, childIntents: seq<Intent>)
    requires FlatCore(c, g, Merge(s, childIntents)) && AllOut(g, Merge(s, childIntents)) && g.cancelRequested &&
             !g.state.Terminal() && BodyPending(g)
    requires g.callbackEnvelope.Some? && g.callbackId == Some(BodyId(g.id))
    ensures FlatAdvanceOk(c, g, s, Ok((g, childIntents + [CancellationIntent(g.id, g.callbackEnvelope.value, true)])))
  {
    var x := CancellationIntent(g.id, g.callbackEnvelope.value, true);
    hide FlatCore, Merge, FlatAdvanceOk, AllOut, MildChange;
    CancelBodyKeepsCore(c, g, Merge(s, childIntents));
    MergeAppend(s, childIntents, [x]);
    OutGrows(g, Merge(s, childIntents), [x]);
    MildSame(g);
    MildOk(c, g, s, g, childIntents + [x]);
  }

  lemma CanceledDoneOk(c: Client, g: Graph, s: Intents, childIntents: seq<Intent>)
    requires FlatCore(c, g, Merge(s, childIntents)) && g.cancelRequested && !g.state.Terminal()
    ensures FlatAdvanceOk(c, g, s,
              Ok((g.(state := Revoked, output := None, failure := Some(WorkflowRevoked)),
                childIntents + GraphUnpins(g))))
  {
    var g' := g.(state := Revoked, output := None, failure := Some(WorkflowRevoked));
    SettleOk(c, g, s, childIntents, g');
  }

  /** Settling a mildly changed graph and releasing its members. */
  lemma SettleOk(c: Client, g: Graph, s: Intents, batch: seq<Intent>, g': Graph)
    requires FlatCore(c, g, Merge(s, batch)) && MildChange(g, g') && g'.state.Terminal() &&
             g'.cancelRequested == g.cancelRequested
    ensures FlatAdvanceOk(c, g, s, Ok((g', batch + GraphUnpins(g))))
  {
    hide FlatCore, Merge, GraphUnpins, FlatAdvanceOk;
    MildKeepsCore(c, g, g', Merge(s, batch));
    UnpinsByMembers(g, g');
    FlatUnpinsKeepCore(c, g', Merge(s, batch));
    MergeAppend(s, batch, GraphUnpins(g));
    MildOk(c, g, s, g', batch + GraphUnpins(g));
  }

  lemma UnpinsByMembers(g: Graph, g': Graph)
    requires g'.id == g.id && g'.members.Keys == g.members.Keys && g'.children == g.children &&
             g'.callbackId == g.callbackId
    ensures GraphUnpins(g') == GraphUnpins(g)
  {
    SameUnpins(g, g', g.children);
  }

  lemma CanceledChildOut(c: Client, g: Graph, s: Intents, n: nat)
    requires FlatCore(c, g, s) && n < |g.children| && !g.state.Terminal() && CancelId(g, ChildId(g.id, n)) in s
    ensures HandedOut(g, s, ChildId(g.id, n))
  {
    assert ChildInv(g, s, n);
  }

  lemma ClearIsMild(g: Graph)
    requires g.abortFailure.Some?
    ensures MildChange(g, g.(members := ClearOutputs(g.members), output := None))
  {
  }

  lemma FlatAbortedAdvanceOk(c: Client, g: Graph, s: Intents)
    requires FlatCore(c, g, s) && g.abortFailure.Some?
    ensures FlatAdvanceOk(c, g, s, AdvanceAbortedSpec(g))
  {
    FlatFacts(c, g, s);
    ClearIsMild(g);
    var cleared := g.(members := ClearOutputs(g.members), output := None);
    var g' := cleared.(state := Failed, failure := g.abortFailure);
    assert MildChange(cleared, g') by { MildSame(cleared); }
    hide FlatCore, AbortChildren, Merge, GraphUnpins, HandedOut, FlatAdvanceOk, FlatLive, AllOut, MildChange,
           ClearOutputs;
    MildKeepsCore(c, g, cleared, s);
    var batch := AbortChildren(cleared, |g.children|);
    AbortChildrenKeepCore(c, cleared, s, |g.children|);
    if Finished(cleared) {
      SettleOk(c, cleared, s, batch, g');
      ClearedOk(c, g, cleared, s, Ok((g', batch + GraphUnpins(cleared))));
    } else {
      UnfinishedLive(c, cleared, Merge(s, batch));
      MildOk(c, g, s, cleared, batch);
    }
  }

  /** An acceptable result for the graph with its outputs cleared is one for the graph itself. */
  lemma ClearedOk(c: Client, g: Graph, cleared: Graph, s: Intents, r: Advanced)
    requires cleared == g.(members := ClearOutputs(g.members), output := None) && FlatAdvanceOk(c, cleared, s, r)
    ensures FlatAdvanceOk(c, g, s, r)
  {
    hide FlatCore, FlatLive, AllOut, Merge;
  }

  lemma UnfinishedLive(c: Client, g: Graph, s: Intents)
    requires FlatCore(c, g, s) && !Finished(g)
    requires forall n | 0 <= n < |g.children| && g.children[n].id !in g.members && !FlatDispatched(g, n) ::
               DispatchId(g, g.children[n].id) in s
    ensures FlatLive(g, s) && AllOut(g, s)
  {
    FlatFacts(c, g, s);
    forall n | 0 <= n < |g.children| && !g.state.Terminal() && ChildId(g.id, n) !in g.members
      ensures HandedOut(g, s, ChildId(g.id, n))
    {
      assert g.children[n].id == ChildId(g.id, n);
      AbortedChildOut(c, g, s, n);
    }
    hide FlatCore;
    if !g.state.Terminal() && !BodyPending(g) {
      var n :| 0 <= n < |g.children| && ChildIds(g.children)[n] !in g.members;
      assert g.children[n].id == ChildId(g.id, n);
    }
  }

  lemma OutGrows(g: Graph, s: Intents, extra: seq<Intent>)
    requires AllOut(g, s)
    ensures AllOut(g, Merge(s, extra))
  {
    hide Merge;
    forall n | 0 <= n < |g.children| && HandedOut(g, s, ChildId(g.id, n))
      ensures HandedOut(g, Merge(s, extra), ChildId(g.id, n))
    {
      var id := ChildId(g.id, n);
      if DispatchId(g, id) in s {
        MergeKeeps(s, extra, DispatchId(g, id));
      } else {
        MergeKeeps(s, extra, CancelId(g, id));
      }
    }
  }

  lemma AbortedChildOut(c: Client, g: Graph, s: Intents, n: nat)
    requires FlatCore(c, g, s) && n < |g.children| && !g.state.Terminal()
    requires !FlatDispatched(g, n) ==> DispatchId(g, ChildId(g.id, n)) in s
    ensures HandedOut(g, s, ChildId(g.id, n))
  {
    assert ChildInv(g, s, n);
  }

  lemma FlatTerminalOk(c: Client, g: Graph, s: Intents)
    requires FlatCore(c, g, s) && g.state.Terminal()
    ensures FlatAdvanceOk(c, g, s, Ok((g, GraphUnpins(g))))
  {
    hide FlatCore, Merge, GraphUnpins;
    FlatUnpinsKeepCore(c, g, s);
  }

  lemma FlatModeOk(c: Client, g: Graph, s: Intents)
    requires FlatCore(c, g, s)
    ensures FlatAdvanceOk(c, g, s, AdvanceMode(c, g))
  {
    assert FlatStatic(c, g);
    hide FlatCore, FlatLive, Merge, AdvanceFlat, AdvanceCanceledSpec, AdvanceAbortedSpec, GraphUnpins;
    if g.abortFailure.Some? && !g.cancelRequested {
      FlatAbortedAdvanceOk(c, g, s);
    } else if OverBudget(c, g) {
      var g' := g.(abortFailure := Some(BudgetExceeded));
      MildKeepsCore(c, g, g', s);
      FlatAbortedAdvanceOk(c, g', s);
    } else if g.state.Terminal() {
      FlatTerminalOk(c, g, s);
    } else if g.cancelRequested {
      CanceledAdvanceOk(c, g, s);
    } else if g.kind.Chain? {
      ChainAdvanceOk(c, g, s);
    } else {
      BarrierAdvanceOk(c, g, s);
    }
  }

  /** Advancing a stored flat graph never fails, keeps every invariant and leaves no stuck graph. */
  lemma FlatAdvanceKeepsInvariant(c: Client, g: Graph, s: Intents)
    requires FlatCore(c, g, s)
    ensures AdvanceSpec(c, g).Ok? && FlatAdvanceOk(c, g, s, AdvanceSpec(c, g))
  {
    FlatModeOk(c, g, s);
    hide FlatCore, Merge, AdvanceMode;
    var (next, batch) := AdvanceMode(c, g).value;
    var extra := ReplacementCompletionIntents(next);
    forall x | x in extra ensures FlatRelease(next, x) {}
    FlatReleasesKeepCore(c, next, Merge(s, batch), extra);
    MergeAppend(s, batch, extra);
    LiveGrows(next, Merge(s, batch), extra);
    OutGrows(next, Merge(s, batch), extra);
  }

  lemma LiveGrows(g: Graph, s: Intents, extra: seq<Intent>)
    requires FlatLive(g, s)
    ensures FlatLive(g, Merge(s, extra))
  {
    hide Merge;
    if !g.state.Terminal() && !(g.callbackClaimed && BodyId(g.id) !in g.members) {
      var n :| 0 <= n < |g.children| && HandedOut(g, s, ChildId(g.id, n)) && ChildId(g.id, n) !in g.members;
      var id := ChildId(g.id, n);
      if DispatchId(g, id) in s {
        MergeKeeps(s, extra, DispatchId(g, id));
      } else {
        MergeKeeps(s, extra, CancelId(g, id));
      }
      assert HandedOut(g, Merge(s, extra), id);
    }
  }
}
