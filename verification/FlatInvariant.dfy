/** What every stored chain, group and chord satisfies, in the normal, cancelled and aborted modes. */
module FlatInvariant {
  import opened Protocol
  import opened Plans
  import opened Nested
  import opened Engine
  import opened IntentHash
  import opened Flat
  import opened DagInvariant
  import opened DagMeaning

  predicate IsChild(g: Graph, id: Id) { exists n | 0 <= n < |g.children| :: ChildId(g.id, n) == id }

  predicate IsFlatTask(g: Graph, id: Id) { IsChild(g, id) || (g.callbackClaimed && g.callbackId == Some(id)) }

  /** A child carries its signature's task and the graph's scope. */
  predicate InScope(g: Graph, n: nat)
    requires n < |g.children| && n < |g.signatures|
  {
    g.children[n].task == g.signatures[n].task && g.children[n].scope == g.signatures[n].scope == g.scope
  }

  /** The prepared body of a chord. */
  predicate BodyOf(g: Graph, e: Envelope) {
    e.id == BodyId(g.id) && Owned(g, e) && g.callback.Some? && e.task == g.callback.value.task && e.scope == g.scope
  }

  predicate FlatStatic(c: Client, g: Graph) {
    !g.kind.Dag? && g.plan == [] && |g.children| <= 1000 && |g.signatures| == |g.children| &&
    (forall n | 0 <= n < |g.children| ::
      g.children[n].id == ChildId(g.id, n) && Owned(g, g.children[n]) && c.known(g.signatures[n].task) &&
      InScope(g, n)) &&
    (g.callbackId.Some? ==> g.callbackId.value == BodyId(g.id)) &&
    (g.kind.Chord? ==> g.callback.Some? && g.callbackId.Some? && g.callback.value.scope == g.scope) &&
    (!g.callbackClaimed ==> g.callbackEnvelope.None?) && StateOk(g) &&
    (g.callbackClaimed ==> g.kind.Chord? && g.callbackEnvelope.Some? && BodyOf(g, g.callbackEnvelope.value))
  }

  predicate FlatIntentOk(g: Graph, key: Id, x: Intent) {
    x.id == key && x.source == g.id &&
    match x.payload
    case Publish(e) => key == DispatchId(g, e.id) && IsFlatTask(g, e.id) && Owned(g, e)
    case Fail(e, _, _) => (key == DispatchId(g, e.id) || key == CancelId(g, e.id)) && IsChild(g, e.id) && Owned(g, e)
    case CancelTask(e) => key == CancelId(g, e.id) && IsFlatTask(g, e.id) && Owned(g, e)
    case Unpin(t) => key == UnpinId(g, t) && g.state.Terminal() && t in g.members
    case CompleteReplacement(w, t, m) =>
      key == Stable(g.id, ReplacementCompletionLabel) && g.state.Terminal() && w == g.id && g.originTask == Some(t) &&
      m.id == t && m.outcome.state.Terminal()
    case _ => false
  }

  predicate FlatIntentsOk(g: Graph, s: Intents) { forall k | k in s :: FlatIntentOk(g, k, s[k]) }

  predicate Publishes(s: Intents, key: Id) { key in s && s[key].payload.Publish? }

  predicate SucceededMember(g: Graph, id: Id) { id in g.members && g.members[id].outcome.state == Succeeded }

  /** Child `n` and the intents stored for it agree. */
  predicate ChildInv(g: Graph, s: Intents, n: nat) {
    var id := ChildId(g.id, n);
    var d, k := DispatchId(g, id), CancelId(g, id);
    (id in g.members ==> HandedOut(g, s, id)) &&
    (!g.state.Terminal() && FlatDispatched(g, n) ==> d in s) &&
    (Publishes(s, d) ==> FlatDispatched(g, n)) &&
    (Publishes(s, d) && g.kind.Chain? && n > 0 ==> SucceededMember(g, ChildId(g.id, n - 1))) &&
    (k in s && s[k].payload.Fail? ==> !Publishes(s, d)) &&
    (k in s && !s[k].payload.Fail? ==> FlatDispatched(g, n) && d in s) &&
    (k in s ==> g.cancelRequested) &&
    (Normal(g) && !FlatDispatched(g, n) ==> d !in s)
  }

  /** The chord body is claimed exactly once, after every header task succeeded. */
  predicate BodyInv(g: Graph, s: Intents) {
    var id := BodyId(g.id);
    var d, k := DispatchId(g, id), CancelId(g, id);
    if g.callbackClaimed then
      Publishes(s, d) && (forall n | 0 <= n < |g.children| :: SucceededMember(g, ChildId(g.id, n))) &&
      (k in s ==> g.cancelRequested)
    else id !in g.members && d !in s && k !in s
  }

  predicate FlatMembersOk(g: Graph) {
    forall id | id in g.members ::
      IsFlatTask(g, id) && g.members[id].id == id && g.members[id].outcome.state.Terminal()
  }

  /** An unsettled chain has a current child, and every child before it succeeded. */
  predicate ChainInv(g: Graph) {
    g.kind.Chain? ==>
      g.next <= |g.children| &&
      (!g.state.Terminal() ==>
        g.next < |g.children| && forall n | 0 <= n < g.next :: SucceededMember(g, ChildId(g.id, n)))
  }

  predicate FlatCore(c: Client, g: Graph, s: Intents) {
    FlatStatic(c, g) && FlatMembersOk(g) && ChainInv(g) && BodyInv(g, s) &&
    (forall n | 0 <= n < |g.children| :: ChildInv(g, s, n)) && FlatIntentsOk(g, s)
  }

  /** In a graph that is not settled, some handed-out task has no recorded member. */
  predicate FlatLive(g: Graph, s: Intents) {
    !g.state.Terminal() ==>
      (exists n | 0 <= n < |g.children| :: HandedOut(g, s, ChildId(g.id, n)) && ChildId(g.id, n) !in g.members) ||
      (g.callbackClaimed && BodyId(g.id) !in g.members)
  }

  /** In a cancelled or aborted graph that is not settled, every child is recorded or handed out. */
  predicate AllOut(g: Graph, s: Intents) {
    !g.state.Terminal() && !Normal(g) ==>
      forall n | 0 <= n < |g.children| :: ChildId(g.id, n) in g.members || HandedOut(g, s, ChildId(g.id, n))
  }

  /** What stays fixed over a flat graph's life. */
  predicate SameFlat(g: Graph, g': Graph) {
    g'.id == g.id && g'.kind == g.kind && g'.scope == g.scope && g'.signatures == g.signatures &&
    g'.callback == g.callback && g'.callbackId == g.callbackId && g'.plan == g.plan &&
    g'.originTask == g.originTask && |g'.children| == |g.children| &&
    (forall n | 0 <= n < |g.children| :: g'.children[n] == g.children[n].(args := g'.children[n].args)) &&
    (g.callbackClaimed ==> g'.callbackClaimed && g'.callbackEnvelope == g.callbackEnvelope)
  }

  lemma SameFlatTrans(a: Graph, b: Graph, d: Graph)
    requires SameFlat(a, b) && SameFlat(b, d)
    ensures SameFlat(a, d)
  {
  }

  // ---- frames ----

  lemma FlatIntentsFrame(g: Graph, g': Graph, s: Intents)
    requires FlatIntentsOk(g, s) && g'.id == g.id && |g'.children| == |g.children| && g'.originTask == g.originTask
    requires g.callbackClaimed ==> g'.callbackClaimed && g'.callbackId == g.callbackId
    requires MembersKept(g.members, g'.members) && (g.state.Terminal() ==> g'.state.Terminal())
    ensures FlatIntentsOk(g', s)
  {
    forall k | k in s ensures FlatIntentOk(g', k, s[k]) {
      assert FlatIntentOk(g, k, s[k]);
      forall id | IsChild(g, id) ensures IsChild(g', id) {
        var n :| 0 <= n < |g.children| && ChildId(g.id, n) == id;
        assert ChildId(g'.id, n) == id;
      }
    }
  }

  /** Changes that leave plan-independent facts alone: state, outputs, abort mark, a cancel request. */
  predicate MildChange(g: Graph, g': Graph) {
    g'.id == g.id && g'.kind == g.kind && g'.scope == g.scope && g'.plan == g.plan && g'.children == g.children &&
    g'.signatures == g.signatures &&
    g'.callback == g.callback && g'.callbackId == g.callbackId && g'.callbackClaimed == g.callbackClaimed &&
    g'.callbackEnvelope == g.callbackEnvelope && g'.next == g.next && g'.originTask == g.originTask &&
    g'.members.Keys == g.members.Keys &&
    (forall id | id in g.members :: Kept(g.members[id], g'.members[id])) &&
    (g.cancelRequested ==> g'.cancelRequested) && (g'.state == g.state || g'.state.Terminal()) &&
    (Normal(g') ==> Normal(g))
  }

  lemma MildKeepsCore(c: Client, g: Graph, g': Graph, s: Intents)
    requires FlatCore(c, g, s) && MildChange(g, g')
    ensures FlatCore(c, g', s)
  {
    FlatIntentsFrame(g, g', s);
    MildStatic(c, g, g');
    assert BodyInv(g', s);
    hide FlatStatic, FlatIntentsOk, BodyInv, ChainInv, FlatMembersOk;
    forall n | 0 <= n < |g'.children| ensures ChildInv(g', s, n) { MildChild(g, g', s, n); }
  }

  lemma MildChild(g: Graph, g': Graph, s: Intents, n: nat)
    requires MildChange(g, g') && n < |g.children| && ChildInv(g, s, n)
    ensures ChildInv(g', s, n)
  {
  }

  lemma MildStatic(c: Client, g: Graph, g': Graph)
    requires MildChange(g, g') && FlatStatic(c, g) && FlatMembersOk(g) && ChainInv(g)
    ensures FlatStatic(c, g') && FlatMembersOk(g') && ChainInv(g')
  {
    forall id | id in g'.members ensures IsFlatTask(g', id) {
      assert IsFlatTask(g, id);
      if IsChild(g, id) {
        var n :| 0 <= n < |g.children| && ChildId(g.id, n) == id;
        assert ChildId(g'.id, n) == id;
      }
    }
  }

  predicate FlatRelease(g: Graph, x: Intent) {
    (x.payload.Unpin? || x.payload.CompleteReplacement?) && FlatIntentOk(g, x.id, x)
  }

  lemma {:induction false} FlatReleasesKeepCore(c: Client, g: Graph, s: Intents, batch: seq<Intent>)
    requires FlatCore(c, g, s) && forall x | x in batch :: FlatRelease(g, x)
    ensures FlatCore(c, g, Merge(s, batch))
    decreases |batch|
  {
    hide FlatStatic, FlatMembersOk, ChainInv;
    if batch != [] {
      var front, x := batch[..|batch| - 1], batch[|batch| - 1];
      FlatReleasesKeepCore(c, g, s, front);
      assert FlatRelease(g, x);
      var m := Merge(s, front);
      if x.id !in m {
        var m' := m[x.id := x];
        forall n | 0 <= n < |g.children| ensures ChildInv(g, m', n) { assert ChildInv(g, m, n); }
      }
    }
  }

  lemma {:induction false} FlatUnpinsAreReleases(g: Graph, children: seq<Envelope>, x: Intent)
    requires g.state.Terminal() && x in UnpinsOf(g, children)
    ensures FlatRelease(g, x)
    decreases |children|
  {
    if children != [] && x in UnpinsOf(g, children[..|children| - 1]) {
      FlatUnpinsAreReleases(g, children[..|children| - 1], x);
    }
  }

  lemma FlatUnpinsKeepCore(c: Client, g: Graph, s: Intents)
    requires FlatCore(c, g, s) && g.state.Terminal()
    ensures FlatCore(c, g, Merge(s, GraphUnpins(g)))
  {
    forall x | x in GraphUnpins(g) ensures FlatRelease(g, x) {
      if x in UnpinsOf(g, g.children) { FlatUnpinsAreReleases(g, g.children, x); }
    }
    hide FlatCore, FlatRelease, GraphUnpins, Merge;
    FlatReleasesKeepCore(c, g, s, GraphUnpins(g));
  }

  // ---- recording a member ----

  lemma FlatRecordKeepsCore(c: Client, g: Graph, s: Intents, m: Completion)
    requires FlatCore(c, g, s) && IsFlatTask(g, m.id) && (IsChild(g, m.id) ==> HandedOut(g, s, m.id))
    requires m.id !in g.members && m.outcome.state.Terminal()
    ensures FlatCore(c, WithMember(g, m), s)
  {
    hide FlatStatic, FlatIntentsOk, FlatMembersOk;
    var g' := WithMember(g, m);
    forall n | 0 <= n < |g'.children| ensures ChildInv(g', s, n) {
      assert ChildInv(g, s, n);
      assert ChildId(g.id, n) == m.id ==> IsChild(g, m.id);
    }
    FlatIntentsFrame(g, g', s);
    RecordFlatMember(c, g, m);
  }

  lemma RecordFlatMember(c: Client, g: Graph, m: Completion)
    requires FlatStatic(c, g) && FlatMembersOk(g) && IsFlatTask(g, m.id) && m.outcome.state.Terminal()
    ensures FlatStatic(c, WithMember(g, m)) && FlatMembersOk(WithMember(g, m))
  {
    var g' := WithMember(g, m);
    forall id | id in g'.members ensures IsFlatTask(g', id) {
      assert IsFlatTask(g, id);
      if IsChild(g, id) {
        var n :| 0 <= n < |g.children| && ChildId(g.id, n) == id;
        assert ChildId(g'.id, n) == id;
      }
    }
  }

  // ---- cancelled and aborted modes: one more intent for child n ----

  lemma CancelChildKeepsCore(c: Client, g: Graph, s: Intents, n: nat)
    requires FlatCore(c, g, s) && n < |g.children| && g.cancelRequested && !g.state.Terminal() &&
             g.children[n].id !in g.members
    ensures var x := CancellationIntent(g.id, g.children[n], FlatDispatched(g, n));
            FlatCore(c, g, if x.id in s then s else s[x.id := x])
  {
    var x := CancellationIntent(g.id, g.children[n], FlatDispatched(g, n));
    if x.id !in s {
      var s' := s[x.id := x];
      forall j | 0 <= j < |g.children| ensures ChildInv(g, s', j) { assert ChildInv(g, s, j); }
      assert IsChild(g, x.payload.envelope.id);
    }
  }

  lemma {:induction false} CancelChildrenKeepCore(c: Client, g: Graph, s: Intents, i: nat)
    requires FlatCore(c, g, s) && g.cancelRequested && !g.state.Terminal() && i <= |g.children|
    ensures FlatCore(c, g, Merge(s, CancelChildren(g, i)))
    ensures forall n | 0 <= n < i && g.children[n].id !in g.members ::
              CancelId(g, g.children[n].id) in Merge(s, CancelChildren(g, i))
    decreases i
  {
    hide FlatCore, Merge;
    if i == 0 {
      MergeEmpty(s);
    } else {
      CancelChildrenKeepCore(c, g, s, i - 1);
      var front := CancelChildren(g, i - 1);
      if g.children[i - 1].id !in g.members {
        CancelChildKeepsCore(c, g, Merge(s, front), i - 1);
        MergeSnoc(s, front, CancellationIntent(g.id, g.children[i - 1], FlatDispatched(g, i - 1)));
      }
    }
  }

  lemma CancelBodyKeepsCore(c: Client, g: Graph, s: Intents)
    requires FlatCore(c, g, s) && g.cancelRequested && g.callbackClaimed
    ensures FlatCore(c, g, Merge(s, [CancellationIntent(g.id, g.callbackEnvelope.value, true)]))
  {
    var x := CancellationIntent(g.id, g.callbackEnvelope.value, true);
    assert [] + [x] == [x];
    MergeEmpty(s);
    MergeSnoc(s, [], x);
    if x.id !in s {
      var s' := s[x.id := x];
      forall j | 0 <= j < |g.children| ensures ChildInv(g, s', j) { assert ChildInv(g, s, j); }
    }
  }

  lemma AbortChildKeepsCore(c: Client, g: Graph, s: Intents, n: nat)
    requires FlatCore(c, g, s) && n < |g.children| && g.abortFailure.Some? && !FlatDispatched(g, n)
    ensures var x := FailIntent(g.id, g.children[n], g.abortFailure, Some(Failed));
            FlatCore(c, g, if x.id in s then s else s[x.id := x])
  {
    var x := FailIntent(g.id, g.children[n], g.abortFailure, Some(Failed));
    if x.id !in s {
      var s' := s[x.id := x];
      forall j | 0 <= j < |g.children| ensures ChildInv(g, s', j) { assert ChildInv(g, s, j); }
      assert IsChild(g, x.payload.envelope.id);
    }
  }

  lemma {:induction false} AbortChildrenKeepCore(c: Client, g: Graph, s: Intents, i: nat)
    requires FlatCore(c, g, s) && g.abortFailure.Some? && i <= |g.children|
    ensures FlatCore(c, g, Merge(s, AbortChildren(g, i)))
    ensures forall n | 0 <= n < i && g.children[n].id !in g.members && !FlatDispatched(g, n) ::
              DispatchId(g, g.children[n].id) in Merge(s, AbortChildren(g, i))
    decreases i
  {
    hide FlatCore, Merge;
    if i == 0 {
      MergeEmpty(s);
    } else {
      AbortChildrenKeepCore(c, g, s, i - 1);
      var front := AbortChildren(g, i - 1);
      if g.children[i - 1].id !in g.members && !FlatDispatched(g, i - 1) {
        AbortChildKeepsCore(c, g, Merge(s, front), i - 1);
        MergeSnoc(s, front, FailIntent(g.id, g.children[i - 1], g.abortFailure, Some(Failed)));
      }
    }
  }
}
