/** No advance of a stored chain, group or chord emits a batch that the store refuses for naming one
    intent twice or belonging to another source. */
module FlatBatches {
  import opened Protocol
  import opened Nested
  import opened Engine
  import opened IntentHash
  import opened Flat
  import opened FlatInvariant
  import opened FlatAdvance

  /** The three kinds of intents that an advance makes for its children. */
  datatype Use = Dispatching | Canceling | Unpinning

  function LabelOf(use: Use, task: Id): Label {
    match use
    case Dispatching => DispatchLabel(task)
    case Canceling => CancelLabel(task)
    case Unpinning => UnpinLabel(task)
  }

  predicate HasUse(use: Use, x: Intent) {
    x.id.Stable? &&
    match use
    case Dispatching => x.id.tag.DispatchLabel?
    case Canceling => x.id.tag.CancelLabel?
    case Unpinning => x.id.tag.UnpinLabel?
  }

  /** Intents of one use, each for a different one of the first `n` children. */
  predicate ChildBatch(source: Id, use: Use, batch: seq<Intent>, n: nat) {
    BatchOk(source, batch) && forall i | 0 <= i < |batch| :: ForChild(source, use, batch[i], n)
  }

  predicate ForChild(source: Id, use: Use, x: Intent,
      n: nat) { exists k | 0 <= k < n :: x.id == Stable(source, LabelOf(use, ChildId(source, k))) }

  lemma ChildBatchNext(source: Id, use: Use, batch: seq<Intent>, n: nat)
    requires ChildBatch(source, use, batch, n)
    ensures ChildBatch(source, use, batch, n + 1)
    ensures forall x: Intent | x.source == source && x.id == Stable(source, LabelOf(use, ChildId(source, n))) ::
              ChildBatch(source, use, batch + [x], n + 1)
  {
    forall i | 0 <= i < |batch|
      ensures ForChild(source, use, batch[i], n + 1) && batch[i].id != Stable(source, LabelOf(use, ChildId(source, n)))
    {
      assert ForChild(source, use, batch[i], n);
      var k :| 0 <= k < n && batch[i].id == Stable(source, LabelOf(use, ChildId(source, k)));
    }
    forall x: Intent | x.source == source && x.id == Stable(source, LabelOf(use, ChildId(source, n)))
      ensures ChildBatch(source, use, batch + [x], n + 1)
    {
      assert ForChild(source, use, x, n + 1);
      hide ForChild;
      var longer := batch + [x];
      forall i | 0 <= i < |longer| ensures ForChild(source, use, longer[i], n + 1) {
        assert i < |batch| ==> longer[i] == batch[i];
      }
    }
  }

  lemma ChildBatchUse(source: Id, use: Use, batch: seq<Intent>, n: nat)
    requires ChildBatch(source, use, batch, n)
    ensures forall i | 0 <= i < |batch| :: HasUse(use, batch[i])
  {
    forall i | 0 <= i < |batch| ensures HasUse(use, batch[i]) { assert ForChild(source, use, batch[i], n); }
  }

  /** Children carry their own identities. */
  predicate OwnChildren(g: Graph) { forall n | 0 <= n < |g.children| :: g.children[n].id == ChildId(g.id, n) }

  lemma {:induction false} CancelBatch(g: Graph, n: nat)
    requires OwnChildren(g) && n <= |g.children|
    ensures ChildBatch(g.id, Canceling, CancelChildren(g, n), n)
    decreases n
  {
    if n > 0 {
      CancelBatch(g, n - 1);
      ChildBatchNext(g.id, Canceling, CancelChildren(g, n - 1), n - 1);
      hide ChildBatch;
    }
  }

  lemma {:induction false} AbortBatch(g: Graph, n: nat)
    requires OwnChildren(g) && n <= |g.children|
    ensures ChildBatch(g.id, Dispatching, AbortChildren(g, n), n)
    decreases n
  {
    if n > 0 {
      AbortBatch(g, n - 1);
      ChildBatchNext(g.id, Dispatching, AbortChildren(g, n - 1), n - 1);
      hide ChildBatch;
    }
  }

  lemma {:induction false} UnpinBatch(g: Graph, n: nat)
    requires OwnChildren(g) && n <= |g.children|
    ensures ChildBatch(g.id, Unpinning, UnpinsOf(g, g.children[..n]), n)
    decreases n
  {
    if n > 0 {
      UnpinBatch(g, n - 1);
      assert g.children[..n][..n - 1] == g.children[..n - 1];
      ChildBatchNext(g.id, Unpinning, UnpinsOf(g, g.children[..n - 1]), n - 1);
      hide ChildBatch;
    }
  }

  /** A batch with only this use of tasks. */
  predicate UseBatch(source: Id, use: Use,
      batch: seq<Intent>) { BatchOk(source, batch) && forall i | 0 <= i < |batch| :: HasUse(use, batch[i]) }

  lemma AppendBody(source: Id, use: Use, batch: seq<Intent>, n: nat, x: Intent)
    requires ChildBatch(source, use, batch, n) && x.source == source &&
             x.id == Stable(source, LabelOf(use, BodyId(source)))
    ensures UseBatch(source, use, batch + [x])
  {
    forall i | 0 <= i < |batch| ensures batch[i].id != x.id { assert ForChild(source, use, batch[i], n); }
    ChildBatchUse(source, use, batch, n);
  }

  lemma GraphUnpinBatch(g: Graph)
    requires OwnChildren(g) && (g.callbackId.Some? ==> g.callbackId.value == BodyId(g.id))
    ensures UseBatch(g.id, Unpinning, GraphUnpins(g))
  {
    UnpinBatch(g, |g.children|);
    assert g.children[..|g.children|] == g.children;
    hide UnpinsOf;
    ChildBatchUse(g.id, Unpinning, UnpinsOf(g, g.children), |g.children|);
    if g.callbackId.Some? && g.callbackId.value in g.members {
      AppendBody(g.id, Unpinning, UnpinsOf(g, g.children), |g.children|, UnpinIntent(g.id, g.callbackId.value));
    }
  }

  lemma TwoUses(source: Id, a: seq<Intent>, b: seq<Intent>, use: Use)
    requires UseBatch(source, use, a) && UseBatch(source, Unpinning, b) && !use.Unpinning?
    ensures BatchOk(source, a + b) &&
            forall i | 0 <= i < |a + b| :: (a + b)[i].id.Stable? && !(a + b)[i].id.tag.ReplacementCompletionLabel?
  {
    var all := a + b;
    forall i | 0 <= i < |all| ensures HasUse(if i < |a| then use else Unpinning, all[i]) && all[i].source == source {
      if i < |a| { assert all[i] == a[i]; } else { assert all[i] == b[i - |a|]; }
    }
  }

  /** What an advance emits before the report to a replaced task. */
  predicate Emits(g: Graph, r: Advanced) {
    r.Ok? ==>
      r.value.0.id == g.id && BatchOk(g.id, r.value.1) &&
      forall i | 0 <= i < |r.value.1| :: r.value.1[i].id.Stable? && !r.value.1[i].id.tag.ReplacementCompletionLabel?
  }

  lemma UseEmits(g: Graph, next: Graph, use: Use, batch: seq<Intent>)
    requires UseBatch(g.id, use, batch) && next.id == g.id
    ensures Emits(g, Ok((next, batch)))
  {
    forall i | 0 <= i < |batch| ensures batch[i].id.Stable? && !batch[i].id.tag.ReplacementCompletionLabel? {
      assert HasUse(use, batch[i]);
    }
  }

  predicate Plain(g: Graph) {
    !g.kind.Dag? && OwnChildren(g) && (g.callbackId.Some? ==> g.callbackId.value == BodyId(g.id)) &&
    (g.callbackEnvelope.Some? ==> g.callbackEnvelope.value.id == BodyId(g.id))
  }

  lemma CorePlain(c: Client, g: Graph, s: Intents)
    requires FlatCore(c, g, s)
    ensures Plain(g)
  {
  }

  lemma FinishEmits(g: Graph, g1: Graph, state: State, output: Option<Value>)
    requires Plain(g) && g1 == g.(next := g1.next, failure := g1.failure)
    ensures Emits(g, Ok(Finish(g1, state, output)))
  {
    GraphUnpinBatch(g1);
    hide GraphUnpins, UseBatch;
    UseEmits(g, g1.(state := state, output := output), Unpinning, GraphUnpins(g1));
  }

  lemma ChainEmits(c: Client, g: Graph)
    requires Plain(g) && g.kind.Chain? && (g.children == [] || g.next < |g.children|)
    ensures Emits(g, AdvanceChain(c, g))
  {
    hide Finish, BindFails, BindArgs, StartChild, Plain;
    FinishEmits(g, g, Succeeded, Some(List([])));
    FinishEmits(g, g.(failure := Some(ChainFailed)), Failed, None);
    FinishEmits(g, g.(next := g.next + 1, failure := Some(ChainInput)), Failed, None);
    if g.children != [] && g.children[g.next].id in g.members {
      var completed := g.members[g.children[g.next].id].outcome;
      FinishEmits(g, g.(next := g.next + 1), Succeeded, completed.output);
      if g.next + 1 < |g.children| && g.next + 1 < |g.signatures| {
        StartEmits(c, g, g.(next := g.next + 1), BindArgs(c, g.signatures[g.next + 1], completed.output));
      }
    }
  }

  lemma StartEmits(c: Client, g: Graph, g1: Graph, args: Option<Value>)
    requires g1.id == g.id && g1.next < |g1.children| && g1.next < |g1.signatures|
    ensures Emits(g, StartChild(c, g1, args))
  {
  }

  lemma BarrierEmits(c: Client, g: Graph)
    requires Plain(g)
    ensures Emits(g, AdvanceBarrier(c, g))
  {
    hide Finish, StartBody, Plain, AllRecorded, AllSucceeded, OutputsOf, MarshalList;
    FinishEmits(g, g.(failure := Some(GroupFailed)), Failed, None);
    var combined := MarshalList(OutputsOf(ChildIds(g.children), g.members));
    FinishEmits(g, g, Succeeded, Some(combined));
    BodyEmits(c, g, combined);
    if g.callbackId.Some? && g.callbackId.value in g.members {
      var body := g.members[g.callbackId.value].outcome;
      FinishEmits(g, if body.state != Succeeded then g.(failure := body.failure) else g, body.state, body.output);
    }
  }

  lemma BodyEmits(c: Client, g: Graph, combined: Value)
    requires Plain(g)
    ensures Emits(g, StartBody(c, g, combined))
  {
    FinishEmits(g, g.(failure := Some(ChordInput)), Failed, None);
    hide Finish, Plain;
  }

  lemma CanceledEmits(g: Graph)
    requires Plain(g)
    ensures Emits(g, AdvanceCanceledSpec(g))
  {
    var batch := CancelChildren(g, |g.children|);
    CancelBatch(g, |g.children|);
    ChildBatchUse(g.id, Canceling, batch, |g.children|);
    GraphUnpinBatch(g);
    TwoUses(g.id, batch, GraphUnpins(g), Canceling);
    if g.callbackEnvelope.Some? {
      var x := CancellationIntent(g.id, g.callbackEnvelope.value, true);
      AppendBody(g.id, Canceling, batch, |g.children|, x);
      UseEmits(g, g, Canceling, batch + [x]);
    }
    UseEmits(g, g, Canceling, batch);
    hide CancelChildren, GraphUnpins, ChildBatch, HasUse, BatchOk;
  }

  lemma AbortedEmits(g: Graph)
    requires Plain(g)
    ensures Emits(g, AdvanceAbortedSpec(g))
  {
    var cleared := g.(members := ClearOutputs(g.members), output := None);
    var batch := AbortChildren(cleared, |cleared.children|);
    AbortBatch(cleared, |cleared.children|);
    ChildBatchUse(g.id, Dispatching, batch, |g.children|);
    GraphUnpinBatch(cleared);
    TwoUses(g.id, batch, GraphUnpins(cleared), Dispatching);
    UseEmits(g, cleared, Dispatching, batch);
    hide AbortChildren, GraphUnpins, ChildBatch, HasUse, BatchOk, Finished;
  }

  lemma ModeEmits(c: Client, g: Graph)
    requires Plain(g) && (g.kind.Chain? && !g.state.Terminal() ==> g.children == [] || g.next < |g.children|)
    ensures Emits(g, AdvanceMode(c, g))
  {
    assert !g.kind.Dag?;
    GraphUnpinBatch(g);
    UseEmits(g, g, Unpinning, GraphUnpins(g));
    var aborted := g.(abortFailure := Some(BudgetExceeded));
    assert Plain(aborted);
    hide Plain, Emits, AdvanceAbortedSpec, AdvanceCanceledSpec, AdvanceChain, AdvanceBarrier, GraphUnpins, UseBatch;
    AbortedEmits(g);
    AbortedEmits(aborted);
    AbortedSameId(g, aborted);
    CanceledEmits(g);
    BarrierEmits(c, g);
    if g.kind.Chain? && (g.children == [] || g.next < |g.children|) { ChainEmits(c, g); }
  }

  lemma AbortedSameId(g: Graph, g': Graph)
    requires g'.id == g.id
    ensures Emits(g', AdvanceAbortedSpec(g')) ==> Emits(g, AdvanceAbortedSpec(g'))
  {
    hide AdvanceAbortedSpec;
  }

  /** Every advance of a stored chain, group or chord emits a batch the store accepts. */
  lemma FlatBatchAcceptable(c: Client, g: Graph, s: Intents)
    requires FlatCore(c, g, s)
    ensures AdvanceSpec(c, g).Ok? && BatchOk(AdvanceSpec(c, g).value.0.id, AdvanceSpec(c, g).value.1)
  {
    FlatAdvanceKeepsInvariant(c, g, s);
    CorePlain(c, g, s);
    hide FlatAdvanceOk, Plain, AdvanceMode;
    ModeEmits(c, g);
    hide FlatCore;
    ReportLast(AdvanceMode(c, g).value.0, AdvanceMode(c, g).value.1);
  }

  lemma ReportLast(g: Graph, batch: seq<Intent>)
    requires BatchOk(g.id, batch) &&
             forall i | 0 <= i < |batch| :: batch[i].id.Stable? && !batch[i].id.tag.ReplacementCompletionLabel?
    ensures BatchOk(g.id, batch + ReplacementCompletionIntents(g))
  {
  }
}
