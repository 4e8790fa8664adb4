/** Pin completeness of the flat engines: a settled chain, group or chord has heard from every task
    it handed out, and has released every task it recorded. */
module FlatPins {
  import opened Protocol
  import opened Meaning
  import opened Nested
  import opened Engine
  import opened IntentHash
  import opened WorkflowStore
  import opened Flat
  import opened DagInvariant
  import opened DagMeaning
  import opened FlatInvariant
  import opened FlatAdvance
  import opened FlatMeaning
  import opened FlatRuns
  import DagRuns
  import Pins

  /** Every handed-out task is recorded. */
  ghost predicate Heard(g: Graph, s: Intents) {
    forall id | IsFlatTask(g, id) && HandedOut(g, s, id) :: id in g.members
  }

  predicate Unpinned(g: Graph, s: Intents) { forall id | id in g.members :: UnpinId(g, id) in s }

  ghost predicate Released(row: Row) {
    row.graph.state.Terminal() ==> Heard(row.graph, row.intents) && Unpinned(row.graph, row.intents)
  }

  // ---- what settling lists ----

  predicate ListsUnpins(g: Graph, batch: seq<Intent>) { forall x | x in GraphUnpins(g) :: x in batch }

  lemma ListedIsUnpinned(c: Client, g: Graph, s: Intents, batch: seq<Intent>)
    requires FlatStatic(c, g) && FlatMembersOk(g) && ListsUnpins(g, batch)
    ensures Unpinned(g, Merge(s, batch))
  {
    forall id | id in g.members ensures UnpinId(g, id) in Merge(s, batch) {
      assert IsFlatTask(g, id);
      assert UnpinIntent(g.id, id) in GraphUnpins(g) by {
        if IsChild(g, id) {
          var n :| 0 <= n < |g.children| && ChildId(g.id, n) == id;
          Pins.UnpinsHave(g, g.children, n);
        }
      }
      var i :| 0 <= i < |batch| && batch[i] == UnpinIntent(g.id, id);
      MergeHas(s, batch, i);
    }
  }

  lemma SameGraphUnpins(g: Graph, g': Graph)
    requires g'.id == g.id && g'.members.Keys == g.members.Keys && g'.children == g.children &&
             g'.callbackId == g.callbackId
    ensures GraphUnpins(g') == GraphUnpins(g)
  {
    SameUnpins(g, g', g.children);
  }

  // ---- a settling graph has heard from everyone ----

  lemma FinishedHeard(c: Client, g: Graph, s: Intents)
    requires FlatStatic(c, g) && Finished(g)
    ensures Heard(g, s)
  {
    forall id | IsFlatTask(g, id) ensures id in g.members {
      if IsChild(g, id) {
        var n :| 0 <= n < |g.children| && ChildId(g.id, n) == id;
        assert ChildIds(g.children)[n] == id;
      }
    }
  }

  /** A chain hands its children out one at a time. */
  lemma ChainHeard(c: Client, g: Graph, s: Intents)
    requires FlatCore(c, g, s) && Normal(g) && g.kind.Chain? && !g.state.Terminal() && g.next < |g.children| &&
             ChildId(g.id, g.next) in g.members
    ensures Heard(g, s)
  {
    hide FlatMembersOk, FlatIntentsOk, BodyInv, ChildInv, ChainInv, HandedOut;
    forall id | IsFlatTask(g, id) && HandedOut(g, s, id) ensures id in g.members {
      var n :| 0 <= n < |g.children| && ChildId(g.id, n) == id;
      ChildHeard(g, s, n);
    }
  }

  lemma ChildHeard(g: Graph, s: Intents, n: nat)
    requires ChildInv(g, s, n) && ChainInv(g) && Normal(g) && g.kind.Chain? && !g.state.Terminal() &&
             ChildId(g.id, g.next) in g.members
    requires HandedOut(g, s, ChildId(g.id, n))
    ensures ChildId(g.id, n) in g.members
  {
    if n < g.next { assert SucceededMember(g, ChildId(g.id, n)); }
  }

  lemma HeaderFinished(c: Client, g: Graph, s: Intents)
    requires FlatCore(c, g, s) && g.callbackClaimed && g.callbackId.Some? && g.callbackId.value in g.members
    ensures Finished(g)
  {
    forall n | 0 <= n < |g.children| ensures ChildIds(g.children)[n] in g.members {
      assert SucceededMember(g, ChildId(g.id, n));
    }
  }

  lemma HeardFrame(g: Graph, g': Graph, s: Intents, batch: seq<Intent>)
    requires Heard(g, s) && g'.id == g.id && |g'.children| == |g.children| && g'.members.Keys == g.members.Keys
    requires g'.callbackClaimed == g.callbackClaimed && g'.callbackId == g.callbackId
    requires forall x | x in batch :: x.id.Stable? && (x.id.tag.UnpinLabel? || x.id.tag.ReplacementCompletionLabel?)
    ensures Heard(g', Merge(s, batch))
  {
    forall id | IsFlatTask(g', id) && HandedOut(g', Merge(s, batch), id) ensures id in g'.members {
      OldKey(s, batch, DispatchId(g, id));
      OldKey(s, batch, CancelId(g, id));
      assert IsFlatTask(g, id) by {
        if IsChild(g', id) {
          var n :| 0 <= n < |g'.children| && ChildId(g'.id, n) == id;
          assert ChildId(g.id, n) == id;
        }
      }
    }
  }

  lemma OldKey(s: Intents, batch: seq<Intent>, k: Id)
    requires forall x | x in batch :: x.id != k
    ensures k in Merge(s, batch) ==> k in s && Merge(s, batch)[k] == s[k]
  {
    if k in Merge(s, batch) {
      if k !in s { MergeOrigin(s, batch, k); } else { MergeKeeps(s, batch, k); }
    }
  }

  predicate Releases(batch: seq<Intent>) {
    forall x | x in batch :: x.id.Stable? && (x.id.tag.UnpinLabel? || x.id.tag.ReplacementCompletionLabel?)
  }

  /** An advance that settles lists every unpin, and everyone who was handed out is recorded. */
  ghost predicate SettlesOk(s: Intents, r: Advanced) {
    r.Ok? && r.value.0.state.Terminal() ==>
      ListsUnpins(r.value.0, r.value.1) && (Finished(r.value.0) || (Heard(r.value.0, s) && Releases(r.value.1)))
  }

  lemma {:induction false} UnpinsRelease(g: Graph, children: seq<Envelope>)
    ensures Releases(UnpinsOf(g, children))
    decreases |children|
  {
    if children != [] { UnpinsRelease(g, children[..|children| - 1]); }
  }

  lemma FinishSettles(g: Graph, g1: Graph, s: Intents, state: State, output: Option<Value>)
    requires Heard(g, s) && g1 == g.(next := g1.next, failure := g1.failure)
    ensures SettlesOk(s, Ok(Finish(g1, state, output)))
  {
    var (next, batch) := Finish(g1, state, output);
    SameGraphUnpins(g1, next);
    UnpinsRelease(g1, g1.children);
    MergeEmpty(s);
    HeardFrame(g, next, s, []);
  }

  lemma ChainSettles(c: Client, g: Graph, s: Intents)
    requires FlatCore(c, g, s) && Normal(g) && g.kind.Chain? && !g.state.Terminal() && g.next < |g.children|
    ensures SettlesOk(s, AdvanceChain(c, g))
  {
    hide FlatCore, Heard, Finish, BindFails, BindArgs, StartChild;
    ChildAt(c, g, s, g.next);
    if ChildId(g.id, g.next) in g.members {
      ChainHeard(c, g, s);
      hide SettlesOk;
      ChainStepSettles(c, g, s, g.members[ChildId(g.id, g.next)].outcome);
    }
  }

  lemma ChainStepSettles(c: Client, g: Graph, s: Intents, completed: Outcome)
    requires Heard(g, s) && g.kind.Chain? && !g.state.Terminal() && g.next < |g.children| == |g.signatures|
    requires g.children[g.next].id in g.members && g.members[g.children[g.next].id].outcome == completed
    ensures SettlesOk(s, AdvanceChain(c, g))
  {
    hide Heard, SettlesOk, Finish, BindFails, BindArgs, StartChild;
    if completed.state != Succeeded {
      FinishSettles(g, g.(failure := Some(ChainFailed)), s, Failed, None);
    } else if g.next + 1 == |g.children| {
      FinishSettles(g, g.(next := g.next + 1), s, Succeeded, completed.output);
    } else if BindFails(c, g.signatures[g.next + 1], completed.output) {
      FinishSettles(g, g.(next := g.next + 1, failure := Some(ChainInput)), s, Failed, None);
    } else {
      StartStaysOpen(c, g.(next := g.next + 1), s, BindArgs(c, g.signatures[g.next + 1], completed.output));
    }
  }

  lemma ErrSettles(s: Intents, e: Error)
    ensures SettlesOk(s, Err(e))
  {
  }

  lemma StartStaysOpen(c: Client, g: Graph, s: Intents, args: Option<Value>)
    requires g.next < |g.children| && g.next < |g.signatures| && !g.state.Terminal()
    ensures SettlesOk(s, StartChild(c, g, args))
  {
  }

  lemma BarrierSettles(c: Client, g: Graph, s: Intents)
    requires FlatCore(c, g, s) && !g.state.Terminal()
    ensures SettlesOk(s, AdvanceBarrier(c, g))
  {
    if g.callbackClaimed {
      if g.callbackId.Some? && g.callbackId.value in g.members {
        var body := g.members[g.callbackId.value].outcome;
        HeaderFinished(c, g, s);
        FinishedHeard(c, g, s);
        hide FlatCore, Heard, SettlesOk, Finish;
        FinishSettles(g, if body.state != Succeeded then g.(failure := body.failure) else g, s, body.state,
          body.output);
      }
    } else if AllRecorded(ChildIds(g.children), g.members) {
      FinishedHeard(c, g, s);
      hide FlatCore, Heard, SettlesOk, Finish, StartBody, FlatStatic;
      FinishSettles(g, g.(failure := Some(GroupFailed)), s, Failed, None);
      var combined := MarshalList(OutputsOf(ChildIds(g.children), g.members));
      FinishSettles(g, g, s, Succeeded, Some(combined));
      BodySettles(c, g, s, combined);
      ErrSettles(s, Invalid);
    }
  }

  lemma BodySettles(c: Client, g: Graph, s: Intents, combined: Value)
    requires Heard(g, s) && !g.state.Terminal()
    ensures SettlesOk(s, StartBody(c, g, combined))
  {
    hide BindArgs, Prepare, Heard, Finish;
    FinishSettles(g, g.(failure := Some(ChordInput)), s, Failed, None);
  }

  lemma CanceledSettles(g: Graph, s: Intents)
    requires !g.state.Terminal() && !g.kind.Dag?
    ensures SettlesOk(s, AdvanceCanceledSpec(g))
  {
    hide CancelChildren, GraphUnpins, Heard;
    SameGraphUnpins(g, g.(state := Revoked, output := None, failure := Some(WorkflowRevoked)));
  }

  lemma AbortedSettles(g: Graph, s: Intents)
    requires !g.state.Terminal() && !g.kind.Dag?
    ensures SettlesOk(s, AdvanceAbortedSpec(g))
  {
    hide AbortChildren, GraphUnpins, Heard;
    var cleared := g.(members := ClearOutputs(g.members), output := None);
    SameGraphUnpins(cleared, cleared.(state := Failed, failure := cleared.abortFailure));
  }

  lemma ModeSettles(c: Client, g: Graph, s: Intents)
    requires FlatCore(c, g, s) && !g.state.Terminal()
    ensures SettlesOk(s, AdvanceMode(c, g))
  {
    assert !g.kind.Dag? && (g.kind.Chain? ==> g.next < |g.children|);
    hide FlatCore, SettlesOk, AdvanceAbortedSpec, AdvanceCanceledSpec, AdvanceChain, AdvanceBarrier;
    AbortedSettles(g, s);
    AbortedSettles(g.(abortFailure := Some(BudgetExceeded)), s);
    CanceledSettles(g, s);
    if Normal(g) {
      if g.kind.Chain? { ChainSettles(c, g, s); } else { BarrierSettles(c, g, s); }
    }
  }

  /** Storing the result of an advance leaves a settled row complete. */
  lemma StoreReleases(c: Client, g: Graph, s: Intents, r: nat)
    requires FlatCore(c, g, s) && !g.state.Terminal() && AdvanceSpec(c, g).Ok?
    ensures Released(Row(AdvanceSpec(c, g).value.0.(revision := r), Merge(s, AdvanceSpec(c, g).value.1)))
  {
    ModeSettles(c, g, s);
    FlatAdvanceKeepsInvariant(c, g, s);
    var (next, batch) := AdvanceMode(c, g).value;
    var full := batch + ReplacementCompletionIntents(next);
    assert FlatStatic(c, next) && FlatMembersOk(next);
    hide FlatCore, AdvanceMode, Merge, FlatAdvanceOk, FlatStatic, FlatMembersOk;
    if next.state.Terminal() {
      ListedIsUnpinned(c, next, s, full);
      if Finished(next) { FinishedHeard(c, next, Merge(s, full)); } else { HeardFrame(next, next, s, full); }
      RevisionReleased(next, Merge(s, full), r);
    }
  }

  lemma RevisionReleased(g: Graph, s: Intents, r: nat)
    requires Heard(g, s) && Unpinned(g, s)
    ensures Released(Row(g.(revision := r), s))
  {
    MergeEmpty(s);
    HeardFrame(g, g.(revision := r), s, []);
  }

  // ---- runs ----

  lemma CreatedReleased(c: Client, g: Graph)
    requires FlatStart(c, g) && CreateFlatSpec(c, g).Ok?
    ensures Released(CreateFlatSpec(c, g).value)
  {
    if g.children == [] {
      FlatCreateIsReachable(c, g);
      if g.kind.Chain? {
        NothingToRelease(c, CreateFlatSpec(c, g).value);
      } else {
        StartedCore(c, g, 0, map[]);
        hide FlatStart, FlatCore, AdvanceSpec, Released;
        StoreReleases(c, g, map[], AdvanceSpec(c, g).value.0.revision);
      }
    }
  }

  lemma NothingToRelease(c: Client, row: Row)
    requires FlatReachable(c, row) && row.graph.children == [] && row.graph.kind.Chain?
    ensures Released(row)
  {
    assert forall id :: !IsFlatTask(row.graph, id);
  }

  lemma StepReleases(c: Client, row: Row, e: DagRuns.Event)
    requires FlatReachable(c, row) && Released(row) && FlatLegit(row, e)
    ensures Released(DagRuns.StepRow(c, row, e))
  {
    hide FlatCore, FlatLive, AllOut, AdvanceSpec, Released, Merge;
    match e
    case CancelRequested =>
      if !row.graph.state.Terminal() {
        CancelMark(c, row.graph, row.intents);
        var g := row.graph.(cancelRequested := true);
        if AdvanceSpec(c, g).Ok? { StoreReleases(c, g, row.intents, row.graph.revision + 1); }
      }
    case Completed(m) =>
      if m.id !in row.graph.members {
        OpenWhenReporting(row, m);
        FlatExpected(c, row.graph, row.intents, m.id);
        FlatRecordKeepsCore(c, row.graph, row.intents, m);
        var g := WithMember(row.graph, m);
        if AdvanceSpec(c, g).Ok? { StoreReleases(c, g, row.intents, row.graph.revision + 1); }
      }
  }

  /** A settled flat graph takes no new completion. */
  lemma OpenWhenReporting(row: Row, m: Completion)
    requires Released(row) && IsFlatTask(row.graph, m.id) && HandedOut(row.graph, row.intents, m.id)
    ensures row.graph.state.Terminal() ==> m.id in row.graph.members
  {
  }

  /** Pin completeness of chains, groups and chords, over every run in every mode: a settled graph
      has heard from all it handed out, and everything it recorded is released. */
  lemma {:induction false} FlatPinCompleteness(c: Client, w: World, row: Row, events: seq<DagRuns.Event>)
    requires FlatReachable(c, row) && Released(row) && FlatRun(c, w, row, events)
    ensures Released(DagRuns.End(c, row, events))
    decreases |events|
  {
    hide FlatReachable, Released, DagRuns.StepRow, FlatLegit, FlatFaithful, SameFlat;
    if events != [] {
      FlatStepProgresses(c, row, events[0]);
      StepReleases(c, row, events[0]);
      FlatPinCompleteness(c, w, DagRuns.StepRow(c, row, events[0]), events[1..]);
    }
  }

  /** In particular every run of a chain, group or chord from its first row. */
  lemma FlatPinsFromStart(c: Client, w: World, id: Id, canvas: Canvas, events: seq<DagRuns.Event>)
    requires FlatGraph(c, id, canvas).Ok? && CreateFlatSpec(c, FlatGraph(c, id, canvas).value).Ok?
    requires FlatRun(c, w, CreateFlatSpec(c, FlatGraph(c, id, canvas).value).value, events)
    ensures Released(DagRuns.End(c, CreateFlatSpec(c, FlatGraph(c, id, canvas).value).value, events))
  {
    hide FlatGraph, CreateFlatSpec, FlatRun, FlatStart, FlatReachable, Released, DagRuns.End;
    var g := FlatGraph(c, id, canvas).value;
    FlatGraphStarts(c, id, canvas);
    FlatCreateIsReachable(c, g);
    CreatedReleased(c, g);
    FlatPinCompleteness(c, w, CreateFlatSpec(c, g).value, events);
  }
}
