/** Stored workflows last: no step of any process removes a graph, starts it over or takes back what
    it recorded or stored. In particular a replacement graph is created at most once. */
module DeliveryRows {
  import opened Protocol
  import opened Records
  import opened TaskLife
  import opened Engine
  import opened WorkflowStore
  import opened DagInvariant
  import opened Rows
  import opened Delivery
  import opened DeliveryFacts
  import opened DeliverySafety
  import opened DeliveryRuns
  import opened Flat
  import opened FlatRuns
  import DagRuns

  lemma RowGrowsRefl(row: Row)
    ensures RowGrows(row, row)
  {
  }

  lemma RowGrowsTrans(a: Row, b: Row, d: Row)
    requires RowGrows(a, b) && RowGrows(b, d)
    ensures RowGrows(a, d)
  {
    forall id | id in a.graph.members ensures id in d.graph.members && Kept(a.graph.members[id], d.graph.members[id]) {
      assert Kept(a.graph.members[id], b.graph.members[id]) && Kept(b.graph.members[id], d.graph.members[id]);
    }
  }

  /** The stored graph `g` is still there, and has only grown. */
  ghost predicate KeepsRow(s: System, s': System,
      g: Id) { g in s.rows ==> g in s'.rows && RowGrows(s.rows[g], s'.rows[g]) }

  predicate GraphAction(a: Action) {
    a.RecordCompletion? || a.CreateReplacement? || a.CancelByTask? || a.ApplyCanvas? || a.CancelByUser? || a.Repair?
  }

  lemma CallKeepsRows(c: Client, ttl: Ttl, s: System, id: Id, op: Op)
    ensures Call(c, ttl, s, id, op).Some? ==> Call(c, ttl, s, id, op).value.rows == s.rows
  {
    hide Commit;
  }

  predicate EarlyAction(a: Action) {
    a.Submit? || a.Take? || a.RelayPublish? || a.RegisterAccepted? || a.Lease? || a.FirePublish? || a.RegisterFor? ||
    a.ClaimFor? || a.Skip?
  }

  /** Steps on tasks, broker and schedules do not touch the workflow store. */
  lemma OtherActionsKeepRows(c: Client, ttl: Ttl, s: System, a: Action)
    requires !GraphAction(a)
    ensures Do(c, ttl, s, a).rows == s.rows
  {
    hide Do;
    if EarlyAction(a) { EarlyActionsKeepRows(c, ttl, s, a); } else { LateActionsKeepRows(c, ttl, s, a); }
  }

  lemma EarlyActionsKeepRows(c: Client, ttl: Ttl, s: System, a: Action)
    requires EarlyAction(a)
    ensures Do(c, ttl, s, a).rows == s.rows
  {
    hide DoSubmit, DoTake, DoRelayPublish, DoRegisterAccepted, DoLease, DoFirePublish, DoRegisterFor, DoClaimFor,
           DoFinish, DoSkip, DoMark,
      DoRecordCompletion, DoReleasePinned, DoCreateReplacement, DoResolveTask, DoCancelByTask, DoApplyCanvas, DoRepair,
        Call, CancelGraphSpec, PreparedFor, WellFormed, Ending, Retrying, Yielding;
    match a
    case Submit(e, later) => SubmitKeepsRows(c, s, e, later);
    case Take(x) => TakeKeepsRows(s, x);
    case RelayPublish(x, later) => RelayKeepsRows(c, s, x, later);
    case RegisterAccepted(e, x, state) => AcceptedKeepsRows(c, ttl, s, e, x, state);
    case Lease(key) => LeaseKeepsRows(s, key);
    case FirePublish(e) => FireKeepsRows(c, s, e);
    case RegisterFor(src, state) => RegisterKeepsRows(c, ttl, s, src, state);
    case ClaimFor(src, owner, lease, at) => ClaimKeepsRows(c, ttl, s, src, owner, lease, at);
    case Skip(src) => SkipKeepsRows(s, src);
  }

  lemma LateActionsKeepRows(c: Client, ttl: Ttl, s: System, a: Action)
    requires !GraphAction(a) && !EarlyAction(a)
    ensures Do(c, ttl, s, a).rows == s.rows
  {
    hide DoSubmit, DoTake, DoRelayPublish, DoRegisterAccepted, DoLease, DoFirePublish, DoRegisterFor, DoClaimFor,
           DoFinish, DoSkip, DoMark,
      DoRecordCompletion, DoReleasePinned, DoCreateReplacement, DoResolveTask, DoCancelByTask, DoApplyCanvas, DoRepair,
        Call, CancelGraphSpec, PreparedFor, WellFormed, Ending, Retrying, Yielding;
    match a
    case EndFor(src, e, fence, owner, outcome, at) => FinishKeepsRows(c, ttl, s, src, e,
                                                        Ending(e, fence, owner, outcome), at);
    case RetryFor(r, fence, owner, eta, at) =>
      if r < |s.sent| {
        FinishKeepsRows(c, ttl, s, OfDelivery(r), s.sent[r], Retrying(s.sent[r], fence, owner, eta), at);
      }
    case YieldFor(r, fence, owner, g, at) =>
      if r < |s.sent| {
        FinishKeepsRows(c, ttl, s, OfDelivery(r), s.sent[r], Yielding(s.sent[r], fence, owner, g), at);
      }
    case Touch(id, op) => CallKeepsRows(c, ttl, s, id, op);
    case Mark(x, fence, owner) => MarkKeepsRows(c, ttl, s, x, fence, owner);
    case ReleasePinned(x) => ReleaseKeepsRows(c, ttl, s, x);
    case ResolveTask(x, valid, at) => ResolveKeepsRows(c, ttl, s, x, valid, at);
    case Remove(id, at) => CallKeepsRows(c, ttl, s, id, Delete(at));
    case _ =>
  }

  lemma TransportKeepsRows(c: Client, s: System, e: Envelope, later: bool)
    ensures Transport(c, s, e, later).Some? ==> Transport(c, s, e, later).value.rows == s.rows
  {
  }

  lemma SubmitKeepsRows(c: Client, s: System, e: Envelope, later: bool)
    ensures DoSubmit(c, s, e, later).rows == s.rows
  {
    hide Transport;
    TransportKeepsRows(c, s, e, later);
  }

  lemma TakeKeepsRows(s: System, x: Intent)
    ensures DoTake(s, x).rows == s.rows
  {
    hide StoredHere, Delivered;
  }

  lemma RelayKeepsRows(c: Client, s: System, x: Intent, later: bool)
    ensures DoRelayPublish(c, s, x, later).rows == s.rows
  {
    hide Transport;
    if x.payload.Publish? { TransportKeepsRows(c, s, x.payload.envelope, later); }
  }

  lemma AcceptedKeepsRows(c: Client, ttl: Ttl, s: System, e: Envelope, x: Option<Intent>, state: State)
    ensures DoRegisterAccepted(c, ttl, s, e, x, state).rows == s.rows
  {
    hide Call;
    CallKeepsRows(c, ttl, s, e.id, Register(e, state));
  }

  lemma LeaseKeepsRows(s: System, key: Key)
    ensures DoLease(s, key).rows == s.rows
  {
  }

  lemma FireKeepsRows(c: Client, s: System, e: Envelope)
    ensures DoFirePublish(c, s, e).rows == s.rows
  {
  }

  lemma RegisterKeepsRows(c: Client, ttl: Ttl, s: System, src: Source, state: State)
    ensures DoRegisterFor(c, ttl, s, src, state).rows == s.rows
  {
    hide Call, RegisterEnvelope;
    if RegisterEnvelope(s, src).Some? {
      CallKeepsRows(c, ttl, s, RegisterEnvelope(s, src).value.id, Register(RegisterEnvelope(s, src).value, state));
    }
  }

  lemma ClaimKeepsRows(c: Client, ttl: Ttl, s: System, src: Source, owner: string, lease: nat, at: nat)
    ensures DoClaimFor(c, ttl, s, src, owner, lease, at).rows == s.rows
  {
    hide Call, ClaimEnvelope, Past, Cancels;
    if ClaimEnvelope(s, src).Some? {
      CallKeepsRows(c, ttl, s, ClaimEnvelope(s, src).value.id, Claim(ClaimEnvelope(s, src).value, owner, lease, at));
    }
  }

  lemma FinishKeepsRows(c: Client, ttl: Ttl, s: System, src: Source, e: Envelope, t: Transition, at: nat)
    ensures DoFinish(c, ttl, s, src, e, t, at).rows == s.rows
  {
    hide Call, Answers;
    CallKeepsRows(c, ttl, s, e.id, Finish(t, at));
  }

  lemma SkipKeepsRows(s: System, src: Source)
    ensures DoSkip(s, src).rows == s.rows
  {
    hide RegisterEnvelope, Cancels;
  }

  lemma MarkKeepsRows(c: Client, ttl: Ttl, s: System, x: Intent, fence: nat, owner: string)
    ensures DoMark(c, ttl, s, x, fence, owner).rows == s.rows
  {
    hide Call;
    CallKeepsRows(c, ttl, s, x.source, MarkIntent(x.id, fence, owner));
  }

  lemma ReleaseKeepsRows(c: Client, ttl: Ttl, s: System, x: Intent)
    ensures DoReleasePinned(c, ttl, s, x).rows == s.rows
  {
    hide Call;
    if x.payload.Unpin? { CallKeepsRows(c, ttl, s, x.payload.target, ReleasePin); }
  }

  lemma ResolveKeepsRows(c: Client, ttl: Ttl, s: System, x: Intent, valid: bool, at: nat)
    ensures DoResolveTask(c, ttl, s, x, valid, at).rows == s.rows
  {
    hide Call, Finalize;
    if x.payload.CompleteReplacement? && x.payload.target in s.entries {
      CallKeepsRows(c, ttl, s, x.payload.target,
        Resolve(x.payload.workflow, Finalize(s.entries[x.payload.target].record, x.payload.completion, valid), at));
    }
  }

  lemma StepRowGrows(c: Client, s: System, id: Id, e: DagRuns.Event, g: Id)
    requires Inv(c, s) && id in s.rows && LegitRow(s.rows[id], e) && g in s.rows
    ensures RowGrows(s.rows[g], s.rows[id := DagRuns.StepRow(c, s.rows[id], e)][g])
  {
    hide Inv, RowOk, LegitRow, DagRuns.StepRow, MembersTrue, Replaces;
    RowOf(c, s, id);
    RowSteps(c, s.rows[id], e);
    hide RowGrows;
    RowGrowsRefl(s.rows[g]);
  }

  lemma CompletionGrows(c: Client, s: System, x: Intent, g: Id)
    requires Inv(c, s) && g in s.rows
    ensures KeepsRow(s, DoRecordCompletion(c, s, x), g)
  {
    hide Inv, RowOk, Fact, LegitRow, RecordMemberSpec, DagRuns.StepRow, RowGrows, MemberTrue;
    RowGrowsRefl(s.rows[g]);
    if DoRecordCompletion(c, s, x) != s {
      var w, m := x.payload.workflow, x.payload.completion;
      RelayedFact(c, s, x);
      CompletionLegit(c, s, x);
      StepIsRecord(c, s.rows[w], m);
      StepRowGrows(c, s, w, DagRuns.Completed(m), g);
    }
  }

  lemma RepairGrows(c: Client, s: System, w: Id, id: Id, g: Id)
    requires Inv(c, s) && g in s.rows
    ensures KeepsRow(s, DoRepair(c, s, w, id), g)
  {
    hide Inv, LegitRow, MemberTrue, Expected, RepairCompletion, RecordMemberSpec, DagRuns.StepRow, VisibleOutput,
           RowGrows;
    RowGrowsRefl(s.rows[g]);
    if DoRepair(c, s, w, id) != s {
      RepairLegit(c, s, w, id);
      var m := RepairCompletion(s, s.entries[id].record);
      StepIsRecord(c, s.rows[w], m);
      StepRowGrows(c, s, w, DagRuns.Completed(m), g);
    }
  }

  lemma CancelGrows(c: Client, s: System, w: Id, p: Option<Permit>, g: Id)
    requires Inv(c, s) && g in s.rows && w in s.rows
    ensures KeepsRow(s, WithRow(c, s, w, CancelGraphSpec(c, s.rows[w]), p), g)
  {
    hide Inv, RowOk, CancelGraphSpec, DagRuns.StepRow, RowGrows;
    RowGrowsRefl(s.rows[g]);
    StepIsCancel(c, s.rows[w]);
    StepRowGrows(c, s, w, DagRuns.CancelRequested, g);
  }

  lemma StepIsCancel(c: Client, row: Row)
    ensures CancelGraphSpec(c, row).Ok? ==>
              DagRuns.StepRow(c, row, DagRuns.CancelRequested) == CancelGraphSpec(c, row).value
    ensures LegitRow(row, DagRuns.CancelRequested)
  {
    hide CancelGraphSpec;
  }

  /** Creating a graph touches no stored one. */
  lemma CreationGrows(c: Client, s: System, id: Id, r: Result<Row>, p: Option<Permit>, g: Id)
    requires id !in s.rows
    ensures KeepsRow(s, WithRow(c, s, id, r, p), g)
  {
    if g in s.rows { RowGrowsRefl(s.rows[g]); }
    hide RowGrows;
  }

  lemma ReplacementGrows(c: Client, s: System, x: Intent, g: Id)
    ensures KeepsRow(s, DoCreateReplacement(c, s, x), g)
  {
    hide CreateSpec, RowGrows;
    if g in s.rows { RowGrowsRefl(s.rows[g]); }
    if DoCreateReplacement(c, s, x) != s && x.payload.graph.id !in s.rows {
      CreationGrows(c, s, x.payload.graph.id,
        CreateSpec(c, x.payload.graph.(cancelRequested := s.entries[x.source].record.cancelRequested)),
          Some(Done(OfIntent(x))), g);
    }
  }

  lemma CanvasGrows(c: Client, s: System, canvas: Graph, g: Id)
    ensures KeepsRow(s, DoApplyCanvas(c, s, canvas), g)
  {
    hide CreateSpec, CreateFlatSpec, DagRuns.Initial, FlatStart, RowGrows;
    if g in s.rows { RowGrowsRefl(s.rows[g]); }
    if canvas.id !in s.rows {
      CreationGrows(c, s, canvas.id, CreateSpec(c, canvas), None, g);
      CreationGrows(c, s, canvas.id, CreateFlatSpec(c, canvas), None, g);
    }
  }

  lemma ActionKeepsRows(c: Client, ttl: Ttl, s: System, a: Action, g: Id)
    requires Inv(c, s)
    ensures KeepsRow(s, Do(c, ttl, s, a), g)
  {
    hide Inv, RowGrows, Do;
    if g in s.rows {
      if GraphAction(a) {
        GraphActionKeepsRows(c, ttl, s, a, g);
      } else {
        RowGrowsRefl(s.rows[g]);
        OtherActionsKeepRows(c, ttl, s, a);
      }
    }
  }

  lemma SameKeepsRow(s: System, g: Id)
    ensures KeepsRow(s, s, g)
  {
    if g in s.rows { RowGrowsRefl(s.rows[g]); }
    hide RowGrows;
  }

  lemma GraphActionKeepsRows(c: Client, ttl: Ttl, s: System, a: Action, g: Id)
    requires Inv(c, s) && GraphAction(a) && g in s.rows
    ensures KeepsRow(s, Do(c, ttl, s, a), g)
  {
    hide DoSubmit, DoTake, DoRelayPublish, DoRegisterAccepted, DoLease, DoFirePublish, DoRegisterFor, DoClaimFor,
           DoFinish, DoSkip, DoMark,
      DoRecordCompletion, DoReleasePinned, DoCreateReplacement, DoResolveTask, DoCancelByTask, DoApplyCanvas, DoRepair,
        Call, CancelGraphSpec, PreparedFor, WellFormed, Ending, Retrying, Yielding;
    hide Inv, KeepsRow, WithRow;
    SameKeepsRow(s, g);
    match a
    case RecordCompletion(x) => CompletionGrows(c, s, x, g);
    case Repair(w, id) => RepairGrows(c, s, w, id, g);
    case CancelByUser(id) => if id in s.rows { CancelGrows(c, s, id, None, g); }
    case CancelByTask(x) => CancelByTaskGrows(c, s, x, g);
    case CreateReplacement(x) => ReplacementGrows(c, s, x, g);
    case ApplyCanvas(canvas) => CanvasGrows(c, s, canvas, g);
  }

  lemma CancelByTaskGrows(c: Client, s: System, x: Intent, g: Id)
    requires Inv(c, s) && g in s.rows
    ensures KeepsRow(s, DoCancelByTask(c, s, x), g)
  {
    hide Inv, CancelGraphSpec, RowGrows, WithRow;
    RowGrowsRefl(s.rows[g]);
    if DoCancelByTask(c, s, x) != s { CancelGrows(c, s, x.payload.workflow, Some(Done(OfIntent(x))), g); }
  }

  /** Workflows last: whatever happens after a graph is stored, it stays stored under its identity,
      with its origin, its members and its intents, and a settled graph stays settled. A
      replacement graph is therefore created once. */
  lemma {:induction false} WorkflowsLast(c: Client, ttl: Ttl, actions: seq<Action>, n: nat, g: Id)
    requires n <= |actions| && g in Reach(c, ttl, actions[..n]).rows
    ensures g in Reach(c, ttl, actions).rows &&
            RowGrows(Reach(c, ttl, actions[..n]).rows[g], Reach(c, ttl, actions).rows[g])
    decreases |actions|
  {
    hide RowGrows, Do;
    if n == |actions| {
      assert actions[..n] == actions;
      RowGrowsRefl(Reach(c, ttl, actions).rows[g]);
    } else {
      var front := actions[..|actions| - 1];
      assert front[..n] == actions[..n];
      WorkflowsLast(c, ttl, front, n, g);
      RunsKeepInvariant(c, ttl, front);
      ActionKeepsRows(c, ttl, Reach(c, ttl, front), actions[|actions| - 1], g);
      RowGrowsTrans(Reach(c, ttl, actions[..n]).rows[g], Reach(c, ttl, front).rows[g], Reach(c, ttl, actions).rows[g]);
    }
  }
}
