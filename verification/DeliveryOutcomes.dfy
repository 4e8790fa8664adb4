/** The reports that reach a workflow are honest: a task that its graph failed before dispatch is
    never run, and ends with what the failing intent says. Every stored row is therefore the end of
    a run of the kind the meaning theorems are about. */
module DeliveryOutcomes {
  import opened Protocol
  import opened Records
  import opened TaskLife
  import opened WorkflowStore
  import opened Flat
  import opened DagInvariant
  import opened FlatInvariant
  import opened DagMeaning
  import opened Rows
  import opened RowRuns
  import opened Delivery
  import opened DeliveryFacts
  import opened DeliverySafety
  import ResultStore

  type Table = map<Id, Row>

  // ---- what is true of every copy of an intent ----

  /** A task of a workflow was published by it, not failed. */
  predicate Published(rows: Table, id: Id) {
    TaskOf(id).Some? ==>
      TaskOf(id).value in rows &&
      var d := Stable(TaskOf(id).value, DispatchLabel(id));
      d in rows[TaskOf(id).value].intents && rows[TaskOf(id).value].intents[d].payload.Publish?
  }

  predicate ReportOk(rows: Table, m: Completion) {
    TaskOf(m.id).Some? ==>
      TaskOf(m.id).value in rows &&
      (Normal(rows[TaskOf(m.id).value].graph) ==> Answered(rows[TaskOf(m.id).value], m))
  }

  predicate IntentTrue(rows: Table, x: Intent) {
    match x.payload
    case Publish(e) => Published(rows, e.id)
    case Complete(_, m) => ReportOk(rows, m)
    case _ => true
  }

  predicate PermitTrue(rows: Table, p: Permit) {
    match p
    case Registering(e, _) => Published(rows, e.id)
    case Leased(e) => Published(rows, e.id)
    case Relaying(x) => IntentTrue(rows, x)
    case _ => true
  }

  /** Only a published task yields, and what an entry stores is true. */
  predicate EntryTrue(rows: Table, id: Id, entry: Entry) {
    (entry.record.replacement.Some? ==> Published(rows, id)) &&
    forall k | k in entry.intents :: IntentTrue(rows, entry.intents[k].intent)
  }

  predicate EntriesTrue(rows: Table, entries: map<Id, Entry>) {
    forall id | id in entries :: EntryTrue(rows, id, entries[id])
  }

  predicate TransportTrue(rows: Table, sent: seq<Envelope>, items: map<Key, Envelope>) {
    (forall i | 0 <= i < |sent| :: Published(rows, sent[i].id)) &&
    (forall k | k in items :: Published(rows, items[k].id))
  }

  predicate PermitsTrue(rows: Table, permits: set<Permit>) { forall p | p in permits :: PermitTrue(rows, p) }

  predicate Truthful(s: System) {
    TransportTrue(s.rows, s.sent, s.items) && PermitsTrue(s.rows, s.permits) && EntriesTrue(s.rows, s.entries)
  }

  // ---- transports ----

  lemma TransportStaysTrue(c: Client, s: System, e: Envelope, later: bool)
    requires Truthful(s) && Published(s.rows, e.id) && Transport(c, s, e, later).Some?
    ensures var s1 := Transport(c, s, e, later).value;
            s1.rows == s.rows && Truthful(s1) && s1.permits == s.permits
  {
    hide Published, PermitTrue, EntryTrue;
  }

  lemma GrantStaysTrue(s: System, p: Permit)
    requires Truthful(s) && PermitTrue(s.rows, p)
    ensures Truthful(Grant(s, p))
  {
    hide PermitTrue, EntriesTrue, TransportTrue;
  }

  // ---- result store calls ----

  /** The intents a call brings along, apart from a cancellation of a replacement. */
  function BatchOf(op: Op): seq<Intent> {
    match op case Finish(t, _) => t.intents case Resolve(_, t, _) => t.intents case _ => []
  }

  lemma {:induction false} AddedFrom(stored: map<Id, Stored>, batch: seq<Intent>, k: Id)
    requires k in AddIntents(stored, batch)
    ensures (k in stored && AddIntents(stored, batch)[k] == stored[k]) || AddIntents(stored, batch)[k].intent in batch
    decreases |batch|
  {
    if batch != [] && k in AddIntents(stored, batch[..|batch| - 1]) { AddedFrom(stored, batch[..|batch| - 1], k); }
  }

  predicate FromCall(x: Option<Entry>, op: Op, y: Entry, k: Id)
    requires k in y.intents
  {
    (x.Some? && k in x.value.intents && y.intents[k].intent == x.value.intents[k].intent) ||
    y.intents[k].intent in BatchOf(op) || y.intents[k].intent.payload.CancelWorkflow?
  }

  lemma CallAdds(c: Client, ttl: Ttl, x: Option<Entry>, op: Op, now: nat, y: Entry, k: Id)
    requires Commit(c, ttl, x, op, now) == Ok(Some(y)) && k in y.intents
    ensures FromCall(x, op, y, k)
  {
    if op.Finish? || op.Resolve? || op.RequestCancel? {
      BatchAdds(c, ttl, x, op, now, y, k);
    } else {
      hide ApplyTransition, ApplyReplacementOutcome, ClaimRecord, InitialRecord, BatchOk, CancellationIntents;
      var stored := if x.Some? then x.value.intents else map[];
      if k in AddIntents(stored, []) { AddedFrom(stored, [], k); }
    }
  }

  lemma BatchAdds(c: Client, ttl: Ttl, x: Option<Entry>, op: Op, now: nat, y: Entry, k: Id)
    requires op.Finish? || op.Resolve? || op.RequestCancel?
    requires Commit(c, ttl, x, op, now) == Ok(Some(y)) && k in y.intents
    ensures FromCall(x, op, y, k)
  {
    hide ApplyTransition, ApplyReplacementOutcome, BatchOk, CancellationIntents, AddIntents;
    match op
    case Finish(t, at) => AddedFrom(x.value.intents, t.intents, k);
    case Resolve(wf, t, at) => if y != x.value { AddedFrom(x.value.intents, t.intents, k); }
    case RequestCancel(scope) => if y != x.value { CancelAdds(x.value, y, k); }
  }

  lemma CancelAdds(x: Entry, y: Entry, k: Id)
    requires y.intents == AddIntents(x.intents, CancellationIntents(x.record.(cancelRequested := true)))
    requires k in y.intents
    ensures (k in x.intents && y.intents[k].intent == x.intents[k].intent) ||
            y.intents[k].intent.payload.CancelWorkflow?
  {
    AddedFrom(x.intents, CancellationIntents(x.record.(cancelRequested := true)), k);
  }

  lemma CallYields(c: Client, ttl: Ttl, x: Option<Entry>, op: Op, now: nat, y: Entry)
    requires Commit(c, ttl, x, op, now) == Ok(Some(y)) && y.record.replacement.Some?
    ensures (x.Some? && x.value.record.replacement.Some?) || (op.Finish? && op.t.replacement.Some?)
  {
    hide BatchOk, AddIntents, CancellationIntents, ReplayBound, YieldOk, RetryOk;
  }

  /** A call changes at most one entry, as its operation commits it. */
  lemma CallShape(c: Client, ttl: Ttl, s: System, id: Id, op: Op)
    requires Call(c, ttl, s, id, op).Some?
    ensures var s1 := Call(c, ttl, s, id, op).value;
            s1 == s.(entries := s1.entries, removed := s1.removed) &&
            forall j | j in s1.entries ::
              (j in s.entries && s1.entries[j] == s.entries[j]) ||
              (j == id && Commit(c, ttl, ResultStore.Find(s.entries, id), op, s.clock) == Ok(Some(s1.entries[id])))
  {
    hide Commit;
  }

  /** A call stays true when the intents it brings are, and when only a published task yields. */
  lemma CallStaysTrue(c: Client, ttl: Ttl, s: System, id: Id, op: Op)
    requires Truthful(s) && Call(c, ttl, s, id, op).Some?
    requires forall x | x in BatchOf(op) :: IntentTrue(s.rows, x)
    requires op.Finish? && op.t.replacement.Some? ==> Published(s.rows, id)
    ensures var s1 := Call(c, ttl, s, id, op).value;
            s1.rows == s.rows && s1.permits == s.permits && Truthful(s1)
  {
    CallShape(c, ttl, s, id, op);
    hide Call, Commit, Published, TransportTrue, PermitsTrue, IntentTrue, EntryTrue, BatchOf;
    var s1 := Call(c, ttl, s, id, op).value;
    forall j | j in s1.entries ensures EntryTrue(s.rows, j, s1.entries[j]) {
      if j !in s.entries || s1.entries[j] != s.entries[j] {
        EntryStaysTrue(c, ttl, s.rows, ResultStore.Find(s.entries, id), id, op, s.clock, s1.entries[id]);
      }
    }
  }

  lemma EntryStaysTrue(c: Client, ttl: Ttl, rows: Table, x: Option<Entry>, id: Id, op: Op, now: nat, y: Entry)
    requires Commit(c, ttl, x, op, now) == Ok(Some(y)) && (x.Some? ==> EntryTrue(rows, id, x.value))
    requires forall b | b in BatchOf(op) :: IntentTrue(rows, b)
    requires op.Finish? && op.t.replacement.Some? ==> Published(rows, id)
    ensures EntryTrue(rows, id, y)
  {
    if y.record.replacement.Some? { CallYields(c, ttl, x, op, now, y); }
    forall k | k in y.intents ensures IntentTrue(rows, y.intents[k].intent) { CallAdds(c, ttl, x, op, now, y, k); }
  }

  // ---- how an attempt ends ----

  /** A workflow that was not cancelled has no cancellation stored for its tasks. */
  lemma NoCancelStored(c: Client, row: Row, id: Id)
    requires RowOk(c, row) && !row.graph.cancelRequested && RowTask(row, id)
    ensures CancelId(row.graph, id) !in row.intents
  {
    var g := row.graph;
    if g.kind.Dag? {
      var i :| 0 <= i < |g.plan| && g.plan[i].kind.TaskNode? && g.plan[i].id == id;
      assert NodeInv(g, row.intents, i);
    } else if IsChild(g, id) {
      var n :| 0 <= n < |g.children| && ChildId(g.id, n) == id;
      assert ChildInv(g, row.intents, n);
    }
  }

  lemma PublishedReports(c: Client, s: System, e: Envelope, outcome: Outcome)
    requires Inv(c, s) && Published(s.rows, e.id)
    ensures ReportOk(s.rows, Completion(e.id, outcome))
  {
    hide Inv, RowOk, MembersTrue, Replaces, Storable;
    if TaskOf(e.id).Some? { RowOf(c, s, TaskOf(e.id).value); }
  }

  /** A relay that fails or cancels a task of a normal workflow holds the task's own failing intent. */
  lemma RelayedReports(c: Client, s: System, x: Intent, outcome: Outcome)
    requires Inv(c, s) && Fact(s, x) && (x.payload.Fail? || x.payload.CancelTask?)
    requires OutcomeFor(s, OfIntent(x), outcome)
    ensures ReportOk(s.rows, Completion(x.payload.envelope.id, outcome))
  {
    var g, id := x.source, x.payload.envelope.id;
    assert TaskOf(id) == Some(g) && g in s.rows && Out(s.rows[g], id) && StoredHere(s, x);
    hide Inv, Fact, RowOk, MembersTrue, Replaces, Storable, KnownId;
    RowOf(c, s, g);
    var row := s.rows[g];
    if Normal(row.graph) {
      NoCancelStored(c, row, id);
      RowIntents(c, row, x.id);
    }
  }

  lemma EndReports(c: Client, s: System, src: Source, e: Envelope, outcome: Outcome)
    requires Inv(c, s) && Truthful(s) && Answers(s, src, e) && OutcomeFor(s, src, outcome)
    ensures ReportOk(s.rows, Completion(e.id, outcome))
  {
    hide Inv, OutcomeFor, ReportOk, Published, EntriesTrue, Fact;
    match src
    case OfDelivery(r) => PublishedReports(c, s, e, outcome);
    case OfItem(held) =>
      assert PermitTrue(s.rows, Leased(held));
      PublishedReports(c, s, e, outcome);
    case OfIntent(x) =>
      RelayedFact(c, s, x);
      RelayedReports(c, s, x, outcome);
  }

  lemma CompletionTrue(rows: Table, e: Envelope, outcome: Outcome)
    requires ReportOk(rows, Completion(e.id, outcome))
    ensures forall x | x in CompletionIntents(e, outcome) :: IntentTrue(rows, x)
  {
  }

  lemma FinishStaysTrue(c: Client, ttl: Ttl, s: System, src: Source, e: Envelope, t: Transition, at: nat)
    requires Truthful(s) && (forall x | x in t.intents :: IntentTrue(s.rows, x))
    requires t.replacement.Some? ==> Published(s.rows, e.id)
    ensures Truthful(DoFinish(c, ttl, s, src, e, t, at))
  {
    hide Truthful, IntentTrue, Published, Call, Answers;
    if Call(c, ttl, s, e.id, Finish(t, at)).Some? {
      CallStaysTrue(c, ttl, s, e.id, Finish(t, at));
      GrantStaysTrue(Call(c, ttl, s, e.id, Finish(t, at)).value, Done(src));
    }
  }

  lemma AttemptStaysTrue(c: Client, ttl: Ttl, s: System, a: Action)
    requires Inv(c, s) && Truthful(s) && (a.EndFor? || a.RetryFor? || a.YieldFor?)
    ensures Truthful(Do(c, ttl, s, a))
  {
    hide Inv, PreparedFor, Published, EntriesTrue, PermitsTrue, OutcomeFor, ReportOk;
    match a
    case EndFor(src, e, fence, owner, outcome, at) =>
      if OutcomeFor(s, src, outcome) && Answers(s, src, e) {
        EndReports(c, s, src, e, outcome);
        CompletionTrue(s.rows, e, outcome);
        FinishStaysTrue(c, ttl, s, src, e, Ending(e, fence, owner, outcome), at);
      }
    case RetryFor(r, fence, owner, eta, at) =>
      if r < |s.sent| {
        FinishStaysTrue(c, ttl, s, OfDelivery(r), s.sent[r], Retrying(s.sent[r], fence, owner, eta), at);
      }
    case YieldFor(r, fence, owner, g, at) =>
      if r < |s.sent| {
        FinishStaysTrue(c, ttl, s, OfDelivery(r), s.sent[r], Yielding(s.sent[r], fence, owner, g), at);
      }
  }

  // ---- the other steps that leave the workflow store alone ----

  /** A call that brings no intents of its own. */
  lemma PlainCallStaysTrue(c: Client, ttl: Ttl, s: System, id: Id, op: Op)
    requires Truthful(s) && Call(c, ttl, s, id, op).Some? && !op.Finish? && !op.Resolve?
    ensures var s1 := Call(c, ttl, s, id, op).value;
            s1.rows == s.rows && s1.permits == s.permits && Truthful(s1)
  {
    hide Truthful, IntentTrue, Call;
    CallStaysTrue(c, ttl, s, id, op);
  }

  lemma StoredIsTrue(c: Client, s: System, x: Intent)
    requires Inv(c, s) && Truthful(s) && StoredHere(s, x)
    ensures IntentTrue(s.rows, x)
  {
    if OfGraph(x) {
      StoredIsFact(c, s, x);
      hide Inv, Truthful, RowOk, MembersTrue, Replaces, Storable, KnownId;
      RowOf(c, s, x.source);
      RowIntents(c, s.rows[x.source], x.id);
    } else {
      hide Inv, TransportTrue, PermitsTrue, IntentTrue;
      assert EntryTrue(s.rows, x.source, s.entries[x.source]);
    }
  }

  lemma SubmitStaysTrue(c: Client, s: System, e: Envelope, later: bool)
    requires Truthful(s)
    ensures Truthful(DoSubmit(c, s, e, later))
  {
    hide Truthful, Transport;
    if DoSubmit(c, s, e, later) != s {
      TransportStaysTrue(c, s, e, later);
      GrantStaysTrue(Transport(c, s, e, later).value, Registering(e, None));
    }
  }

  lemma RelayStaysTrue(c: Client, s: System, x: Intent, later: bool)
    requires Truthful(s)
    ensures Truthful(DoRelayPublish(c, s, x, later))
  {
    if DoRelayPublish(c, s, x, later) != s {
      assert PermitTrue(s.rows, Relaying(x));
      hide Truthful, Transport, Published;
      TransportStaysTrue(c, s, x.payload.envelope, later);
      GrantStaysTrue(Transport(c, s, x.payload.envelope, later).value, Registering(x.payload.envelope, Some(x)));
    }
  }

  lemma FireStaysTrue(c: Client, s: System, e: Envelope)
    requires Truthful(s)
    ensures Truthful(DoFirePublish(c, s, e))
  {
    if DoFirePublish(c, s, e) != s {
      assert PermitTrue(s.rows, Leased(e));
      hide Truthful, Enqueue, Published;
      assert Transport(c, s, e, false) == Enqueue(c, s, e);
      TransportStaysTrue(c, s, e, false);
      GrantStaysTrue(Enqueue(c, s, e).value, Done(OfItem(e)));
    }
  }

  lemma TakeStaysTrue(c: Client, s: System, x: Intent)
    requires Inv(c, s) && Truthful(s)
    ensures Truthful(DoTake(s, x))
  {
    hide Inv, Truthful, StoredHere, IntentTrue;
    if DoTake(s, x) != s { StoredIsTrue(c, s, x); GrantStaysTrue(s, Relaying(x)); }
  }

  lemma AcceptedStaysTrue(c: Client, ttl: Ttl, s: System, e: Envelope, x: Option<Intent>, state: State)
    requires Truthful(s)
    ensures Truthful(DoRegisterAccepted(c, ttl, s, e, x, state))
  {
    hide Truthful, Call;
    if Call(c, ttl, s, e.id, Register(e, state)).Some? {
      PlainCallStaysTrue(c, ttl, s, e.id, Register(e, state));
      if x.Some? { GrantStaysTrue(Call(c, ttl, s, e.id, Register(e, state)).value, Done(OfIntent(x.value))); }
    }
  }

  lemma LeaseStaysTrue(s: System, key: Key)
    requires Truthful(s)
    ensures Truthful(DoLease(s, key))
  {
    hide EntriesTrue, PermitsTrue, Published;
    if DoLease(s, key) != s { GrantStaysTrue(s, Leased(s.items[key])); }
  }

  lemma SkipStaysTrue(s: System, src: Source)
    requires Truthful(s)
    ensures Truthful(DoSkip(s, src))
  {
    hide Truthful, RegisterEnvelope, Cancels;
    GrantStaysTrue(s, Done(src));
  }

  /** Truth does not depend on the queue, the marks or the clock. */
  lemma SameStaysTrue(s: System, s': System)
    requires Truthful(s) && s'.rows == s.rows && s'.entries == s.entries && s'.permits == s.permits &&
             s'.sent == s.sent && s'.items == s.items
    ensures Truthful(s')
  {
    hide EntriesTrue, PermitsTrue, TransportTrue;
  }

  lemma TransportActionStaysTrue(c: Client, ttl: Ttl, s: System, a: Action)
    requires Inv(c, s) && Truthful(s)
    requires a.Submit? || a.Take? || a.RelayPublish? || a.RegisterAccepted? || a.Lease? || a.FirePublish? || a.Skip? ||
             a.Ack? || a.Reject? || a.CommitFire? || a.ForgetPublication? || a.Tick?
    ensures Truthful(Do(c, ttl, s, a))
  {
    hide Inv, Truthful;
    hide DoSubmit, DoTake, DoRelayPublish, DoRegisterAccepted, DoLease, DoFirePublish, DoRegisterFor, DoClaimFor,
           DoFinish, DoSkip, DoMark, DoRecordCompletion, DoReleasePinned, DoCreateReplacement, DoResolveTask,
           DoCancelByTask, DoApplyCanvas, DoRepair, Call, CancelGraphSpec, PreparedFor, WellFormed, OutcomeFor, Ending,
           Retrying, Yielding, WithRow, Touching;
    match a
    case Submit(e, later) => SubmitStaysTrue(c, s, e, later);
    case Take(x) => TakeStaysTrue(c, s, x);
    case RelayPublish(x, later) => RelayStaysTrue(c, s, x, later);
    case RegisterAccepted(e, x, state) => AcceptedStaysTrue(c, ttl, s, e, x, state);
    case Lease(key) => LeaseStaysTrue(s, key);
    case FirePublish(e) => FireStaysTrue(c, s, e);
    case Skip(src) => SkipStaysTrue(s, src);
    case Ack(r) => SameStaysTrue(s, s.(unacked := s.unacked - {r}));
    case Reject(r) =>
      if r < |s.sent| {
        SameStaysTrue(s, s.(unacked := s.unacked - {r}, quarantine := s.quarantine + {KeyOf(s.sent[r])}));
      }
    case CommitFire(e) => SameStaysTrue(s, s.(delayed := s.delayed - {KeyOf(e)}));
    case ForgetPublication(key) => SameStaysTrue(s, s.(published := s.published - {key}));
    case Tick(now) => SameStaysTrue(s, s.(clock := now));
  }

  lemma ClaimStaysTrue(c: Client, ttl: Ttl, s: System, src: Source, owner: string, lease: nat, at: nat)
    requires Truthful(s)
    ensures Truthful(DoClaimFor(c, ttl, s, src, owner, lease, at))
  {
    hide Truthful, Call, ClaimEnvelope, Past, CancelSeen;
    var held := ClaimEnvelope(s, src);
    if held.Some? && Call(c, ttl, s, held.value.id, Claim(held.value, owner, lease, at)).Some? {
      PlainCallStaysTrue(c, ttl, s, held.value.id, Claim(held.value, owner, lease, at));
      var s1 := Call(c, ttl, s, held.value.id, Claim(held.value, owner, lease, at)).value;
      GrantStaysTrue(s1, Done(src));
      var y := ResultStore.Find(s1.entries, held.value.id);
      if y.Some? { GrantStaysTrue(s1, Attempt(held.value, y.value.record.fence, owner)); }
    }
  }

  lemma FinalizeBatch(r: Record, m: Completion, valid: bool)
    ensures var t := Finalize(r, m, valid);
            t.intents == CompletionIntents(r.envelope, Outcome(t.state, t.output, t.failure))
  {
    hide CompletionIntents;
  }

  lemma ResolveStaysTrue(c: Client, ttl: Ttl, s: System, x: Intent, valid: bool, at: nat)
    requires Inv(c, s) && Truthful(s)
    ensures Truthful(DoResolveTask(c, ttl, s, x, valid, at))
  {
    hide Inv, Truthful, Published, Call, ReportOk, Finalize, CompletionIntents, IntentTrue, Known, Obligations, Sound;
    if DoResolveTask(c, ttl, s, x, valid, at) != s {
      var id := x.payload.target;
      var r := s.entries[id].record;
      var t := Finalize(r, x.payload.completion, valid);
      var op := Resolve(x.payload.workflow, t, at);
      ResolvedIsReplaced(c, ttl, s, id, op);
      ObligationsOf(c, s, id);
      var outcome := Outcome(t.state, t.output, t.failure);
      PublishedReports(c, s, r.envelope, outcome);
      CompletionTrue(s.rows, r.envelope, outcome);
      FinalizeBatch(r, x.payload.completion, valid);
      CallStaysTrue(c, ttl, s, id, op);
      GrantStaysTrue(Call(c, ttl, s, id, op).value, Done(OfIntent(x)));
    }
  }

  lemma ResolvedIsReplaced(c: Client, ttl: Ttl, s: System, id: Id, op: Op)
    requires Truthful(s) && op.Resolve? && id in s.entries && Call(c, ttl, s, id, op).Some?
    ensures Published(s.rows, id)
  {
    hide Published, TransportTrue, PermitsTrue, ApplyReplacementOutcome, UpdateStep;
    assert EntryTrue(s.rows, id, s.entries[id]);
  }

  lemma RegisterStaysTrue(c: Client, ttl: Ttl, s: System, src: Source, state: State)
    requires Truthful(s)
    ensures Truthful(DoRegisterFor(c, ttl, s, src, state))
  {
    hide Truthful, Call, RegisterEnvelope;
    var e := RegisterEnvelope(s, src);
    if e.Some? && Call(c, ttl, s, e.value.id, Register(e.value, state)).Some? {
      PlainCallStaysTrue(c, ttl, s, e.value.id, Register(e.value, state));
    }
  }

  lemma MarkStaysTrue(c: Client, ttl: Ttl, s: System, x: Intent, fence: nat, owner: string)
    requires Truthful(s)
    ensures Truthful(DoMark(c, ttl, s, x, fence, owner))
  {
    hide Truthful, Call, OfGraph;
    SameStaysTrue(s, s.(marked := s.marked + {x.id}));
    if Call(c, ttl, s, x.source, MarkIntent(x.id, fence, owner)).Some? {
      PlainCallStaysTrue(c, ttl, s, x.source, MarkIntent(x.id, fence, owner));
    }
  }

  lemma ReleaseStaysTrue(c: Client, ttl: Ttl, s: System, x: Intent)
    requires Truthful(s)
    ensures Truthful(DoReleasePinned(c, ttl, s, x))
  {
    hide Truthful, Call;
    if DoReleasePinned(c, ttl, s, x) != s {
      PlainCallStaysTrue(c, ttl, s, x.payload.target, ReleasePin);
      GrantStaysTrue(Call(c, ttl, s, x.payload.target, ReleasePin).value, Done(OfIntent(x)));
    }
  }

  lemma TaskActionStaysTrue(c: Client, ttl: Ttl, s: System, a: Action)
    requires Inv(c, s) && Truthful(s) &&
             (a.RegisterFor? || a.ClaimFor? || a.Touch? || a.Mark? || a.ReleasePinned? || a.ResolveTask? || a.Remove?)
    ensures Truthful(Do(c, ttl, s, a))
  {
    hide Inv, Truthful;
    hide DoSubmit, DoTake, DoRelayPublish, DoRegisterAccepted, DoLease, DoFirePublish, DoRegisterFor, DoClaimFor,
           DoFinish, DoSkip, DoMark, DoRecordCompletion, DoReleasePinned, DoCreateReplacement, DoResolveTask,
           DoCancelByTask, DoApplyCanvas, DoRepair, Call, CancelGraphSpec, PreparedFor, WellFormed, OutcomeFor, Ending,
           Retrying, Yielding, WithRow;
    match a
    case RegisterFor(src, state) => RegisterStaysTrue(c, ttl, s, src, state);
    case ClaimFor(src, owner, lease, at) => ClaimStaysTrue(c, ttl, s, src, owner, lease, at);
    case Touch(id, op) => if Touching(op) && Call(c, ttl, s, id, op).Some? { PlainCallStaysTrue(c, ttl, s, id, op); }
    case Mark(x, fence, owner) => MarkStaysTrue(c, ttl, s, x, fence, owner);
    case ReleasePinned(x) => ReleaseStaysTrue(c, ttl, s, x);
    case ResolveTask(x, valid, at) => ResolveStaysTrue(c, ttl, s, x, valid, at);
    case Remove(id, at) =>
      if Call(c, ttl, s, id, Delete(at)).Some? { PlainCallStaysTrue(c, ttl, s, id, Delete(at)); }
  }
}
