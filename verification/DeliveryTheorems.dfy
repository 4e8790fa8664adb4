/** What holds in every state of every run of the delivery protocol: no task is lost, an acknowledged
    intent was accepted, nothing a live workflow needs is erased, and repair agrees with the relay. */
module DeliveryTheorems {
  import opened Protocol
  import opened Records
  import opened TaskLife
  import opened WorkflowStore
  import opened DagInvariant
  import opened DagMeaning
  import opened Rows
  import opened Delivery
  import opened DeliveryFacts
  import opened DeliveryRuns
  import Repair

  /** An undelivered intent that publishes, fails or cancels this attempt. */
  predicate PendingIntent(s: System, id: Id, r: nat) {
    if r > 0 then id in s.entries && RetryId(id, r) in s.entries[id].intents &&
       !s.entries[id].intents[RetryId(id, r)].delivered
    else TaskOf(id).Some? && TaskOf(id).value in s.rows && PendingDispatch(s, s.rows[TaskOf(id).value], id)
  }

  predicate PendingDispatch(s: System, row: Row, id: Id) {
    var d, k := DispatchId(row.graph, id), CancelId(row.graph, id);
    (d in row.intents && d !in s.marked) || (k in row.intents && row.intents[k].payload.Fail? && k !in s.marked)
  }

  lemma RetryCovered(c: Client, s: System, id: Id)
    requires Inv(c, s) && id in s.entries && id !in s.removed && s.entries[id].record.envelope.retries > 0
    ensures var k := (id, s.entries[id].record.envelope.retries); Reached(s, k) || PendingIntent(s, id, k.1)
  {
    hide Inv, Known, Sound, Reached;
    ObligationsOf(c, s, id);
    var r := s.entries[id].record.envelope.retries;
    RetryStored(s, id, s.entries[id]);
    ItemOf(c, s, id, RetryId(id, r));
    if s.entries[id].intents[RetryId(id, r)].delivered { RetryItem(s, id, r, s.entries[id].intents[RetryId(id, r)]); }
  }

  lemma RetryStored(s: System, id: Id, entry: Entry)
    requires Obligations(s, id, entry) && id !in s.removed && entry.record.envelope.retries > 0
    ensures RetryId(id, entry.record.envelope.retries) in entry.intents
  {
    hide Reached, ReleasedTask;
  }

  lemma RetryItem(s: System, id: Id, r: nat, item: Stored)
    requires StoredOk(s, id, RetryId(id, r), item) && id !in s.removed && item.delivered && r > 0
    ensures Reached(s, (id, r))
  {
    hide Known, Reached;
  }

  lemma DispatchCovered(c: Client, s: System, id: Id)
    requires Inv(c, s) && TaskOf(id).Some? && KnownId(s, id)
    ensures Reached(s, (id, 0)) || PendingIntent(s, id, 0)
  {
    hide Inv, RowOk, MembersTrue, Replaces, Obligations, Sound;
    var g := TaskOf(id).value;
    var row := s.rows[g];
    RowOf(c, s, g);
    var k := if DispatchId(row.graph, id) in row.intents then DispatchId(row.graph, id) else CancelId(row.graph, id);
    RowIntents(c, row, k);
    hide Reached;
    if k in s.marked { MarkedOf(c, s, g, k); MarkedReaches(s, row, id, k); }
  }

  lemma MarkedReaches(s: System, row: Row, id: Id, k: Id)
    requires k in row.intents && RowIntentFact(row, row.intents[k]) && row.intents[k].id == k &&
             Accepted(s, row.intents[k])
    requires k == DispatchId(row.graph, id) || (k == CancelId(row.graph, id) && row.intents[k].payload.Fail?)
    ensures Reached(s, (id, 0))
  {
  }

  /** No task is lost. In every state of every run, with any process stopped at any point: a task
      that neither ended nor yielded, and whose record was not deleted after its tombstone, has an
      unacknowledged delivery or a delayed item for its current attempt, or an undelivered intent
      that will produce one, unless the attempt was quarantined. */
  lemma NoTaskLost(c: Client, ttl: Ttl, s: System, id: Id)
    requires Arises(c, ttl, s) && id in s.entries && id !in s.removed
    requires !s.entries[id].record.state.Terminal() && s.entries[id].record.replacement.None?
    ensures var k := (id, s.entries[id].record.envelope.retries);
            InQueue(s, k) || k in s.delayed || k in s.quarantine || PendingIntent(s, id, k.1)
  {
    hide Arises, Inv, InQueue, PendingIntent, Known, Sound;
    ArisesInv(c, ttl, s);
    ObligationsOf(c, s, id);
    if s.entries[id].record.envelope.retries > 0 {
      RetryCovered(c, s, id);
    } else if TaskOf(id).Some? {
      KnownHasId(s, s.entries[id].record.envelope);
      DispatchCovered(c, s, id);
    }
  }

  lemma KnownHasId(s: System, e: Envelope)
    requires Known(s, e)
    ensures KnownId(s, e.id)
  {
    hide KnownId;
  }

  /** A yielded task is not lost either: its replacement is still to be created, still running, or
      has stored a report that is still to be delivered. */
  lemma YieldedNotLost(c: Client, ttl: Ttl, s: System, id: Id)
    requires Arises(c, ttl, s) && id in s.entries && id !in s.removed
    requires !s.entries[id].record.state.Terminal() && s.entries[id].record.replacement.Some?
    ensures var g, report := Stable(id, ReplacementLabel),
              Stable(Stable(id, ReplacementLabel), ReplacementCompletionLabel);
            s.entries[id].record.replacement == Some(g) && ReplaceId(id) in s.entries[id].intents &&
            (!s.entries[id].intents[ReplaceId(id)].delivered ||
             (g in s.rows &&
             (!s.rows[g].graph.state.Terminal() || (report in s.rows[g].intents && report !in s.marked))))
  {
    hide Arises, Inv, Known, Sound, Reached;
    ArisesInv(c, ttl, s);
    ObligationsOf(c, s, id);
    ItemOf(c, s, id, ReplaceId(id));
    ReplaceItem(s, id, s.entries[id].intents[ReplaceId(id)]);
    hide StoredOk, Obligations;
    if SettledRow(s, Stable(id, ReplacementLabel)) { ReportMarked(c, s, id); }
  }

  lemma ReplaceItem(s: System, id: Id, item: Stored)
    requires StoredOk(s, id, ReplaceId(id), item) && id !in s.removed
    ensures item.delivered ==> Stable(id, ReplacementLabel) in s.rows
  {
    hide Known;
  }

  lemma ReportMarked(c: Client, s: System, id: Id)
    requires Inv(c, s) && SettledRow(s, Stable(id, ReplacementLabel))
    ensures var g := Stable(id, ReplacementLabel);
            var report := Stable(g, ReplacementCompletionLabel);
            report in s.rows[g].intents && (report in s.marked ==> EndedOf(s, id))
  {
    hide Inv, MembersTrue;
    var g := Stable(id, ReplacementLabel);
    RowOf(c, s, g);
    SettledReports(c, s.rows[g]);
    hide RowOk;
    var report := Stable(g, ReplacementCompletionLabel);
    RowIntents(c, s.rows[g], report);
    if report in s.marked { MarkedOf(c, s, g, report); }
  }

  lemma SettledReports(c: Client, row: Row)
    requires RowOk(c, row) && row.graph.state.Terminal() && row.graph.originTask.Some?
    ensures Stable(row.graph.id, ReplacementCompletionLabel) in row.intents
  {
  }

  /** Marked delivered means accepted: of every intent a live source has marked, the target has
      what the intent was for. */
  lemma DeliveredWasAccepted(c: Client, ttl: Ttl, s: System, x: Intent)
    requires Arises(c, ttl, s) && StoredHere(s, x) && Delivered(s, x) && (OfGraph(x) || x.source !in s.removed)
    ensures Accepted(s, x)
  {
    hide Arises, Inv, Accepted, Fact;
    ArisesInv(c, ttl, s);
    if OfGraph(x) { MarkedOf(c, s, x.source, x.id); } else { ItemOf(c, s, x.source, x.id); }
  }

  /** Every stored row, in every run, satisfies the workflow invariants. */
  lemma RowsAreReachable(c: Client, ttl: Ttl, s: System, g: Id)
    requires Arises(c, ttl, s) && g in s.rows
    ensures RowOk(c, s.rows[g]) && s.rows[g].graph.id == g
  {
    hide Arises, Inv, RowOk;
    ArisesInv(c, ttl, s);
    RowOf(c, s, g);
  }

  /** The stored completion of an ended, pinned task. */
  predicate CompletionExact(s: System, id: Id, g: Id)
    requires id in s.entries
  {
    var r, k := s.entries[id].record, Stable(id, CompletionLabel);
    k in s.entries[id].intents &&
    s.entries[id].intents[k].intent.payload == Complete(g, Completion(id, Outcome(r.state, r.output, r.failure)))
  }

  /** Cross-store pin safety: while a workflow is not settled, no record of its tasks is deleted,
      unpinned or emptied, and an ended task's completion is stored with its full output. */
  lemma PinSafety(c: Client, ttl: Ttl, s: System, g: Id, id: Id)
    requires Arises(c, ttl, s) && TaskOf(id) == Some(g) && g in s.rows && !s.rows[g].graph.state.Terminal()
    ensures id !in s.removed
    ensures id in s.entries ==>
              s.entries[id].record.pinned && (s.entries[id].record.state.Terminal() ==> CompletionExact(s, id, g))
  {
    hide Arises, Inv, Sound, Known, Obligations;
    ArisesInv(c, ttl, s);
    LiveIsNotRemoved(c, s, id);
    if id in s.entries {
      ObligationsOf(c, s, id);
      LivePinned(s, id, s.entries[id]);
      if s.entries[id].record.state.Terminal() { LiveCompletion(c, s, g, id); }
    }
  }

  lemma LiveIsNotRemoved(c: Client, s: System, id: Id)
    requires Inv(c, s) && TaskOf(id).Some? && TaskOf(id).value in s.rows &&
             !s.rows[TaskOf(id).value].graph.state.Terminal()
    ensures id !in s.removed
  {
    assert id in s.removed ==> ReleasedTask(s, id);
  }

  lemma LivePinned(s: System, id: Id, entry: Entry)
    requires Obligations(s, id, entry) && TaskOf(id).Some? && TaskOf(id).value in s.rows &&
             !s.rows[TaskOf(id).value].graph.state.Terminal()
    ensures entry.record.pinned
  {
    hide Reached;
  }

  lemma LiveCompletion(c: Client, s: System, g: Id, id: Id)
    requires Inv(c, s) && TaskOf(id) == Some(g) && id in s.entries && id !in s.removed &&
             s.entries[id].record.pinned && s.entries[id].record.state.Terminal()
    ensures CompletionExact(s, id, g)
  {
    hide Inv, Reached, Sound;
    ObligationsOf(c, s, id);
    ItemOf(c, s, id, Stable(id, CompletionLabel));
    CompletionIsExact(s, id, s.entries[id].intents[Stable(id, CompletionLabel)]);
    hide StoredOk, Obligations;
  }

  /** In every state of every run, repair accepts a stored graph if and only if its envelopes are
      valid as they are stored. */
  lemma RepairAcceptsStored(c: Client, ttl: Ttl, s: System, g: Id)
    requires Arises(c, ttl, s) && g in s.rows
    ensures Repair.RepairShape(c, s.rows[g].graph, g) <==> Repair.EnvelopesValid(c, s.rows[g].graph)
  {
    hide Arises, Inv, RowOk, MembersTrue, Repair.RepairShape, Repair.EnvelopesValid, Storable;
    ArisesInv(c, ttl, s);
    RowOf(c, s, g);
    Repair.StoredGraphsPass(c, s.rows[g]);
  }

  /** Repair agrees with the relay: for a task that its graph has not recorded, the member repair
      would record is the one the stored completion intent would record. */
  lemma RepairAgreesWithRelay(c: Client, ttl: Ttl, s: System, g: Id, id: Id)
    requires Arises(c, ttl, s) && g in s.rows && id in s.entries && id !in s.removed && TaskOf(id) == Some(g)
    requires id !in s.rows[g].graph.members && s.entries[id].record.state.Terminal()
    ensures var k := Stable(id, CompletionLabel);
            k in s.entries[id].intents &&
            s.entries[id].intents[k].intent.payload == Complete(g, RepairCompletion(s, s.entries[id].record))
  {
    hide Arises, Inv;
    ArisesInv(c, ttl, s);
    UnrecordedIsExact(c, s, g, id);
  }

  /** Whoever recorded it, relay or repair, a graph's member for a task is what the task's stored
      completion reports: exactly in the normal mode, otherwise up to an output dropped by a budget
      abort. */
  lemma MembersAreAuthoritative(c: Client, ttl: Ttl, s: System, g: Id, id: Id)
    requires Arises(c, ttl, s) && g in s.rows && id in s.rows[g].graph.members && TaskOf(id).Some?
    ensures MemberTrue(s, id, s.rows[g].graph.members[id], Normal(s.rows[g].graph))
  {
    hide Arises, Inv, RowOk, MemberTrue;
    ArisesInv(c, ttl, s);
    RowOf(c, s, g);
  }

  /** A workflow task has a stored completion exactly when it ended, and it reports how. */
  lemma CompletionStoredOnce(c: Client, ttl: Ttl, s: System, id: Id)
    requires Arises(c, ttl, s) && id in s.entries && id !in s.removed && s.entries[id].record.envelope.workflow.Some?
    ensures var entry, k := s.entries[id], Stable(id, CompletionLabel);
            (entry.record.state.Terminal() <==> k in entry.intents) &&
            (k in entry.intents ==>
              entry.intents[k].intent.payload.Complete? && EndedWith(s, entry.intents[k].intent.payload.completion)) &&
            forall j | j in entry.intents && entry.intents[j].intent.payload.Complete? :: j == k
  {
    hide Arises, Inv, EndedWith, Fact, Known, Sound, Reached;
    ArisesInv(c, ttl, s);
    ObligationsOf(c, s, id);
    var entry, k := s.entries[id], Stable(id, CompletionLabel);
    forall j | j in entry.intents
      ensures entry.intents[j].intent.payload.Complete? ==> j == k
      ensures j == k ==>
                entry.intents[j].intent.payload.Complete? &&
                EndedWith(s, entry.intents[j].intent.payload.completion) && entry.record.state.Terminal()
    {
      ItemOf(c, s, id, j);
      CompletionKey(s, id, j, entry.intents[j]);
    }
  }

  lemma CompletionKey(s: System, id: Id, j: Id, item: Stored)
    requires StoredOk(s, id, j, item) && id in s.entries && id !in s.removed
    ensures item.intent.payload.Complete? <==> j == Stable(id, CompletionLabel)
    ensures item.intent.payload.Complete? ==>
              EndedWith(s, item.intent.payload.completion) && s.entries[id].record.state.Terminal()
  {
    hide Known;
  }
}
