/** What every process may rely on: facts about tasks, intents and permits that no later step
    can undo, and the invariant of the whole system made of them. */
module DeliveryFacts {
  import opened Protocol
  import opened Records
  import opened TaskLife
  import opened WorkflowStore
  import opened DagInvariant
  import opened DagMeaning
  import opened Rows
  import opened Delivery
  import DagRuns

  // ---- facts ----

  predicate PastOf(s: System, k: Key) { k.0 in s.removed || (k.0 in s.entries && Past(s.entries[k.0].record, k.1)) }

  predicate EndedOf(s: System, id: Id) { id in s.removed || (id in s.entries && s.entries[id].record.state.Terminal()) }

  predicate InQueue(s: System, k: Key) { exists i | i in s.unacked :: i < |s.sent| && KeyOf(s.sent[i]) == k }

  /** The attempt is in the queue, quarantined, or over. */
  predicate Served(s: System, k: Key) { InQueue(s, k) || k in s.quarantine || PastOf(s, k) }

  predicate Reached(s: System, k: Key) { Served(s, k) || k in s.delayed }

  /** A derived identity belongs to a stored workflow that handed the task out. */
  predicate KnownId(s: System, id: Id) {
    TaskOf(id).Some? ==> TaskOf(id).value in s.rows && Out(s.rows[TaskOf(id).value], id)
  }

  predicate Known(s: System, e: Envelope) {
    KnownId(s, e.id) && e.workflow == TaskOf(e.id) &&
    (e.retries > 0 ==> e.id in s.removed || (e.id in s.entries && e.retries <= s.entries[e.id].record.envelope.retries))
  }

  /** The task ended with this outcome; its output may have been erased after the pin was released. */
  predicate EndedWith(s: System, m: Completion) {
    m.id in s.removed ||
    (m.id in s.entries &&
     var r := s.entries[m.id].record;
     r.state == m.outcome.state && r.failure == m.outcome.failure &&
     (r.output == m.outcome.output || (r.output.None? && !r.pinned)))
  }

  predicate SettledRow(s: System, id: Id) { id in s.rows && s.rows[id].graph.state.Terminal() }

  /** A workflow's task may be let go: its graph is settled and has recorded it. */
  predicate ReleasedTask(s: System, id: Id) {
    TaskOf(id).Some? ==> SettledRow(s, TaskOf(id).value) && id in s.rows[TaskOf(id).value].graph.members
  }

  /** A recorded member is what the task's stored completion reports: exactly, or up to a dropped output. */
  predicate MemberTrue(s: System, id: Id, m: Completion, exact: bool) {
    id in s.removed ||
    (id in s.entries && Stable(id, CompletionLabel) in s.entries[id].intents &&
     var x := s.entries[id].intents[Stable(id, CompletionLabel)].intent;
     x.payload.Complete? && Kept(x.payload.completion, m) && (exact ==> x.payload.completion == m))
  }

  predicate MembersTrue(s: System, row: Row) {
    forall id | id in row.graph.members && TaskOf(id).Some? ::
      MemberTrue(s, id, row.graph.members[id], Normal(row.graph))
  }

  /** A graph's intent about one of its own tasks. */
  predicate GraphTask(s: System, x: Intent, e: Envelope) {
    OfGraph(x) && e.retries == 0 && TaskOf(e.id) == Some(x.source) && Known(s, e)
  }

  /** What an intent that was stored once says about the system from then on. */
  predicate Fact(s: System, x: Intent) {
    (StoredHere(s, x) || (!OfGraph(x) && x.source in s.removed)) && x.id.Stable? && x.id.parent == x.source &&
    match x.payload
    case Publish(e) =>
      if OfGraph(x) then GraphTask(s, x, e)
      else e.retries > 0 && e.id == x.source && x.id == RetryId(e.id, e.retries) && Known(s, e)
    case Fail(e, _, _) => GraphTask(s, x, e)
    case CancelTask(e) => GraphTask(s, x, e)
    case Complete(w, m) =>
      x.id == Stable(x.source, CompletionLabel) && m.id == x.source && TaskOf(m.id) == Some(w) && KnownId(s, m.id) &&
      m.outcome.state.Terminal() && EndedWith(s, m)
    case Unpin(t) => OfGraph(x) && ReleasedTask(s, t)
    case Replace(g) =>
      x.id == ReplaceId(x.source) && (DagRuns.Initial(g) || Oversized(g)) && !g.cancelRequested &&
      g.originTask == Some(x.source) && g.id == Stable(x.source, ReplacementLabel) &&
      (x.source in s.removed || (x.source in s.entries && s.entries[x.source].record.replacement == Some(g.id)))
    case CompleteReplacement(w, t, m) =>
      OfGraph(x) && w == x.source && SettledRow(s, w) && s.rows[w].graph.originTask == Some(t) && m.id == t &&
      m.outcome.state.Terminal()
    case CancelWorkflow(w, e) => x.id == Stable(x.source, ReplacementCancelLabel) &&
                                 w == Stable(x.source, ReplacementLabel)
  }

  /** The target of an intent has accepted it. */
  predicate Accepted(s: System, x: Intent) {
    match x.payload
    case Publish(e) => Reached(s, KeyOf(e))
    case Fail(e, _, _) => PastOf(s, KeyOf(e))
    case CancelTask(e) => e.id in s.removed || (e.id in s.entries && CancelSeen(s.entries[e.id].record))
    case Complete(w, m) => w in s.rows && m.id in s.rows[w].graph.members
    case Unpin(t) => t in s.removed || (t in s.entries && !s.entries[t].record.pinned)
    case Replace(g) => g.id in s.rows
    case CompleteReplacement(_, t, _) => EndedOf(s, t)
    case CancelWorkflow(w, _) => w in s.rows && (s.rows[w].graph.cancelRequested || s.rows[w].graph.state.Terminal())
  }

  /** An acquired attempt: its fence is current only while the record is still on that attempt. */
  predicate AttemptOk(s: System, e: Envelope, fence: nat) {
    e.id in s.removed ||
    (e.id in s.entries &&
     var r := s.entries[e.id].record;
     r.digest == Digest(e) && fence <= r.fence &&
     (r.fence == fence && r.state == Running && r.replacement.None? ==> r.envelope.retries == e.retries))
  }

  predicate PermitOk(s: System, p: Permit) {
    match p
    case Attempt(e, fence, owner) => owner != "" && Known(s, e) && AttemptOk(s, e, fence)
    case Registering(e, origin) => Known(s, e) && Reached(s, KeyOf(e)) &&
                                   (origin.Some? ==> Fact(s, origin.value) && origin.value.payload == Publish(e))
    case Relaying(x) => Fact(s, x)
    case Leased(e) => Known(s, e) && Reached(s, KeyOf(e))
    case Done(OfDelivery(r)) => r < |s.sent| && PastOf(s, KeyOf(s.sent[r]))
    case Done(OfIntent(x)) => Fact(s, x) && Accepted(s, x)
    case Done(OfItem(e)) => Served(s, KeyOf(e))
  }

  // ---- the invariant ----

  predicate SentOk(s: System, i: nat)
    requires i < |s.sent|
  {
    Known(s, s.sent[i]) && Served(s, KeyOf(s.sent[i]))
  }

  predicate ItemOk(s: System, k: Key)
    requires k in s.items
  {
    KeyOf(s.items[k]) == k && Known(s, s.items[k])
  }

  /** A graph with a replacement identity replaces exactly that task. */
  predicate Replaces(g: Graph) { g.id.Stable? && g.id.tag.ReplacementLabel? ==> g.originTask == Some(g.id.parent) }

  predicate RowStateOk(c: Client, s: System, g: Id)
    requires g in s.rows
  {
    s.rows[g].graph.id == g && Storable(c, s.rows[g].graph) && RowOk(c, s.rows[g]) && Replaces(s.rows[g].graph) &&
    MembersTrue(s, s.rows[g]) &&
    forall k | k in s.rows[g].intents && k in s.marked :: Accepted(s, s.rows[g].intents[k])
  }

  predicate StoredOk(s: System, id: Id, k: Id, item: Stored) {
    item.intent.id == k && item.intent.source == id && !OfGraph(item.intent) && Fact(s, item.intent) &&
    (item.delivered ==> id in s.removed || Accepted(s, item.intent))
  }

  /** What a record's state obliges its entry to have stored. */
  predicate Obligations(s: System, id: Id, entry: Entry) {
    var r := entry.record;
    (r.state.Terminal() && r.envelope.workflow.Some? ==> Stable(id, CompletionLabel) in entry.intents) &&
    (r.envelope.retries > 0 ==> id in s.removed || RetryId(id, r.envelope.retries) in entry.intents) &&
    (r.replacement.Some? ==> r.replacement.value == Stable(id, ReplacementLabel) && ReplaceId(id) in entry.intents) &&
    (TaskOf(id).None? && r.envelope.retries == 0 ==> id in s.removed || Reached(s, (id, 0))) &&
    (!r.pinned ==> ReleasedTask(s, id))
  }

  predicate EntryOk(c: Client, s: System, id: Id)
    requires id in s.entries
  {
    var entry := s.entries[id];
    entry.record.envelope.id == id && Sound(c, entry.record) && Known(s, entry.record.envelope) &&
    (forall k | k in entry.intents :: StoredOk(s, id, k, entry.intents[k])) && Obligations(s, id, entry)
  }

  predicate TransportOk(s: System) {
    (forall i | i in s.unacked :: i < |s.sent|) && (forall i | 0 <= i < |s.sent| :: SentOk(s, i)) &&
    (forall k | k in s.items :: ItemOk(s, k)) && (forall k | k in s.delayed :: k in s.items) &&
    (forall k | k in s.published :: KeyOf(s.published[k]) == k && Served(s, k))
  }

  predicate Inv(c: Client, s: System) {
    (forall p | p in s.permits :: PermitOk(s, p)) && TransportOk(s) &&
    (forall g | g in s.rows :: RowStateOk(c, s, g)) && (forall id | id in s.entries :: EntryOk(c, s, id)) &&
    (forall id | id in s.removed :: ReleasedTask(s, id)) &&
    (forall k | k in s.marked :: MarkOk(s, k))
  }

  /** Only stored graph intents are marked. */
  predicate MarkOk(s: System, k: Id) { k.Stable? && k.parent in s.rows && k in s.rows[k.parent].intents }

  // ---- reading the invariant ----

  lemma EntryOf(c: Client, s: System, id: Id)
    requires Inv(c, s) && id in s.entries
    ensures EntryOk(c, s, id)
  {
  }

  lemma ObligationsOf(c: Client, s: System, id: Id)
    requires Inv(c, s) && id in s.entries
    ensures s.entries[id].record.envelope.id == id && Sound(c, s.entries[id].record) &&
            Known(s, s.entries[id].record.envelope) && Obligations(s, id, s.entries[id])
  {
    EntryOf(c, s, id);
    hide Inv, Known, Obligations, Sound, StoredOk;
  }

  lemma ItemOf(c: Client, s: System, id: Id, k: Id)
    requires Inv(c, s) && id in s.entries && k in s.entries[id].intents
    ensures StoredOk(s, id, k, s.entries[id].intents[k])
  {
    EntryOf(c, s, id);
    hide Inv, Known, Obligations, Sound, StoredOk;
  }

  lemma RowOf(c: Client, s: System, g: Id)
    requires Inv(c, s) && g in s.rows
    ensures s.rows[g].graph.id == g && Storable(c, s.rows[g].graph) && RowOk(c, s.rows[g]) &&
            Replaces(s.rows[g].graph) && MembersTrue(s, s.rows[g])
  {
    assert RowStateOk(c, s, g);
    hide Inv, RowOk, Replaces, MembersTrue, Accepted, Storable;
  }

  lemma MarkedOf(c: Client, s: System, g: Id, k: Id)
    requires Inv(c, s) && g in s.rows && k in s.rows[g].intents && k in s.marked
    ensures Accepted(s, s.rows[g].intents[k])
  {
    assert RowStateOk(c, s, g);
    hide Inv, RowOk, Replaces, MembersTrue, Accepted, Storable;
  }

  // ---- facts last ----

  predicate EntryGrows(a: Entry, b: Entry) { RecordLater(a.record, b.record) && IntentsLater(a.intents, b.intents) }

  ghost predicate TransportGrows(s: System, s': System) {
    (forall k :: Served(s, k) ==> Served(s', k)) && (forall k :: Reached(s, k) ==> Reached(s', k))
  }

  ghost predicate RowsGrow(s: System, s': System) {
    forall g | g in s.rows :: g in s'.rows && RowGrows(s.rows[g], s'.rows[g])
  }

  predicate EntriesGrow(s: System, s': System) {
    forall id | id in s.entries :: id in s'.removed || (id in s'.entries && EntryGrows(s.entries[id], s'.entries[id]))
  }

  /** How one step may change the system. */
  ghost predicate Grows(s: System, s': System) {
    s.removed <= s'.removed && s.sent <= s'.sent && RowsGrow(s, s') && EntriesGrow(s, s') && TransportGrows(s, s')
  }

  lemma PastLasts(s: System, s': System, k: Key)
    requires s.removed <= s'.removed && EntriesGrow(s, s') && PastOf(s, k)
    ensures PastOf(s', k)
  {
  }

  lemma KnownIdLasts(s: System, s': System, id: Id)
    requires RowsGrow(s, s') && KnownId(s, id)
    ensures KnownId(s', id)
  {
    if TaskOf(id).Some? {
      var g := TaskOf(id).value;
      GrowsOut(s.rows[g], s'.rows[g], id);
    }
  }

  lemma KnownLasts(s: System, s': System, e: Envelope)
    requires s.removed <= s'.removed && RowsGrow(s, s') && EntriesGrow(s, s') && Known(s, e)
    ensures Known(s', e)
  {
    KnownIdLasts(s, s', e.id);
    hide RowsGrow, KnownId;
  }

  lemma StoredLasts(s: System, s': System, x: Intent)
    requires Grows(s, s') && (StoredHere(s, x) || (!OfGraph(x) && x.source in s.removed))
    ensures StoredHere(s', x) || (!OfGraph(x) && x.source in s'.removed)
  {
    hide TransportGrows;
  }

  lemma FactLasts(s: System, s': System, x: Intent)
    requires Grows(s, s') && Fact(s, x)
    ensures Fact(s', x)
  {
    StoredLasts(s, s', x);
    hide TransportGrows, StoredHere, OfGraph, DagRuns.Initial;
    match x.payload
    case Publish(e) => KnownLasts(s, s', e);
    case Fail(e, _, _) => KnownLasts(s, s', e);
    case CancelTask(e) => KnownLasts(s, s', e);
    case Complete(w, m) =>
      KnownIdLasts(s, s', m.id);
      hide RowsGrow, KnownId;
    case _ =>
  }

  lemma AcceptedLasts(s: System, s': System, x: Intent)
    requires Grows(s, s') && Accepted(s, x)
    ensures Accepted(s', x)
  {
    match x.payload
    case Publish(e) => hide RowsGrow, EntriesGrow;
    case Fail(e, _, _) => PastLasts(s, s', KeyOf(e));
    case _ => hide TransportGrows;
  }

  lemma AttemptLasts(s: System, s': System, e: Envelope, fence: nat)
    requires s.removed <= s'.removed && EntriesGrow(s, s') && AttemptOk(s, e, fence)
    ensures AttemptOk(s', e, fence)
  {
  }

  lemma PermitLasts(s: System, s': System, p: Permit)
    requires Grows(s, s') && PermitOk(s, p)
    ensures PermitOk(s', p)
  {
    hide Known, Fact, Accepted, AttemptOk, RowsGrow, EntriesGrow, Served, Reached;
    match p
    case Attempt(e, fence, _) => KnownLasts(s, s', e); AttemptLasts(s, s', e, fence);
    case Registering(e, origin) => KnownLasts(s, s', e); if origin.Some? { FactLasts(s, s', origin.value); }
    case Relaying(x) => FactLasts(s, s', x);
    case Leased(e) => KnownLasts(s, s', e);
    case Done(OfDelivery(r)) => PastLasts(s, s', KeyOf(s.sent[r]));
    case Done(OfIntent(x)) => FactLasts(s, s', x); AcceptedLasts(s, s', x);
    case Done(OfItem(e)) =>
  }

  lemma SentLasts(s: System, s': System, i: nat)
    requires Grows(s, s') && i < |s.sent| && SentOk(s, i)
    ensures i < |s'.sent| && SentOk(s', i)
  {
    KnownLasts(s, s', s.sent[i]);
    hide Known, RowsGrow, EntriesGrow, Served, Reached;
  }

  lemma ReleasedLasts(s: System, s': System, id: Id)
    requires RowsGrow(s, s') && ReleasedTask(s, id)
    ensures ReleasedTask(s', id)
  {
  }

  lemma MemberTrueLasts(s: System, s': System, id: Id, m: Completion, exact: bool)
    requires s.removed <= s'.removed && EntriesGrow(s, s') && MemberTrue(s, id, m, exact)
    ensures MemberTrue(s', id, m, exact)
  {
  }

  lemma MembersTrueLast(s: System, s': System, row: Row)
    requires s.removed <= s'.removed && EntriesGrow(s, s') && MembersTrue(s, row)
    ensures MembersTrue(s', row)
  {
    hide EntriesGrow, MemberTrue;
    forall id | id in row.graph.members && TaskOf(id).Some?
      ensures MemberTrue(s', id, row.graph.members[id], Normal(row.graph))
    {
      MemberTrueLasts(s, s', id, row.graph.members[id], Normal(row.graph));
    }
  }

  lemma StoredOkLasts(s: System, s': System, id: Id, k: Id, item: Stored)
    requires Grows(s, s') && StoredOk(s, id, k, item)
    ensures StoredOk(s', id, k, item)
  {
    FactLasts(s, s', item.intent);
    if Accepted(s, item.intent) { AcceptedLasts(s, s', item.intent); }
    hide Fact, Accepted, RowsGrow, EntriesGrow, TransportGrows;
  }

  lemma ObligationsLast(s: System, s': System, id: Id, entry: Entry)
    requires Grows(s, s') && Obligations(s, id, entry)
    ensures Obligations(s', id, entry)
  {
    if !entry.record.pinned { ReleasedLasts(s, s', id); }
    hide RowsGrow, EntriesGrow, Served, Reached, ReleasedTask;
  }

  lemma EntryLasts(c: Client, s: System, s': System, id: Id)
    requires Grows(s, s') && id in s.entries && EntryOk(c, s, id) && id in s'.entries && s'.entries[id] == s.entries[id]
    ensures EntryOk(c, s', id)
  {
    var entry := s.entries[id];
    KnownLasts(s, s', entry.record.envelope);
    forall k | k in entry.intents ensures StoredOk(s', id, k, entry.intents[k]) {
      StoredOkLasts(s, s', id, k, entry.intents[k]);
    }
    ObligationsLast(s, s', id, entry);
    hide Grows, Known, StoredOk, Obligations;
  }

  lemma RowLasts(c: Client, s: System, s': System, g: Id)
    requires Grows(s, s') && s'.marked == s.marked && g in s.rows && RowStateOk(c, s, g) && g in s'.rows &&
             s'.rows[g] == s.rows[g]
    ensures RowStateOk(c, s', g)
  {
    forall k | k in s'.rows[g].intents && k in s'.marked ensures Accepted(s', s'.rows[g].intents[k]) {
      AcceptedLasts(s, s', s.rows[g].intents[k]);
    }
    MembersTrueLast(s, s', s.rows[g]);
    hide RowOk, Accepted, Grows, MembersTrue;
  }

  /** A grown system keeps the invariant when its new parts satisfy it. */
  lemma InvGrows(c: Client, s: System, s': System)
    requires Inv(c, s) && Grows(s, s')
    requires forall p | p in s'.permits && p !in s.permits :: PermitOk(s', p)
    requires TransportOk(s')
    requires forall g | g in s'.rows && !(s'.marked == s.marked && g in s.rows && s'.rows[g] == s.rows[g]) ::
               RowStateOk(c, s', g)
    requires forall id | id in s'.entries && !(id in s.entries && s'.entries[id] == s.entries[id]) :: EntryOk(c, s', id)
    requires forall id | id in s'.removed && id !in s.removed :: ReleasedTask(s', id)
    requires forall k | k in s'.marked && k !in s.marked :: MarkOk(s', k)
    ensures Inv(c, s')
  {
    hide Grows, PermitOk, TransportOk, RowStateOk, EntryOk, ReleasedTask, MarkOk;
    forall k | k in s'.marked ensures MarkOk(s', k) { if k in s.marked { MarkLasts(s, s', k); } }
    forall p | p in s'.permits ensures PermitOk(s', p) { if p in s.permits { PermitLasts(s, s', p); } }
    forall g | g in s'.rows ensures RowStateOk(c, s', g) {
      if s'.marked == s.marked && g in s.rows && s'.rows[g] == s.rows[g] { RowLasts(c, s, s', g); }
    }
    forall id | id in s'.entries ensures EntryOk(c, s', id) {
      if id in s.entries && s'.entries[id] == s.entries[id] { EntryLasts(c, s, s', id); }
    }
    forall id | id in s'.removed ensures ReleasedTask(s', id) { if id in s.removed { RemovedLasts(s, s', id); } }
  }

  lemma MarkLasts(s: System, s': System, k: Id)
    requires Grows(s, s') && MarkOk(s, k)
    ensures MarkOk(s', k)
  {
    hide EntriesGrow, TransportGrows;
  }

  lemma RemovedLasts(s: System, s': System, id: Id)
    requires Grows(s, s') && ReleasedTask(s, id)
    ensures ReleasedTask(s', id)
  {
    ReleasedLasts(s, s', id);
  }

  /** The transport part of a grown system whose transport did not change. */
  lemma TransportLasts(s: System, s': System)
    requires Grows(s, s') && TransportOk(s)
    requires s'.sent == s.sent && s'.unacked == s.unacked && s'.items == s.items && s'.delayed == s.delayed &&
             s'.published == s.published
    ensures TransportOk(s')
  {
    hide Known, Served, Reached, RowsGrow, EntriesGrow;
    forall i | 0 <= i < |s'.sent| ensures SentOk(s', i) { SentLasts(s, s', i); }
    forall k | k in s'.items ensures ItemOk(s', k) { KnownLasts(s, s', s.items[k]); }
  }

  /** Steps that leave the transport alone. */
  lemma SameTransport(s: System, s': System)
    requires s.removed <= s'.removed && EntriesGrow(s, s')
    requires s.sent == s'.sent && s.unacked <= s'.unacked && s.quarantine <= s'.quarantine && s.delayed <= s'.delayed
    ensures TransportGrows(s, s')
  {
    forall k | Served(s, k) ensures Served(s', k) {
      if PastOf(s, k) { PastLasts(s, s', k); }
      if InQueue(s, k) {
        var i :| i in s.unacked && i < |s.sent| && KeyOf(s.sent[i]) == k;
        assert i in s'.unacked && KeyOf(s'.sent[i]) == k;
      }
    }
  }

  lemma RowsSame(s: System, s': System)
    requires s'.rows == s.rows
    ensures RowsGrow(s, s')
  {
  }

  lemma EntriesSame(c: Client, s: System, s': System)
    requires Inv(c, s) && s'.entries == s.entries
    ensures EntriesGrow(s, s')
  {
    hide PermitOk, TransportOk, RowStateOk, Known, StoredOk, Obligations;
    forall id | id in s.entries ensures EntryGrows(s.entries[id], s'.entries[id]) {
      assert EntryOk(c, s, id);
      LaterSame(c, s.entries[id].record);
      IntentsSame(s.entries[id].intents);
    }
  }

  lemma IntentsSame(a: map<Id, Stored>)
    ensures IntentsLater(a, a)
  {
  }
}
