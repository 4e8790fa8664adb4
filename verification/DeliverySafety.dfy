/** Every action of the delivery protocol keeps the system invariant. */
module DeliverySafety {
  import opened Protocol
  import opened Plans
  import opened Engine
  import opened WorkflowStore
  import opened Flat
  import opened DagInvariant
  import opened DagMeaning
  import opened FlatRuns
  import opened Pins
  import opened Rows
  import opened RowMembers
  import opened RowRuns
  import opened Delivery
  import opened DeliveryFacts
  import DagRuns

  // ---- permits ----

  lemma GrantKeeps(c: Client, s: System, p: Permit)
    requires Inv(c, s) && PermitOk(s, p)
    ensures Inv(c, Grant(s, p))
  {
    var s' := Grant(s, p);
    SameSystem(c, s, s');
    assert TransportOk(s);
    TransportLasts(s, s');
    PermitLasts(s, s', p);
    hide PermitOk, TransportOk, RowStateOk, EntryOk, Grows, ReleasedTask, MarkOk;
    InvGrows(c, s, s');
  }

  /** Changes that touch neither stores nor transports. */
  lemma SameSystem(c: Client, s: System, s': System)
    requires Inv(c, s) && s' == s.(permits := s'.permits, clock := s'.clock, published := s'.published)
    ensures Grows(s, s')
  {
    EntriesSame(c, s, s');
    RowsSame(s, s');
    hide Inv, EntriesGrow, RowsGrow;
    SameTransport(s, s');
  }

  // ---- transports ----

  /** Steps that change only transports, clock and deduplication keep the invariant. */
  lemma TransportStepKeeps(c: Client, s: System, s': System)
    requires Inv(c, s) && Grows(s, s') && TransportOk(s')
    requires s'.permits == s.permits && s'.rows == s.rows && s'.marked == s.marked && s'.entries == s.entries &&
             s'.removed == s.removed
    ensures Inv(c, s')
  {
    hide Inv, PermitOk, TransportOk, RowStateOk, EntryOk, Grows, ReleasedTask, MarkOk;
    InvGrows(c, s, s');
  }

  lemma TransportOf(c: Client, s: System)
    requires Inv(c, s)
    ensures TransportOk(s)
  {
  }

  lemma EnqueueKeeps(c: Client, s: System, e: Envelope)
    requires Inv(c, s) && Known(s, e) && Enqueue(c, s, e).Some?
    ensures var s' := Enqueue(c, s, e).value; Inv(c, s') && Grows(s, s') && Served(s', KeyOf(e))
  {
    var s' := Enqueue(c, s, e).value;
    TransportOf(c, s);
    if s' == s {
      SameSystem(c, s, s);
    } else {
      assert Enqueued(s, s', e);
      hide Inv, Enqueue, TransportOk, EntriesGrow, RowsGrow, Known, Served, Reached;
      EntriesSame(c, s, s');
      RowsSame(s, s');
      EnqueueGrows(s, s', e);
      KnownLasts(s, s', e);
      EnqueueTransport(s, s', e);
      TransportStepKeeps(c, s, s');
    }
  }

  predicate Enqueued(s: System, s': System, e: Envelope) {
    s' == s.(sent := s.sent + [e], unacked := s.unacked + {|s.sent|}, published := s.published[KeyOf(e) := e])
  }

  lemma EnqueueGrows(s: System, s': System, e: Envelope)
    requires Enqueued(s, s', e) && EntriesGrow(s, s') && RowsGrow(s, s')
    ensures Grows(s, s') && Served(s', KeyOf(e))
  {
    assert |s.sent| in s'.unacked && s'.sent[|s.sent|] == e;
    hide RowsGrow;
    forall k | Served(s, k) ensures Served(s', k) {
      if PastOf(s, k) { PastLasts(s, s', k); }
      if InQueue(s, k) {
        var i :| i in s.unacked && i < |s.sent| && KeyOf(s.sent[i]) == k;
        assert i in s'.unacked && s'.sent[i] == s.sent[i];
      }
    }
  }

  lemma EnqueueTransport(s: System, s': System, e: Envelope)
    requires Enqueued(s, s', e) && TransportOk(s) && Grows(s, s') && Known(s', e) && Served(s', KeyOf(e))
    ensures TransportOk(s')
  {
    hide Known, Served, Reached, RowsGrow, EntriesGrow;
    forall i | 0 <= i < |s'.sent| ensures SentOk(s', i) { if i < |s.sent| { SentLasts(s, s', i); } }
    forall k | k in s'.items ensures ItemOk(s', k) { KnownLasts(s, s', s.items[k]); }
  }

  lemma PostponeKeeps(c: Client, s: System, e: Envelope)
    requires Inv(c, s) && Known(s, e) && Postpone(c, s, e).Some?
    ensures var s' := Postpone(c, s, e).value; Inv(c, s') && Grows(s, s') && Reached(s', KeyOf(e))
  {
    var s' := Postpone(c, s, e).value;
    hide Inv, TransportOk, EntriesGrow, RowsGrow, Known, Served;
    if s' == s {
      SameSystem(c, s, s);
    } else {
      EntriesSame(c, s, s');
      RowsSame(s, s');
      SameTransport(s, s');
      KnownLasts(s, s', e);
      PostponeTransport(c, s, s', e);
      hide Grows;
      TransportStepKeeps(c, s, s');
    }
  }

  lemma PostponeTransport(c: Client, s: System, s': System, e: Envelope)
    requires Inv(c, s) && s' == s.(items := s.items[KeyOf(e) := e], delayed := s.delayed + {KeyOf(e)}) &&
             Grows(s, s') && Known(s', e)
    ensures TransportOk(s')
  {
    hide Inv, Known, Served, Reached, RowsGrow, EntriesGrow;
    TransportOf(c, s);
    forall i | 0 <= i < |s'.sent| ensures SentOk(s', i) { SentLasts(s, s', i); }
    forall k | k in s'.items ensures ItemOk(s', k) { if k != KeyOf(e) { KnownLasts(s, s', s.items[k]); } }
  }

  lemma TransportKeeps(c: Client, s: System, e: Envelope, later: bool)
    requires Inv(c, s) && Known(s, e) && Transport(c, s, e, later).Some?
    ensures var s' := Transport(c, s, e, later).value; Inv(c, s') && Grows(s, s') && Reached(s', KeyOf(e))
  {
    if later { PostponeKeeps(c, s, e); } else { EnqueueKeeps(c, s, e); }
  }

  lemma SubmitKeeps(c: Client, s: System, e: Envelope, later: bool)
    requires Inv(c, s)
    ensures Inv(c, DoSubmit(c, s, e, later))
  {
    if DoSubmit(c, s, e, later) != s {
      assert Known(s, e);
      hide Inv, Transport, Known, Reached, Grows;
      TransportKeeps(c, s, e, later);
      var s1 := Transport(c, s, e, later).value;
      GrownKnown(s, s1, e);
      GrantRegistering(c, s1, e, None);
    }
  }

  /** Envelopes of published intents are known. */
  lemma PublishKnown(s: System, x: Intent)
    requires Fact(s, x) && (x.payload.Publish? || x.payload.Fail? || x.payload.CancelTask?)
    ensures Known(s, x.payload.envelope)
  {
  }

  lemma RelayPublishKeeps(c: Client, s: System, x: Intent, later: bool)
    requires Inv(c, s)
    ensures Inv(c, DoRelayPublish(c, s, x, later))
  {
    if DoRelayPublish(c, s, x, later) != s {
      RelayedFact(c, s, x);
      PublishKnown(s, x);
      var e := x.payload.envelope;
      hide Inv, Fact, Known, Reached, Transport, Grows;
      TransportKeeps(c, s, e, later);
      var s1 := Transport(c, s, e, later).value;
      GrownKnown(s, s1, e);
      FactLasts(s, s1, x);
      GrantRegistering(c, s1, e, Some(x));
    }
  }

  lemma GrownKnown(s: System, s': System, e: Envelope)
    requires Grows(s, s') && Known(s, e)
    ensures Known(s', e)
  {
    KnownLasts(s, s', e);
  }

  lemma GrantRegistering(c: Client, s: System, e: Envelope, origin: Option<Intent>)
    requires Inv(c, s) && Known(s, e) && Reached(s, KeyOf(e)) &&
             (origin.Some? ==> Fact(s, origin.value) && origin.value.payload == Publish(e))
    ensures Inv(c, Grant(s, Registering(e, origin)))
  {
    hide Inv, Known, Reached, Fact;
    GrantKeeps(c, s, Registering(e, origin));
  }

  lemma TakeKeeps(c: Client, s: System, x: Intent)
    requires Inv(c, s)
    ensures Inv(c, DoTake(s, x))
  {
    if DoTake(s, x) != s {
      StoredIsFact(c, s, x);
      hide Inv, Fact;
      GrantKeeps(c, s, Relaying(x));
    }
  }

  /** Every stored intent is a fact. */
  lemma StoredIsFact(c: Client, s: System, x: Intent)
    requires Inv(c, s) && StoredHere(s, x)
    ensures Fact(s, x)
  {
    if OfGraph(x) {
      assert RowStateOk(c, s, x.source);
      RowIntents(c, s.rows[x.source], x.id);
      GraphFact(c, s, x);
    } else {
      assert EntryOk(c, s, x.source);
      assert StoredOk(s, x.source, x.id, s.entries[x.source].intents[x.id]);
    }
  }

  lemma GraphFact(c: Client, s: System, x: Intent)
    requires OfGraph(x) && StoredHere(s, x) && RowStateOk(c, s, x.source) && RowIntentFact(s.rows[x.source], x)
    ensures Fact(s, x)
  {
    var row := s.rows[x.source];
    match x.payload
    case Publish(e) => RowTaskOf(c, row, e.id);
    case Fail(e, _, _) => RowTaskOf(c, row, e.id);
    case CancelTask(e) => RowTaskOf(c, row, e.id);
    case Unpin(t) => MemberTaskOf(c, row, t);
    case _ =>
  }

  lemma MemberTaskOf(c: Client, row: Row, t: Id)
    requires RowOk(c, row) && t in row.graph.members
    ensures TaskOf(t).Some? ==> TaskOf(t).value == row.graph.id
  {
    var g := row.graph;
    if g.kind.Dag? {
      assert Planned(g.plan, t);
      var i :| 0 <= i < |g.plan| && g.plan[i].id == t;
      assert NodeShape(g, i);
    }
  }

  lemma LeaseKeeps(c: Client, s: System, key: Key)
    requires Inv(c, s)
    ensures Inv(c, DoLease(s, key))
  {
    if DoLease(s, key) != s {
      assert ItemOk(s, key);
      hide Inv, Known;
      GrantKeeps(c, s, Leased(s.items[key]));
    }
  }

  lemma FirePublishKeeps(c: Client, s: System, e: Envelope)
    requires Inv(c, s)
    ensures Inv(c, DoFirePublish(c, s, e))
  {
    hide Inv, Known, Served, Enqueue, Grows;
    if DoFirePublish(c, s, e) != s {
      LeasedKnown(c, s, e);
      EnqueueKeeps(c, s, e);
      GrantKeeps(c, Enqueue(c, s, e).value, Done(OfItem(e)));
    }
  }

  lemma LeasedKnown(c: Client, s: System, e: Envelope)
    requires Inv(c, s) && Leased(e) in s.permits
    ensures Known(s, e)
  {
    assert PermitOk(s, Leased(e));
  }

  // ---- acknowledgements ----

  lemma AckKeeps(c: Client, s: System, r: nat)
    requires Inv(c, s) && Done(OfDelivery(r)) in s.permits
    ensures Inv(c, s.(unacked := s.unacked - {r}))
  {
    var s' := s.(unacked := s.unacked - {r});
    assert PermitOk(s, Done(OfDelivery(r)));
    hide Inv, EntriesGrow, RowsGrow, Served, PastOf;
    EntriesSame(c, s, s');
    RowsSame(s, s');
    LessQueue(s, s', r);
    ShrunkTransport(c, s, s');
    hide Grows, TransportOk;
    TransportStepKeeps(c, s, s');
  }

  /** Taking away a delivery whose attempt is over or quarantined loses nothing. */
  lemma LessQueue(s: System, s': System, r: nat)
    requires s' == s.(unacked := s.unacked - {r}, quarantine := s'.quarantine) && s.quarantine <= s'.quarantine &&
             r < |s.sent|
    requires PastOf(s, KeyOf(s.sent[r])) || KeyOf(s.sent[r]) in s'.quarantine
    requires EntriesGrow(s, s') && RowsGrow(s, s')
    ensures Grows(s, s')
  {
    hide RowsGrow;
    forall k | Served(s, k) ensures Served(s', k) {
      if PastOf(s, k) { PastLasts(s, s', k); }
      if InQueue(s, k) && k != KeyOf(s.sent[r]) {
        var i :| i in s.unacked && i < |s.sent| && KeyOf(s.sent[i]) == k;
        assert i in s'.unacked && KeyOf(s'.sent[i]) == k;
      }
      if PastOf(s, KeyOf(s.sent[r])) { PastLasts(s, s', KeyOf(s.sent[r])); }
    }
  }

  lemma ShrunkTransport(c: Client, s: System, s': System)
    requires Inv(c, s) && Grows(s, s') && s'.unacked <= s.unacked && s'.delayed <= s.delayed
    requires s'.sent == s.sent && s'.items == s.items && s'.published == s.published
    ensures TransportOk(s')
  {
    assert TransportOk(s);
    hide Inv, Known, Served, Reached, RowsGrow, EntriesGrow;
    forall i | 0 <= i < |s'.sent| ensures SentOk(s', i) { SentLasts(s, s', i); }
    forall k | k in s'.items ensures ItemOk(s', k) { KnownLasts(s, s', s.items[k]); }
  }

  lemma RejectKeeps(c: Client, s: System, r: nat)
    requires Inv(c, s) && r < |s.sent|
    ensures Inv(c, s.(unacked := s.unacked - {r}, quarantine := s.quarantine + {KeyOf(s.sent[r])}))
  {
    var s' := s.(unacked := s.unacked - {r}, quarantine := s.quarantine + {KeyOf(s.sent[r])});
    hide Inv, EntriesGrow, RowsGrow, Served, PastOf;
    EntriesSame(c, s, s');
    RowsSame(s, s');
    LessQueue(s, s', r);
    ShrunkTransport(c, s, s');
    hide Grows, TransportOk;
    TransportStepKeeps(c, s, s');
  }

  lemma CommitFireKeeps(c: Client, s: System, e: Envelope)
    requires Inv(c, s) && Done(OfItem(e)) in s.permits
    ensures Inv(c, s.(delayed := s.delayed - {KeyOf(e)}))
  {
    var s' := s.(delayed := s.delayed - {KeyOf(e)});
    assert PermitOk(s, Done(OfItem(e)));
    hide Inv, EntriesGrow, RowsGrow, Served, PastOf;
    EntriesSame(c, s, s');
    RowsSame(s, s');
    LessDelayed(s, s', e);
    ShrunkTransport(c, s, s');
    hide Grows, TransportOk;
    TransportStepKeeps(c, s, s');
  }

  lemma LessDelayed(s: System, s': System, e: Envelope)
    requires s' == s.(delayed := s.delayed - {KeyOf(e)}) && Served(s, KeyOf(e)) && EntriesGrow(s, s') && RowsGrow(s, s')
    ensures Grows(s, s')
  {
    hide RowsGrow;
    forall k | Served(s, k) ensures Served(s', k) {
      if PastOf(s, k) { PastLasts(s, s', k); }
      if InQueue(s, k) {
        var i :| i in s.unacked && i < |s.sent| && KeyOf(s.sent[i]) == k;
        assert i in s'.unacked && KeyOf(s'.sent[i]) == k;
      }
    }
  }

  lemma PlainKeeps(c: Client, s: System, s': System)
    requires Inv(c, s) && s' == s.(clock := s'.clock, published := s'.published) &&
             s'.published.Keys <= s.published.Keys
    requires forall k | k in s'.published :: s'.published[k] == s.published[k]
    ensures Inv(c, s')
  {
    SameSystem(c, s, s');
    PlainTransport(c, s, s');
    hide Inv, Grows, TransportOk;
    TransportStepKeeps(c, s, s');
  }

  lemma PlainTransport(c: Client, s: System, s': System)
    requires Inv(c, s) && Grows(s, s') && s' == s.(clock := s'.clock, published := s'.published) &&
             s'.published.Keys <= s.published.Keys
    requires forall k | k in s'.published :: s'.published[k] == s.published[k]
    ensures TransportOk(s')
  {
    assert TransportOk(s);
    hide Inv, Known, Served, Reached, RowsGrow, EntriesGrow;
    forall i | 0 <= i < |s'.sent| ensures SentOk(s', i) { SentLasts(s, s', i); }
    forall k | k in s'.items ensures ItemOk(s', k) { KnownLasts(s, s', s.items[k]); }
  }

  // ---- workflow rows ----

  /** Replacing one row by a grown one, or adding one. */
  lemma RowKeeps(c: Client, s: System, id: Id, row: Row)
    requires Inv(c, s) && Storable(c, row.graph) && RowOk(c, row) && Replaces(row.graph) && MembersTrue(s, row) &&
             row.graph.id == id && (id in s.rows ==> RowGrows(s.rows[id], row))
    ensures var s' := s.(rows := s.rows[id := row]); Inv(c, s') && Grows(s, s')
  {
    var s' := s.(rows := s.rows[id := row]);
    EntriesSame(c, s, s');
    NewRowGrows(s, s', id, row);
    SameTransport(s, s');
    assert TransportOk(s);
    TransportLasts(s, s');
    NewRowOk(c, s, s', id, row);
    hide PermitOk, TransportOk, RowStateOk, EntryOk, Grows, ReleasedTask, MarkOk, RowOk, RowGrows;
    InvGrows(c, s, s');
  }

  lemma NewRowGrows(s: System, s': System, id: Id, row: Row)
    requires s' == s.(rows := s.rows[id := row]) && (id in s.rows ==> RowGrows(s.rows[id], row))
    ensures RowsGrow(s, s')
  {
  }

  lemma NewRowOk(c: Client, s: System, s': System, id: Id, row: Row)
    requires Inv(c, s) && s' == s.(rows := s.rows[id := row]) && Grows(s, s') && Storable(c, row.graph) &&
             RowOk(c, row) && Replaces(row.graph) && MembersTrue(s, row) && row.graph.id == id
    requires id in s.rows ==> RowGrows(s.rows[id], row)
    ensures RowStateOk(c, s', id)
  {
    MembersTrueLast(s, s', row);
    forall k | k in row.intents && k in s'.marked ensures Accepted(s', row.intents[k]) {
      RowIntents(c, row, k);
      IntentParent(row, row.intents[k]);
      assert MarkOk(s, k);
      assert RowStateOk(c, s, id);
      AcceptedLasts(s, s', s.rows[id].intents[k]);
    }
  }

  lemma IntentParent(row: Row, x: Intent)
    requires RowIntentFact(row, x)
    ensures x.id.Stable? && x.id.parent == row.graph.id && OfGraph(x)
  {
  }

  lemma RowStepKeeps(c: Client, s: System, id: Id, e: DagRuns.Event)
    requires Inv(c, s) && id in s.rows && LegitRow(s.rows[id], e) &&
             (e.Completed? && e.m.id !in s.rows[id].graph.members ==> MemberTrue(s, e.m.id, e.m, true))
    requires Storable(c, DagRuns.StepRow(c, s.rows[id], e).graph)
    ensures var s' := s.(rows := s.rows[id := DagRuns.StepRow(c, s.rows[id], e)]); Inv(c, s') && Grows(s, s')
  {
    assert RowStateOk(c, s, id);
    RowSteps(c, s.rows[id], e);
    StepMembersTrue(c, s, id, e);
    hide Inv, RowOk, RowGrows, DagRuns.StepRow, LegitRow;
    GrownId(s.rows[id], DagRuns.StepRow(c, s.rows[id], e));
    RowKeeps(c, s, id, DagRuns.StepRow(c, s.rows[id], e));
  }

  lemma StepMembersTrue(c: Client, s: System, id: Id, e: DagRuns.Event)
    requires Inv(c, s) && id in s.rows && LegitRow(s.rows[id], e) &&
             (e.Completed? && e.m.id !in s.rows[id].graph.members ==> MemberTrue(s, e.m.id, e.m, true))
    requires RowGrows(s.rows[id], DagRuns.StepRow(c, s.rows[id], e))
    ensures MembersTrue(s, DagRuns.StepRow(c, s.rows[id], e))
  {
    hide Inv, RowOk, DagRuns.StepRow, LegitRow, RowGrows, Replaces, MemberTrue;
    var row, row' := s.rows[id], DagRuns.StepRow(c, s.rows[id], e);
    RowOf(c, s, id);
    var exact := Normal(row'.graph);
    if exact { StepExact(c, row, e); }
    hide Normal;
    forall t | t in row'.graph.members && TaskOf(t).Some? ensures MemberTrue(s, t, row'.graph.members[t], exact) {
      if t !in row.graph.members {
        StepRecordsOnly(c, row, e, t);
        MemberKept(s, t, e.m, row'.graph.members[t], true, exact);
      } else {
        MemberGrows(row, row', t);
        MemberKept(s, t, row.graph.members[t], row'.graph.members[t], Normal(row.graph), exact);
      }
    }
  }

  lemma MemberKept(s: System, id: Id, m: Completion, m': Completion, before: bool, exact: bool)
    requires MemberTrue(s, id, m, before) && Kept(m, m') && (exact ==> before && m' == m)
    ensures MemberTrue(s, id, m', exact)
  {
  }

  lemma MemberGrows(row: Row, row': Row, id: Id)
    requires RowGrows(row, row') && id in row.graph.members
    ensures id in row'.graph.members && Kept(row.graph.members[id], row'.graph.members[id])
  {
  }

  lemma GrownId(a: Row, b: Row)
    requires RowGrows(a, b)
    ensures b.graph.id == a.graph.id && b.graph.originTask == a.graph.originTask
  {
  }

  /** A process whose intent was accepted may acknowledge it. */
  lemma GrantDone(c: Client, s: System, x: Intent)
    requires Inv(c, s) && Fact(s, x) && Accepted(s, x)
    ensures Inv(c, Grant(s, Done(OfIntent(x))))
  {
    hide Inv, Fact, Accepted;
    GrantKeeps(c, s, Done(OfIntent(x)));
  }

  lemma RelayedFact(c: Client, s: System, x: Intent)
    requires Inv(c, s) && Relaying(x) in s.permits
    ensures Fact(s, x)
  {
    assert PermitOk(s, Relaying(x));
  }

  lemma CompletionLegit(c: Client, s: System, x: Intent)
    requires Inv(c, s) && Fact(s, x) && x.payload.Complete? && x.payload.workflow in s.rows
    ensures LegitRow(s.rows[x.payload.workflow], DagRuns.Completed(x.payload.completion)) &&
            RowOk(c, s.rows[x.payload.workflow])
    ensures MemberTrue(s, x.payload.completion.id, x.payload.completion, true)
  {
    assert RowStateOk(c, s, x.payload.workflow);
  }

  lemma RecordCompletionKeeps(c: Client, s: System, x: Intent)
    requires Inv(c, s)
    ensures Inv(c, DoRecordCompletion(c, s, x))
  {
    if DoRecordCompletion(c, s, x) != s {
      var w, m := x.payload.workflow, x.payload.completion;
      RelayedFact(c, s, x);
      CompletionLegit(c, s, x);
      hide Inv, RowOk, Fact, LegitRow;
      RowRecords(c, s.rows[w], m);
      assert DagRuns.StepRow(c, s.rows[w], DagRuns.Completed(m)) == RecordMemberSpec(c, s.rows[w], m).value;
      hide RecordMemberSpec, DagRuns.StepRow, Grows;
      RowStepKeeps(c, s, w, DagRuns.Completed(m));
      var s1 := s.(rows := s.rows[w := RecordMemberSpec(c, s.rows[w], m).value]);
      FactLasts(s, s1, x);
      GrantDone(c, s1, x);
    }
  }

  lemma CancelRowKeeps(c: Client, s: System, id: Id)
    requires Inv(c, s) && id in s.rows && CancelGraphSpec(c, s.rows[id]).Ok? &&
             Storable(c, CancelGraphSpec(c, s.rows[id]).value.graph)
    ensures var s' := s.(rows := s.rows[id := CancelGraphSpec(c, s.rows[id]).value]);
            Inv(c, s') && Grows(s, s') && (s'.rows[id].graph.cancelRequested || s'.rows[id].graph.state.Terminal())
  {
    assert RowStateOk(c, s, id);
    RowCancels(c, s.rows[id]);
    assert DagRuns.StepRow(c, s.rows[id], DagRuns.CancelRequested) == CancelGraphSpec(c, s.rows[id]).value;
    hide Inv, RowOk, CancelGraphSpec, DagRuns.StepRow;
    RowStepKeeps(c, s, id, DagRuns.CancelRequested);
  }

  lemma CancelByTaskKeeps(c: Client, s: System, x: Intent)
    requires Inv(c, s)
    ensures Inv(c, DoCancelByTask(c, s, x))
  {
    hide Inv, CancelGraphSpec, Fact, Grows;
    if DoCancelByTask(c, s, x) != s {
      RelayedFact(c, s, x);
      var w := x.payload.workflow;
      CancelRowKeeps(c, s, w);
      var s1 := s.(rows := s.rows[w := CancelGraphSpec(c, s.rows[w]).value]);
      FactLasts(s, s1, x);
      GrantDone(c, s1, x);
    }
  }

  lemma CreatedDagOk(c: Client, g: Graph)
    requires DagRuns.Initial(g)
    ensures CreateSpec(c, g).Ok? && RowOk(c, CreateSpec(c, g).value)
    ensures CreateSpec(c, g).value.graph.id == g.id && CreateSpec(c, g).value.graph.originTask == g.originTask
    ensures forall id | id in CreateSpec(c, g).value.graph.members :: TaskOf(id).None?
  {
    assert g.kind.Dag? && g.members == map[];
    DagRuns.CreateIsReachable(c, g);
    DagRuns.InitialCore(g);
    AdvanceBarriers(c, g, map[]);
    assert PlanOk(g);
    hide PlanOk, Core;
    forall id | id in CreateSpec(c, g).value.graph.members ensures TaskOf(id).None? { BarrierIsNoTask(g, id); }
    AdvanceReports(c, g, map[]);
    hide AdvanceSpec, DagRuns.Reachable, DagRuns.Initial, ReportsOrigin;
  }

  lemma CreateReplacementKeeps(c: Client, s: System, x: Intent)
    requires Inv(c, s)
    ensures Inv(c, DoCreateReplacement(c, s, x))
  {
    hide Inv, Fact, CreateSpec, RowOk, DagRuns.Initial, Grows, Oversized;
    if DoCreateReplacement(c, s, x) != s {
      RelayedFact(c, s, x);
      ReplaceFact(s, x);
      var g := x.payload.graph;
      if g.id in s.rows {
        GrantDone(c, s, x);
      } else if Oversized(g) {
        OversizedRefused(c, g, s.entries[x.source].record.cancelRequested);
      } else {
        NewReplacementKeeps(c, s, x, s.entries[x.source].record.cancelRequested);
      }
    }
  }

  lemma ReplaceFact(s: System, x: Intent)
    requires Fact(s, x) && x.payload.Replace?
    ensures var g := x.payload.graph;
            (DagRuns.Initial(g) || Oversized(g)) && g.originTask == Some(x.source) &&
            g.id == Stable(x.source, ReplacementLabel)
  {
  }

  lemma NewReplacementKeeps(c: Client, s: System, x: Intent, cancel: bool)
    requires Inv(c, s) && Fact(s, x) && x.payload.Replace? && DagRuns.Initial(x.payload.graph) &&
             x.payload.graph.id !in s.rows
    ensures Inv(c, WithRow(c, s, x.payload.graph.id, CreateSpec(c, x.payload.graph.(cancelRequested := cancel)),
              Some(Done(OfIntent(x)))))
  {
    hide Inv, Fact, CreateSpec, RowOk, DagRuns.Initial, Grows;
    ReplaceFact(s, x);
    var g := x.payload.graph;
    var initial := g.(cancelRequested := cancel);
    InitialCanceled(g, cancel);
    CreatedDagOk(c, initial);
    if Storable(c, CreateSpec(c, initial).value.graph) {
      RowKeeps(c, s, g.id, CreateSpec(c, initial).value);
      var s1 := s.(rows := s.rows[g.id := CreateSpec(c, initial).value]);
      FactLasts(s, s1, x);
      GrantDone(c, s1, x);
    }
  }

  /** An oversized replacement is never created; its replace intent stays pending. */
  lemma OversizedRefused(c: Client, g: Graph, cancel: bool)
    requires Oversized(g)
    ensures CreateSpec(c, g.(cancelRequested := cancel)).Err?
  {
  }

  lemma InitialCanceled(g: Graph, b: bool)
    requires DagRuns.Initial(g)
    ensures DagRuns.Initial(g.(cancelRequested := b))
  {
    var g' := g.(cancelRequested := b);
    SameShapeStatic(g, g');
    hide Static;
    forall i | 0 <= i < |g'.plan| ensures FreshNode(g', i) { assert FreshNode(g, i); }
  }

  lemma ApplyCanvasKeeps(c: Client, s: System, g: Graph)
    requires Inv(c, s)
    ensures Inv(c, DoApplyCanvas(c, s, g))
  {
    if DoApplyCanvas(c, s, g) != s {
      hide Inv, CreateSpec, CreateFlatSpec, RowOk;
      if g.kind.Dag? {
        CreatedDagOk(c, g);
        RowKeeps(c, s, g.id, CreateSpec(c, g).value);
      } else {
        CreatedFlatOk(c, g);
        RowKeeps(c, s, g.id, CreateFlatSpec(c, g).value);
      }
    }
  }

  lemma CreatedFlatOk(c: Client, g: Graph)
    requires FlatStart(c, g)
    ensures CreateFlatSpec(c, g).Ok? && RowOk(c, CreateFlatSpec(c, g).value) &&
            CreateFlatSpec(c, g).value.graph.id == g.id
    ensures CreateFlatSpec(c, g).value.graph.members == map[]
  {
    assert !g.kind.Dag? && g.originTask.None? && g.members == map[];
    if g.children == [] { FlatAddsNone(c, g); }
    FlatCreateIsReachable(c, g);
    hide CreateFlatSpec, FlatReachable, FlatStart;
  }

  lemma MarkGraphKeeps(c: Client, s: System, x: Intent)
    requires Inv(c, s) && Fact(s, x) && Accepted(s, x) && OfGraph(x)
    ensures Inv(c, s.(marked := s.marked + {x.id}))
  {
    hide Inv, TransportOk, Fact, Accepted, RowStateOk, MarkOk, Grows, PermitOk, EntryOk, ReleasedTask;
    var s' := s.(marked := s.marked + {x.id});
    MarkGrows(c, s, s');
    GraphMark(s, s', x);
    TransportOf(c, s);
    TransportLasts(s, s');
    forall g | g in s'.rows ensures RowStateOk(c, s', g) { MarkedRow(c, s, s', x, g); }
    InvGrows(c, s, s');
  }

  lemma MarkGrows(c: Client, s: System, s': System)
    requires Inv(c, s) && s' == s.(marked := s'.marked)
    ensures Grows(s, s')
  {
    hide Inv, EntriesGrow, RowsGrow;
    EntriesSame(c, s, s');
    RowsSame(s, s');
    SameTransport(s, s');
  }

  lemma GraphMark(s: System, s': System, x: Intent)
    requires Fact(s, x) && OfGraph(x) && s'.rows == s.rows
    ensures MarkOk(s', x.id)
  {
  }

  lemma MarkedRow(c: Client, s: System, s': System, x: Intent, g: Id)
    requires Inv(c, s) && s' == s.(marked := s.marked + {x.id}) && Grows(s, s') && g in s.rows && OfGraph(x) &&
             Fact(s, x) && Accepted(s, x)
    ensures RowStateOk(c, s', g)
  {
    hide Inv, RowOk, Replaces, Grows, Fact, Accepted, MemberTrue;
    RowOf(c, s, g);
    forall k | k in s'.rows[g].intents && k in s'.marked ensures Accepted(s', s'.rows[g].intents[k]) {
      if k == x.id { MarkedIsRow(c, s, x, g); } else { MarkedOf(c, s, g, k); }
      AcceptedLasts(s, s', s.rows[g].intents[k]);
    }
    forall t | t in s.rows[g].graph.members && TaskOf(t).Some?
      ensures MemberTrue(s', t, s.rows[g].graph.members[t], Normal(s.rows[g].graph))
    {
      SameMember(s, s', t, s.rows[g].graph.members[t], Normal(s.rows[g].graph));
    }
  }

  lemma SameMember(s: System, s': System, id: Id, m: Completion, exact: bool)
    requires MemberTrue(s, id, m, exact) && s'.entries == s.entries && s'.removed == s.removed
    ensures MemberTrue(s', id, m, exact)
  {
  }

  /** An intent's identity names its graph, so only that graph stores it, and stores the same. */
  lemma MarkedIsRow(c: Client, s: System, x: Intent, g: Id)
    requires Inv(c, s) && g in s.rows && OfGraph(x) && Fact(s, x) && x.id in s.rows[g].intents
    ensures s.rows[g].intents[x.id] == x
  {
    assert StoredHere(s, x) && x.id.parent == x.source;
    hide Inv, Fact, RowOk;
    RowOf(c, s, g);
    RowIntents(c, s.rows[g], x.id);
    IntentParent(s.rows[g], s.rows[g].intents[x.id]);
    hide RowIntentFact;
  }
}
