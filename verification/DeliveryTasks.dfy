/** The result-store calls of the delivery protocol keep the system invariant. */
module DeliveryTasks {
  import opened Protocol
  import opened Records
  import opened TaskLife
  import opened Rows
  import opened Delivery
  import opened DeliveryFacts
  import opened DeliverySafety
  import ResultStore

  function EntryAt(s: System, id: Id): Option<Entry> { ResultStore.Find(s.entries, id) }

  /** The entry after a call that leaves one. */
  predicate Leaves(c: Client, ttl: Ttl, s: System, id: Id, op: Op, y: Entry) {
    Commit(c, ttl, EntryAt(s, id), op, s.clock) == Ok(Some(y))
  }

  lemma EntrySound(c: Client, s: System, id: Id)
    requires Inv(c, s)
    ensures SoundEntry(c, EntryAt(s, id))
  {
    if id in s.entries { assert EntryOk(c, s, id); }
  }

  lemma EntryStep(c: Client, ttl: Ttl, x: Option<Entry>, op: Op, now: nat, y: Entry)
    requires SoundEntry(c, x) && WellFormed(op) && Commit(c, ttl, x, op, now) == Ok(Some(y))
    ensures Sound(c, y.record) && (x.Some? ==> EntryGrows(x.value, y))
  {
    CommitKeeps(c, ttl, x, op, now);
    hide Commit;
    if x.Some? {
      IntentStep(c, ttl, x, Step(op, now));
      LaterSame(c, x.value.record);
      LaterStep(x.value.record, x.value.record, y.record);
    }
  }

  /** Replacing one entry by a later one, or adding one. */
  lemma EntryPutGrows(c: Client, s: System, id: Id, y: Entry)
    requires Inv(c, s) && (id in s.entries ==> EntryGrows(s.entries[id], y))
    ensures Grows(s, s.(entries := s.entries[id := y]))
  {
    hide Inv, EntryGrows, RowsGrow;
    var s' := s.(entries := s.entries[id := y]);
    RowsSame(s, s');
    forall k | k in s.entries ensures EntryGrows(s.entries[k], s'.entries[k]) { if k != id { SameEntry(c, s, k); } }
    assert EntriesGrow(s, s');
    hide EntriesGrow;
    SameTransport(s, s');
  }

  lemma SameEntry(c: Client, s: System, k: Id)
    requires Inv(c, s) && k in s.entries
    ensures EntryGrows(s.entries[k], s.entries[k])
  {
    assert EntryOk(c, s, k);
    LaterSame(c, s.entries[k].record);
    IntentsSame(s.entries[k].intents);
  }

  lemma EntryPutKeeps(c: Client, s: System, id: Id, y: Entry)
    requires Inv(c, s) && Grows(s, s.(entries := s.entries[id := y])) &&
             EntryOk(c, s.(entries := s.entries[id := y]), id)
    ensures Inv(c, s.(entries := s.entries[id := y]))
  {
    var s' := s.(entries := s.entries[id := y]);
    assert TransportOk(s);
    TransportLasts(s, s');
    hide PermitOk, TransportOk, RowStateOk, EntryOk, Grows, ReleasedTask, MarkOk;
    InvGrows(c, s, s');
  }

  /** The same intent, not newly delivered. */
  predicate SameItem(a: Stored, b: Stored) { b.intent == a.intent && (b.delivered ==> a.delivered) }

  predicate Carried(x: Option<Entry>, k: Id,
      item: Stored) { x.Some? && k in x.value.intents && SameItem(x.value.intents[k], item) }

  /** An updated entry is in order when its old intents are, its new ones are facts, and its
      obligations are met. */
  lemma EntryAfter(c: Client, s: System, id: Id, y: Entry)
    requires Inv(c, s) && Grows(s, s.(entries := s.entries[id := y]))
    requires Sound(c, y.record) && y.record.envelope.id == id &&
             Known(s.(entries := s.entries[id := y]), y.record.envelope)
    requires forall k | k in y.intents ::
               Carried(EntryAt(s, id), k, y.intents[k]) ||
               StoredOk(s.(entries := s.entries[id := y]), id, k, y.intents[k])
    requires Obligations(s.(entries := s.entries[id := y]), id, y)
    ensures Inv(c, s.(entries := s.entries[id := y]))
  {
    var s' := s.(entries := s.entries[id := y]);
    forall k | k in y.intents ensures StoredOk(s', id, k, y.intents[k]) {
      if Carried(EntryAt(s, id), k, y.intents[k]) {
        assert EntryOk(c, s, id);
        StoredOkLasts(s, s', id, k, s.entries[id].intents[k]);
      }
    }
    hide Inv, Grows, StoredOk, Obligations, Known, Sound;
    assert EntryOk(c, s', id);
    EntryPutKeeps(c, s, id, y);
  }

  // ---- calls that change no obligation ----

  /** Nothing the obligations look at changes. */
  predicate Mild(x: Entry, y: Entry) {
    y.record.envelope == x.record.envelope && y.record.state.Terminal() == x.record.state.Terminal() &&
    y.record.replacement == x.record.replacement && y.record.pinned == x.record.pinned &&
    y.intents.Keys == x.intents.Keys && forall k | k in x.intents :: SameItem(x.intents[k], y.intents[k])
  }

  lemma MildKeeps(c: Client, s: System, id: Id, y: Entry)
    requires Inv(c, s) && id in s.entries && Mild(s.entries[id], y) && EntryGrows(s.entries[id], y) &&
             Sound(c, y.record)
    ensures var s' := s.(entries := s.entries[id := y]); Inv(c, s') && Grows(s, s')
  {
    var s' := s.(entries := s.entries[id := y]);
    EntryPutGrows(c, s, id, y);
    assert EntryOk(c, s, id);
    KnownLasts(s, s', y.record.envelope);
    ObligationsLast(s, s', id, s.entries[id]);
    MildObligations(s', id, s.entries[id], y);
    hide Inv, Grows, StoredOk, Obligations, Known, Sound, EntryGrows;
    EntryAfter(c, s, id, y);
  }

  lemma MildObligations(s: System, id: Id, x: Entry, y: Entry)
    requires Obligations(s, id, x) && Mild(x, y)
    ensures Obligations(s, id, y)
  {
    hide Reached, ReleasedTask;
  }

  predicate MildOp(op: Op) {
    op.Claim? || op.Renew? || op.Progress? || op.Forget? || op.ClearPayload? || op.ClaimIntent? || op.Register?
  }

  lemma MildOps(c: Client, ttl: Ttl, x: Entry, op: Op, now: nat, y: Entry)
    requires MildOp(op) && Commit(c, ttl, Some(x), op, now) == Ok(Some(y))
    ensures Mild(x, y)
  {
    hide BatchOk, InitialRecord;
  }

  lemma MildCallKeeps(c: Client, ttl: Ttl, s: System, id: Id, op: Op)
    requires Inv(c, s) && MildOp(op) && WellFormed(op) && id in s.entries && Call(c, ttl, s, id, op).Some?
    ensures var s' := Call(c, ttl, s, id, op).value;
            Inv(c, s') && Grows(s, s') &&
            exists y :: Leaves(c, ttl, s, id, op, y) && s' == s.(entries := s.entries[id := y])
  {
    EntrySound(c, s, id);
    MildLeaves(c, ttl, s, id, op);
    var y := Commit(c, ttl, EntryAt(s, id), op, s.clock).value.value;
    EntryStep(c, ttl, EntryAt(s, id), op, s.clock, y);
    MildOps(c, ttl, s.entries[id], op, s.clock, y);
    hide Inv, Grows, Commit, Mild, EntryGrows, Sound;
    MildKeeps(c, s, id, y);
    assert Leaves(c, ttl, s, id, op, y);
  }

  lemma MildLeaves(c: Client, ttl: Ttl, s: System, id: Id, op: Op)
    requires MildOp(op) && id in s.entries && Call(c, ttl, s, id, op).Some?
    ensures Commit(c, ttl, EntryAt(s, id), op, s.clock).Ok? && Commit(c, ttl, EntryAt(s, id), op, s.clock).value.Some?
  {
  }

  // ---- creating a record ----

  /** An envelope a record may be created from. */
  predicate CreateOk(s: System, e: Envelope) {
    Known(s, e) && (TaskOf(e.id).None? && e.retries == 0 ==> e.id in s.removed || Reached(s, (e.id, 0)))
  }

  predicate FreshEntry(y: Entry, e: Envelope) {
    y.record.envelope == e && y.intents == map[] && !y.record.state.Terminal() && y.record.replacement.None? &&
    y.record.pinned == e.workflow.Some?
  }

  lemma CreatedIsFresh(c: Client, ttl: Ttl, e: Envelope, op: Op, now: nat, y: Entry)
    requires op.Register? || op.Claim?
    requires (op.Register? ==> op.e == e) && (op.Claim? ==> op.e == e) && Commit(c, ttl, None, op, now) == Ok(Some(y))
    ensures FreshEntry(y, e)
  {
  }

  lemma FreshKeeps(c: Client, s: System, e: Envelope, y: Entry)
    requires Inv(c, s) && e.id !in s.entries && CreateOk(s, e) && FreshEntry(y, e) && Sound(c, y.record)
    ensures var s' := s.(entries := s.entries[e.id := y]); Inv(c, s') && Grows(s, s')
  {
    var s' := s.(entries := s.entries[e.id := y]);
    hide Sound;
    EntryPutGrows(c, s, e.id, y);
    KnownLasts(s, s', e);
    FreshObligations(s, s', e, y);
    hide Inv, Grows, Obligations, Known;
    EntryAfter(c, s, e.id, y);
  }

  lemma FreshObligations(s: System, s': System, e: Envelope, y: Entry)
    requires Grows(s, s') && e.id !in s.entries && CreateOk(s, e) && FreshEntry(y, e)
    ensures Obligations(s', e.id, y)
  {
    hide RowsGrow, EntriesGrow, Served, Reached;
  }

  /** Registering or claiming, whether or not the record exists. */
  lemma CreateCallKeeps(c: Client, ttl: Ttl, s: System, e: Envelope, op: Op)
    requires Inv(c, s) && CreateOk(s, e) && WellFormed(op) && (op.Register? || op.Claim?)
    requires (op.Register? ==> op.e == e) && (op.Claim? ==> op.e == e) && Call(c, ttl, s, e.id, op).Some?
    ensures var s' := Call(c, ttl, s, e.id, op).value; Inv(c, s') && Grows(s, s')
  {
    if e.id in s.entries {
      hide Inv, Grows, Commit, Call, WellFormed;
      MildCallKeeps(c, ttl, s, e.id, op);
    } else {
      var r := Commit(c, ttl, EntryAt(s, e.id), op, s.clock).value;
      if r.Some? {
        EntryStep(c, ttl, None, op, s.clock, r.value);
        CreatedIsFresh(c, ttl, e, op, s.clock, r.value);
        hide Inv, Grows, Commit, Sound, FreshEntry, CreateOk;
        FreshKeeps(c, s, e, r.value);
      } else {
        hide Commit;
        SameSystem(c, s, s);
      }
    }
  }

  // ---- registering ----

  lemma RegisterAcceptedKeeps(c: Client, ttl: Ttl, s: System, e: Envelope, origin: Option<Intent>, state: State)
    requires Inv(c, s)
    ensures Inv(c, DoRegisterAccepted(c, ttl, s, e, origin, state))
  {
    if DoRegisterAccepted(c, ttl, s, e, origin, state) != s {
      assert PermitOk(s, Registering(e, origin));
      hide Inv, Fact, Known, Call, Served;
      CreateCallKeeps(c, ttl, s, e, Register(e, state));
      if origin.Some? {
        var s1 := Call(c, ttl, s, e.id, Register(e, state)).value;
        FactLasts(s, s1, origin.value);
        assert Reached(s1, KeyOf(e));
        hide Grows, Reached;
        GrantDone(c, s1, origin.value);
      }
    }
  }

  lemma RegisterEnvelopeOk(c: Client, s: System, src: Source)
    requires Inv(c, s) && RegisterEnvelope(s, src).Some?
    ensures CreateOk(s, RegisterEnvelope(s, src).value)
    ensures src.OfIntent? ==>
              Fact(s, src.x) && RegisterEnvelope(s, src).value.id == src.x.payload.envelope.id &&
              src.x.payload.envelope.retries == 0 && RegisterEnvelope(s, src).value.retries == 0
  {
    match src
    case OfIntent(x) => RelayedFact(c, s, x);
    case OfItem(e) => assert PermitOk(s, Leased(e));
  }

  lemma RegisterForKeeps(c: Client, ttl: Ttl, s: System, src: Source, state: State)
    requires Inv(c, s)
    ensures Inv(c, DoRegisterFor(c, ttl, s, src, state))
  {
    hide Inv, Call, CreateOk, Fact, Grows, RegisterEnvelope;
    if DoRegisterFor(c, ttl, s, src, state) != s {
      RegisterEnvelopeOk(c, s, src);
      var e := RegisterEnvelope(s, src).value;
      CreateCallKeeps(c, ttl, s, e, Register(e, state));
    }
  }

  // ---- claiming ----

  lemma ClaimEnvelopeOk(c: Client, s: System, src: Source)
    requires Inv(c, s) && ClaimEnvelope(s, src).Some?
    ensures CreateOk(s, ClaimEnvelope(s, src).value)
    ensures src.OfDelivery? ==> src.receipt < |s.sent| && ClaimEnvelope(s, src).value == s.sent[src.receipt]
    ensures src.OfItem? ==> ClaimEnvelope(s, src).value == src.e
    ensures src.OfIntent? ==> Fact(s, src.x) && Claims(src.x, ClaimEnvelope(s, src).value)
  {
    match src
    case OfDelivery(r) => assert SentOk(s, r);
    case OfItem(e) => RegisterEnvelopeOk(c, s, src);
    case OfIntent(x) =>
      RelayedFact(c, s, x);
      if x.payload.CancelTask? { assert EntryOk(c, s, x.payload.envelope.id); } else { RegisterEnvelopeOk(c, s, src); }
  }

  /** A source is done with when its attempt is over. */
  lemma PastIsDone(s: System, src: Source, k: Key)
    requires PastOf(s, k)
    requires src.OfDelivery? ==> src.receipt < |s.sent| && KeyOf(s.sent[src.receipt]) == k
    requires src.OfItem? ==> KeyOf(src.e) == k
    requires src.OfIntent? ==> Fact(s, src.x) && src.x.payload.Fail? && KeyOf(src.x.payload.envelope) == k
    ensures PermitOk(s, Done(src))
  {
    hide Fact;
  }

  lemma ClaimForKeeps(c: Client, ttl: Ttl, s: System, src: Source, owner: string, lease: nat, at: nat)
    requires Inv(c, s)
    ensures Inv(c, DoClaimFor(c, ttl, s, src, owner, lease, at))
  {
    hide Inv, CreateOk, Fact, Grows, ClaimEnvelope, Call, Past, Cancels, CancelSeen, Claims;
    if DoClaimFor(c, ttl, s, src, owner, lease, at) != s {
      ClaimEnvelopeOk(c, s, src);
      var e := ClaimEnvelope(s, src).value;
      CreateCallKeeps(c, ttl, s, e, Claim(e, owner, lease, at));
      ClaimGrants(c, ttl, s, Call(c, ttl, s, e.id, Claim(e, owner, lease, at)).value, src, e, owner, lease, at);
    }
  }

  lemma ClaimGrants(c: Client, ttl: Ttl, s: System, s1: System, src: Source, e: Envelope, owner: string, lease: nat,
      at: nat)
    requires Inv(c, s1) && Grows(s, s1) && Call(c, ttl, s, e.id, Claim(e, owner, lease, at)) == Some(s1) &&
             CreateOk(s, e) && owner != ""
    requires src.OfDelivery? ==> src.receipt < |s.sent| && e == s.sent[src.receipt]
    requires src.OfItem? ==> e == src.e
    requires src.OfIntent? ==> Fact(s, src.x) && Claims(src.x, e)
    ensures var x, y := EntryAt(s, e.id), EntryAt(s1, e.id);
            Inv(c, if y != x && y.Some? then Grant(s1, Attempt(e, y.value.record.fence, owner))
                   else if x.Some? &&
                           (if Cancels(src) then CancelSeen(x.value.record) else Past(x.value.record, e.retries))
                   then Grant(s1, Done(src)) else s1)
  {
    hide Inv, Grows, Fact, CancelSeen, Past;
    var x, y := EntryAt(s, e.id), EntryAt(s1, e.id);
    if y != x && y.Some? {
      ClaimedAttempt(c, ttl, x, e, owner, lease, at, s.clock);
      GrownKnown(s, s1, e);
      hide Known, Call, CreateOk;
      GrantKeeps(c, s1, Attempt(e, y.value.record.fence, owner));
    } else if x.Some? && !Cancels(src) && Past(x.value.record, e.retries) {
      hide Call, CreateOk;
      GrownPast(s, s1, KeyOf(e));
      if src.OfIntent? { FactLasts(s, s1, src.x); }
      PastIsDone(s1, src, KeyOf(e));
      GrantKeeps(c, s1, Done(src));
    } else if x.Some? && Cancels(src) && CancelSeen(x.value.record) {
      hide Call, CreateOk;
      FactLasts(s, s1, src.x);
      AcceptedLasts(s, s1, src.x);
      GrantDone(c, s1, src.x);
    }
  }

  lemma GrownPast(s: System, s': System, k: Key)
    requires Grows(s, s') && PastOf(s, k)
    ensures PastOf(s', k) && s.sent <= s'.sent
  {
    PastLasts(s, s', k);
  }

  /** The envelope with which a relay answers a failure or a cancellation. */
  predicate Claims(x: Intent, e: Envelope) {
    (x.payload.Fail? && KeyOf(e) == KeyOf(x.payload.envelope)) ||
    (x.payload.CancelTask? && e.id == x.payload.envelope.id)
  }

  lemma ClaimedAttempt(c: Client, ttl: Ttl, x: Option<Entry>, e: Envelope, owner: string, lease: nat, at: nat, now: nat)
    requires Commit(c, ttl, x, Claim(e, owner, lease, at), now).Ok?
    requires var y := Commit(c, ttl, x, Claim(e, owner, lease, at), now).value; y != x && y.Some?
    ensures var r := Commit(c, ttl, x, Claim(e, owner, lease, at), now).value.value.record;
            r.digest == Digest(e) && r.envelope.retries == e.retries
  {
  }

  // ---- ending an attempt ----

  lemma AddNothing(stored: map<Id, Stored>)
    ensures AddIntents(stored, []) == stored
  {
  }

  lemma AddOne(stored: map<Id, Stored>, x: Intent)
    ensures AddIntents(stored, [x]) == if x.id in stored then stored else stored[x.id := Stored(x, false, 0, "", 0)]
  {
    assert [x][..0] == [];
  }

  /** An entry that gained at most one intent. */
  predicate Gained(x: Entry, y: Entry, batch: seq<Intent>) { |batch| <= 1 && y.intents == AddIntents(x.intents, batch) }

  lemma GainedItems(s: System, id: Id, x: Entry, y: Entry, batch: seq<Intent>, k: Id)
    requires Gained(x, y, batch) && k in y.intents
    requires batch != [] ==>
               batch[0].source == id && !OfGraph(batch[0]) && (batch[0].id !in x.intents ==> Fact(s, batch[0]))
    ensures Carried(Some(x), k, y.intents[k]) || StoredOk(s, id, k, y.intents[k])
    ensures batch != [] ==> batch[0].id in y.intents
  {
    hide Fact;
    if batch == [] { AddNothing(x.intents); } else { assert batch == [batch[0]]; AddOne(x.intents, batch[0]); }
  }

  lemma GainedOk(c: Client, s: System, id: Id, y: Entry, batch: seq<Intent>)
    requires Inv(c, s) && id in s.entries && EntryGrows(s.entries[id], y) && Sound(c, y.record) &&
             Gained(s.entries[id], y, batch)
    requires Known(s.(entries := s.entries[id := y]), y.record.envelope) &&
             Obligations(s.(entries := s.entries[id := y]), id, y)
    requires batch != [] ==>
               batch[0].source == id && !OfGraph(batch[0]) &&
               (batch[0].id !in s.entries[id].intents ==> Fact(s.(entries := s.entries[id := y]), batch[0]))
    ensures var s' := s.(entries := s.entries[id := y]); Inv(c, s') && Grows(s, s')
  {
    var s' := s.(entries := s.entries[id := y]);
    EntryPutGrows(c, s, id, y);
    assert y.record.envelope.id == id by { assert EntryOk(c, s, id); }
    forall k | k in y.intents ensures Carried(EntryAt(s, id), k, y.intents[k]) || StoredOk(s', id, k, y.intents[k]) {
      GainedItems(s', id, s.entries[id], y, batch, k);
    }
    hide Inv, Grows, Fact, Known, Obligations, StoredOk, Carried, Gained, EntryGrows, Sound;
    EntryAfter(c, s, id, y);
  }

  /** The obligations that a change of a live record must meet anew; the rest it inherits. */
  predicate NewObligations(s: System, id: Id, x: Entry, y: Entry) {
    var a, b := x.record, y.record;
    (b.state.Terminal() && b.envelope.workflow.Some? && !a.state.Terminal() ==>
      Stable(id, CompletionLabel) in y.intents) &&
    (b.envelope.retries != a.envelope.retries ==>
      b.envelope.retries > 0 && RetryId(id, b.envelope.retries) in y.intents) &&
    (b.replacement.Some? && a.replacement.None? ==>
      b.replacement.value == Stable(id, ReplacementLabel) && ReplaceId(id) in y.intents) &&
    (!b.pinned && a.pinned ==> ReleasedTask(s, id))
  }

  lemma ObligationsMet(s: System, id: Id, x: Entry, y: Entry)
    requires Obligations(s, id, x) && EntryGrows(x, y) && NewObligations(s, id, x, y) &&
             y.record.envelope.workflow == x.record.envelope.workflow
    ensures Obligations(s, id, y)
  {
    hide Reached, ReleasedTask;
  }

  /** A call on an existing record that gains at most one intent. */
  lemma GainingCallKeeps(c: Client, ttl: Ttl, s: System, id: Id, op: Op, y: Entry, batch: seq<Intent>)
    requires Inv(c, s) && id in s.entries && WellFormed(op) && Leaves(c, ttl, s, id, op, y) &&
             Gained(s.entries[id], y, batch)
    requires y.record.envelope.workflow == s.entries[id].record.envelope.workflow
    requires NewObligations(s, id, s.entries[id], y)
    requires batch != [] ==>
               batch[0].source == id && !OfGraph(batch[0]) &&
               (batch[0].id !in s.entries[id].intents ==> Fact(s.(entries := s.entries[id := y]), batch[0]))
    ensures var s' := s.(entries := s.entries[id := y]);
            Inv(c, s') && Grows(s, s') && Call(c, ttl, s, id, op) == Some(s')
  {
    var s', x := s.(entries := s.entries[id := y]), s.entries[id];
    EntrySound(c, s, id);
    EntryStep(c, ttl, Some(x), op, s.clock, y);
    EntryPutGrows(c, s, id, y);
    assert EntryOk(c, s, id);
    KnownLasts(s, s', x.record.envelope);
    ObligationsLast(s, s', id, x);
    hide Inv, Grows, Fact, Gained, Sound, Commit;
    assert NewObligations(s', id, x, y);
    ObligationsMet(s', id, x, y);
    assert Known(s', y.record.envelope);
    hide Known, Obligations, EntryGrows;
    GainedOk(c, s, id, y, batch);
  }
}
