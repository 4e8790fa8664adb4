/** Ending attempts, and what holds in every state of every run of the delivery protocol: no task
    is lost, an acknowledged intent was accepted, and nothing a live workflow needs is erased. */
module DeliveryRuns {
  import opened Protocol
  import opened Records
  import opened TaskLife
  import opened Engine
  import opened WorkflowStore
  import opened Rows
  import opened Delivery
  import opened DeliveryFacts
  import opened DeliverySafety
  import opened DeliveryTasks
  import DagRuns

  lemma FinishLeaves(c: Client, ttl: Ttl, s: System, id: Id, t: Transition, at: nat)
    requires Call(c, ttl, s, id, Finish(t, at)).Some?
    ensures id in s.entries && ApplyTransition(c, s.entries[id].record, t, at, ttl).Ok?
    ensures var next := ApplyTransition(c, s.entries[id].record, t, at, ttl).value;
            Leaves(c, ttl, s, id, Finish(t, at), Entry(next, AddIntents(s.entries[id].intents, t.intents)))
  {
    hide AddIntents, BatchOk, YieldOk, RetryOk, ReplayBound;
  }

  /** The record's own view of an attempt's envelope. */
  lemma AttemptFacts(c: Client, s: System, e: Envelope, fence: nat, owner: string)
    requires Inv(c, s) && Attempt(e, fence, owner) in s.permits
    ensures Known(s, e) && e.workflow == TaskOf(e.id)
    ensures e.id in s.entries ==>
              s.entries[e.id].record.envelope.workflow == TaskOf(e.id) && s.entries[e.id].record.envelope.id == e.id
  {
    assert PermitOk(s, Attempt(e, fence, owner));
    if e.id in s.entries { assert EntryOk(c, s, e.id); }
  }

  /** A terminal write stores the task's one completion with it. */
  lemma CompletionIsFact(s: System, s': System, e: Envelope, outcome: Outcome)
    requires Grows(s, s') && Known(s, e) && e.workflow.Some? && outcome.state.Terminal() && e.id in s'.entries
    requires var r := s'.entries[e.id].record;
             r.state == outcome.state && r.failure == outcome.failure && r.output == outcome.output
    requires var x := CompletionIntents(e, outcome)[0];
             x.id in s'.entries[e.id].intents && s'.entries[e.id].intents[x.id].intent == x
    ensures Fact(s', CompletionIntents(e, outcome)[0])
  {
    KnownIdLasts(s, s', e.id);
    hide KnownId, Grows;
  }

  predicate Ended(r: Record, next: Record, outcome: Outcome) {
    outcome.state.Terminal() && next.state == outcome.state && next.failure == outcome.failure &&
    next.output == outcome.output &&
    next.envelope == r.envelope && next.replacement == r.replacement && next.pinned == r.pinned
  }

  /** A batch of at most one new intent is stored as a fact. */
  predicate BatchFact(s: System, id: Id, x: Entry, batch: seq<Intent>) {
    batch != [] ==> batch[0].source == id && !OfGraph(batch[0]) && (batch[0].id !in x.intents ==> Fact(s, batch[0]))
  }

  lemma GainKeeps(c: Client, ttl: Ttl, s: System, id: Id, op: Op, y: Entry, batch: seq<Intent>)
    requires Inv(c, s) && id in s.entries && WellFormed(op) && Leaves(c, ttl, s, id, op, y) &&
             Gained(s.entries[id], y, batch)
    requires y.record.envelope.workflow == s.entries[id].record.envelope.workflow &&
             NewObligations(s, id, s.entries[id], y)
    requires BatchFact(s.(entries := s.entries[id := y]), id, s.entries[id], batch)
    ensures var s' := s.(entries := s.entries[id := y]);
            Inv(c, s') && Grows(s, s') && Call(c, ttl, s, id, op) == Some(s')
  {
    hide Inv, Grows, WellFormed, Leaves, Gained, NewObligations, Fact, Call;
    GainingCallKeeps(c, ttl, s, id, op, y, batch);
  }

  lemma EndingGains(s: System, e: Envelope, next: Record, outcome: Outcome)
    requires e.id in s.entries && Ended(s.entries[e.id].record, next, outcome) && Known(s, e) &&
             s.entries[e.id].record.envelope.workflow == e.workflow
    requires Grows(s,
               s.(entries := s.entries[e.id := Entry(next,
                 AddIntents(s.entries[e.id].intents, CompletionIntents(e, outcome)))]))
    ensures var x, batch := s.entries[e.id], CompletionIntents(e, outcome);
            var y := Entry(next, AddIntents(x.intents, batch));
            Gained(x, y, batch) && NewObligations(s, e.id, x, y) &&
            BatchFact(s.(entries := s.entries[e.id := y]), e.id, x, batch)
  {
    var x, batch := s.entries[e.id], CompletionIntents(e, outcome);
    var y := Entry(next, AddIntents(x.intents, batch));
    var s' := s.(entries := s.entries[e.id := y]);
    hide Grows, Known, ReleasedTask;
    if batch != [] {
      AddOne(x.intents, batch[0]);
      if batch[0].id !in x.intents { CompletionIsFact(s, s', e, outcome); }
    } else {
      AddNothing(x.intents);
    }
    hide Fact, AddIntents;
  }

  /** Any terminal write: of a worker, a relay, a dispatcher or a resolved replacement. */
  lemma EndingKeeps(c: Client, ttl: Ttl, s: System, e: Envelope, op: Op, next: Record, outcome: Outcome)
    requires Inv(c, s) && e.id in s.entries && WellFormed(op) && Known(s, e) &&
             Ended(s.entries[e.id].record, next, outcome)
    requires s.entries[e.id].record.envelope.workflow == e.workflow
    requires Leaves(c, ttl, s, e.id, op,
               Entry(next, AddIntents(s.entries[e.id].intents, CompletionIntents(e, outcome))))
    ensures Call(c, ttl, s, e.id, op).Some?
    ensures var s' := Call(c, ttl, s, e.id, op).value; Inv(c, s') && Grows(s, s') && EndedOf(s', e.id)
  {
    var x, batch := s.entries[e.id], CompletionIntents(e, outcome);
    var y := Entry(next, AddIntents(x.intents, batch));
    LeavesGrows(c, ttl, s, e.id, op, y);
    hide Inv, Grows, Known, WellFormed, Leaves, Call, AddIntents, CompletionIntents, Gained, NewObligations, BatchFact;
    EndingGains(s, e, next, outcome);
    GainKeeps(c, ttl, s, e.id, op, y, batch);
  }

  lemma LeavesGrows(c: Client, ttl: Ttl, s: System, id: Id, op: Op, y: Entry)
    requires Inv(c, s) && id in s.entries && WellFormed(op) && Leaves(c, ttl, s, id, op, y)
    ensures Grows(s, s.(entries := s.entries[id := y])) && EntryGrows(s.entries[id], y)
  {
    EntrySound(c, s, id);
    EntryStep(c, ttl, EntryAt(s, id), op, s.clock, y);
    hide Inv, Commit, EntryGrows;
    EntryPutGrows(c, s, id, y);
  }

  lemma EndShape(c: Client, ttl: Ttl, r: Record, e: Envelope, fence: nat, owner: string, outcome: Outcome, at: nat)
    requires ApplyTransition(c, r, Ending(e, fence, owner, outcome), at, ttl).Ok? && outcome.state.Terminal()
    ensures Ended(r, ApplyTransition(c, r, Ending(e, fence, owner, outcome), at, ttl).value, outcome)
  {
    hide CompletionIntents;
  }

  lemma EndCallKeeps(c: Client, ttl: Ttl, s: System, e: Envelope, fence: nat, owner: string, outcome: Outcome, at: nat)
    requires Inv(c, s) && Attempt(e, fence, owner) in s.permits && outcome.state.Terminal() && owner != ""
    requires Call(c, ttl, s, e.id, Finish(Ending(e, fence, owner, outcome), at)).Some?
    ensures var s' := Call(c, ttl, s, e.id, Finish(Ending(e, fence, owner, outcome), at)).value;
            Inv(c, s') && Grows(s, s') && EndedOf(s', e.id)
  {
    hide Inv, Grows, Known, Call, ApplyTransition, Leaves, AddIntents, CompletionIntents, Ended;
    var t := Ending(e, fence, owner, outcome);
    AttemptFacts(c, s, e, fence, owner);
    FinishLeaves(c, ttl, s, e.id, t, at);
    EndShape(c, ttl, s.entries[e.id].record, e, fence, owner, outcome, at);
    EndingKeeps(c, ttl, s, e, Finish(t, at), ApplyTransition(c, s.entries[e.id].record, t, at, ttl).value, outcome);
  }

  lemma RetryGains(s: System, e: Envelope, next: Record, batch: seq<Intent>)
    requires e.id in s.entries && Known(s, e) && next.envelope.id == e.id && next.envelope.workflow == e.workflow
    requires next.envelope.retries == s.entries[e.id].record.envelope.retries + 1 &&
             batch == [Intent(RetryId(e.id, next.envelope.retries), e.id, Publish(next.envelope))]
    requires var r := s.entries[e.id].record;
             next.replacement == r.replacement && next.pinned == r.pinned && !next.state.Terminal()
    ensures var x := s.entries[e.id];
            var y := Entry(next, AddIntents(x.intents, batch));
            Gained(x, y, batch) && NewObligations(s, e.id, x, y) &&
            BatchFact(s.(entries := s.entries[e.id := y]), e.id, x, batch)
  {
    hide ReleasedTask;
    AddOne(s.entries[e.id].intents, batch[0]);
    hide AddIntents;
  }

  lemma RetryShape(c: Client, ttl: Ttl, r: Record, e: Envelope, fence: nat, owner: string, eta: nat, at: nat)
    requires ApplyTransition(c, r, Retrying(e, fence, owner, eta), at, ttl).Ok?
    ensures var t, next := Retrying(e, fence, owner, eta),
              ApplyTransition(c, r, Retrying(e, fence, owner, eta), at, ttl).value;
            next.envelope == t.next.value && next.envelope.retries == r.envelope.retries + 1 &&
            next.replacement == r.replacement && next.pinned == r.pinned && next.state == RetryWait
  {
  }

  /** A committed retry stores the publication of the next attempt. */
  lemma RetryCallKeeps(c: Client, ttl: Ttl, s: System, e: Envelope, fence: nat, owner: string, eta: nat, at: nat)
    requires Inv(c, s) && Attempt(e, fence, owner) in s.permits && owner != ""
    requires Call(c, ttl, s, e.id, Finish(Retrying(e, fence, owner, eta), at)).Some?
    ensures var s' := Call(c, ttl, s, e.id, Finish(Retrying(e, fence, owner, eta), at)).value;
            Inv(c, s') && Grows(s, s') && PastOf(s', KeyOf(e))
  {
    hide Inv, Grows, Leaves, ApplyTransition, Call, Gained, NewObligations, BatchFact, AddIntents, Known;
    var t := Retrying(e, fence, owner, eta);
    FinishLeaves(c, ttl, s, e.id, t, at);
    AttemptFacts(c, s, e, fence, owner);
    var x, next := s.entries[e.id], ApplyTransition(c, s.entries[e.id].record, t, at, ttl).value;
    RetryShape(c, ttl, x.record, e, fence, owner, eta, at);
    RetryGains(s, e, next, t.intents);
    GainKeeps(c, ttl, s, e.id, Finish(t, at), Entry(next, AddIntents(x.intents, t.intents)), t.intents);
  }

  lemma YieldGains(s: System, e: Envelope, g: Graph, next: Record, batch: seq<Intent>)
    requires e.id in s.entries && PreparedFor(e, g) && batch == [Intent(ReplaceId(e.id), e.id, Replace(g))]
    requires var r := s.entries[e.id].record;
             next.envelope == r.envelope && next.replacement == Some(g.id) && next.pinned == r.pinned &&
             !next.state.Terminal()
    ensures var x := s.entries[e.id];
            var y := Entry(next, AddIntents(x.intents, batch));
            Gained(x, y, batch) && NewObligations(s, e.id, x, y) &&
            BatchFact(s.(entries := s.entries[e.id := y]), e.id, x, batch)
  {
    hide DagRuns.Initial, ReleasedTask;
    AddOne(s.entries[e.id].intents, batch[0]);
    hide AddIntents;
  }

  lemma YieldCallKeeps(c: Client, ttl: Ttl, s: System, e: Envelope, fence: nat, owner: string, g: Graph, at: nat)
    requires Inv(c, s) && Attempt(e, fence, owner) in s.permits && owner != "" && PreparedFor(e, g)
    requires Call(c, ttl, s, e.id, Finish(Yielding(e, fence, owner, g), at)).Some?
    ensures var s' := Call(c, ttl, s, e.id, Finish(Yielding(e, fence, owner, g), at)).value;
            Inv(c, s') && Grows(s, s') && PastOf(s', KeyOf(e))
  {
    hide Inv, Grows, Leaves, ApplyTransition, Call, PreparedFor, Gained, NewObligations, BatchFact, AddIntents;
    var t := Yielding(e, fence, owner, g);
    FinishLeaves(c, ttl, s, e.id, t, at);
    var x, next := s.entries[e.id], ApplyTransition(c, s.entries[e.id].record, t, at, ttl).value;
    YieldShape(c, ttl, x.record, e, fence, owner, g, at);
    YieldGains(s, e, g, next, t.intents);
    GainKeeps(c, ttl, s, e.id, Finish(t, at), Entry(next, AddIntents(x.intents, t.intents)), t.intents);
  }

  lemma YieldShape(c: Client, ttl: Ttl, r: Record, e: Envelope, fence: nat, owner: string, g: Graph, at: nat)
    requires ApplyTransition(c, r, Yielding(e, fence, owner, g), at, ttl).Ok?
    ensures var next := ApplyTransition(c, r, Yielding(e, fence, owner, g), at, ttl).value;
            next.envelope == r.envelope && next.replacement == Some(g.id) && next.pinned == r.pinned &&
            next.state == Running
  {
    hide YieldOk, ReplayBound;
  }

  /** The three ways an attempt is over: it ended, retries, or yields. */
  ghost predicate AttemptOver(src: Source, e: Envelope, t: Transition) {
    (t.state.Terminal() && t == Ending(e, t.fence, t.owner, Outcome(t.state, t.output, t.failure))) ||
    (src.OfDelivery? && exists eta :: t == Retrying(e, t.fence, t.owner, eta)) ||
    (src.OfDelivery? && exists g :: PreparedFor(e, g) && t == Yielding(e, t.fence, t.owner, g))
  }

  lemma OverKeeps(c: Client, ttl: Ttl, s: System, src: Source, e: Envelope, t: Transition, at: nat)
    requires Inv(c, s) && Attempt(e, t.fence, t.owner) in s.permits && t.owner != "" && AttemptOver(src, e, t) &&
             Call(c, ttl, s, e.id, Finish(t, at)).Some?
    ensures var s1 := Call(c, ttl, s, e.id, Finish(t, at)).value;
            Inv(c, s1) && Grows(s, s1) && (if src.OfDelivery? then PastOf(s1, KeyOf(e)) else EndedOf(s1, e.id))
  {
    hide Inv, Grows, Call, PreparedFor;
    if t.state.Terminal() {
      EndCallKeeps(c, ttl, s, e, t.fence, t.owner, Outcome(t.state, t.output, t.failure), at);
    } else if t.next.Some? {
      var eta :| t == Retrying(e, t.fence, t.owner, eta);
      RetryCallKeeps(c, ttl, s, e, t.fence, t.owner, eta, at);
    } else {
      var g :| PreparedFor(e, g) && t == Yielding(e, t.fence, t.owner, g);
      YieldCallKeeps(c, ttl, s, e, t.fence, t.owner, g, at);
    }
  }

  lemma FinishKeeps(c: Client, ttl: Ttl, s: System, src: Source, e: Envelope, t: Transition, at: nat)
    requires Inv(c, s) && AttemptOver(src, e, t)
    ensures Inv(c, DoFinish(c, ttl, s, src, e, t, at))
  {
    if DoFinish(c, ttl, s, src, e, t, at) != s {
      assert PermitOk(s, Attempt(e, t.fence, t.owner));
      if src.OfIntent? { RelayedFact(c, s, src.x); }
      hide Inv, Fact, Grows, Call, AttemptOver, PastOf, EndedOf;
      OverKeeps(c, ttl, s, src, e, t, at);
      var s1 := Call(c, ttl, s, e.id, Finish(t, at)).value;
      OverIsDone(s, s1, src, e);
      GrantKeeps(c, s1, Done(src));
    }
  }

  lemma OverIsDone(s: System, s': System, src: Source, e: Envelope)
    requires Grows(s, s') && Answers(s, src, e) && (src.OfIntent? ==> Fact(s, src.x))
    requires if src.OfDelivery? then PastOf(s', KeyOf(e)) else EndedOf(s', e.id)
    ensures PermitOk(s', Done(src))
  {
    if src.OfDelivery? {
      GrownSent(s, s');
      hide Grows;
      PastIsDone(s', src, KeyOf(e));
    } else {
      EndedIsDone(s, s', src, e);
    }
  }

  lemma GrownSent(s: System, s': System)
    requires Grows(s, s')
    ensures s.sent <= s'.sent
  {
  }

  lemma EndedIsDone(s: System, s': System, src: Source, e: Envelope)
    requires Grows(s, s') && EndedOf(s', e.id) && Answers(s, src, e) && (src.OfIntent? ==> Fact(s, src.x))
    ensures PermitOk(s', Done(src))
  {
    GrownSent(s, s');
    if src.OfIntent? { FactLasts(s, s', src.x); }
    hide Grows, Fact;
  }

  // ---- the other calls ----

  lemma CancelGains(s: System, id: Id)
    requires id in s.entries && !s.entries[id].record.state.Terminal() && s.entries[id].record.envelope.id == id
    requires s.entries[id].record.replacement.Some? ==>
               s.entries[id].record.replacement.value == Stable(id, ReplacementLabel)
    ensures var x := s.entries[id];
            var batch := CancellationIntents(x.record.(cancelRequested := true));
            var y := Entry(x.record.(cancelRequested := true, revision := x.record.revision + 1),
              AddIntents(x.intents, batch));
            Gained(x, y, batch) && NewObligations(s, id, x, y) &&
            BatchFact(s.(entries := s.entries[id := y]), id, x, batch)
  {
    var x := s.entries[id];
    var batch := CancellationIntents(x.record.(cancelRequested := true));
    var y := Entry(x.record.(cancelRequested := true, revision := x.record.revision + 1), AddIntents(x.intents, batch));
    var s' := s.(entries := s.entries[id := y]);
    hide ReleasedTask;
    if batch != [] {
      AddOne(x.intents, batch[0]);
      if batch[0].id !in x.intents { assert Fact(s', batch[0]); }
    } else {
      AddNothing(x.intents);
    }
    hide AddIntents, Fact;
  }

  lemma ReplacementShape(c: Client, s: System, id: Id)
    requires Inv(c, s) && id in s.entries
    ensures s.entries[id].record.envelope.id == id
    ensures s.entries[id].record.replacement.Some? ==>
              s.entries[id].record.replacement.value == Stable(id, ReplacementLabel)
  {
    assert EntryOk(c, s, id);
  }

  lemma RequestCancelKeeps(c: Client, ttl: Ttl, s: System, id: Id, scope: string)
    requires Inv(c, s) && Call(c, ttl, s, id, RequestCancel(scope)).Some?
    ensures Inv(c, Call(c, ttl, s, id, RequestCancel(scope)).value)
  {
    hide Inv, Grows, Leaves, Call, Gained, NewObligations, BatchFact, AddIntents, CancellationIntents;
    CancelLeaves(c, ttl, s, id, scope);
    var x := s.entries[id];
    if !x.record.state.Terminal() {
      var batch := CancellationIntents(x.record.(cancelRequested := true));
      ReplacementShape(c, s, id);
      CancelGains(s, id);
      GainKeeps(c, ttl, s, id, RequestCancel(scope),
        Entry(x.record.(cancelRequested := true, revision := x.record.revision + 1), AddIntents(x.intents, batch)),
          batch);
    }
  }

  lemma CancelLeaves(c: Client, ttl: Ttl, s: System, id: Id, scope: string)
    requires Call(c, ttl, s, id, RequestCancel(scope)).Some?
    ensures id in s.entries
    ensures var x := s.entries[id];
            if x.record.state.Terminal() then Call(c, ttl, s, id, RequestCancel(scope)) == Some(s)
            else Leaves(c, ttl, s, id, RequestCancel(scope),
                   Entry(x.record.(cancelRequested := true, revision := x.record.revision + 1),
                         AddIntents(x.intents, CancellationIntents(x.record.(cancelRequested := true)))))
  {
    assert id in s.entries;
    assert s.entries[id := s.entries[id]] == s.entries;
  }

  lemma TouchKeeps(c: Client, ttl: Ttl, s: System, id: Id, op: Op)
    requires Inv(c, s) && Touching(op) && WellFormed(op) && Call(c, ttl, s, id, op).Some?
    ensures Inv(c, Call(c, ttl, s, id, op).value)
  {
    if op.RequestCancel? {
      RequestCancelKeeps(c, ttl, s, id, op.scope);
    } else {
      assert id in s.entries;
      hide Inv, Call, Commit;
      MildCallKeeps(c, ttl, s, id, op);
    }
  }

  lemma PinGains(s: System, t: Id)
    requires t in s.entries && ReleasedTask(s, t)
    ensures var x := s.entries[t];
            var y := Entry(x.record.(pinned := false, revision := x.record.revision + 1), x.intents);
            Gained(x, y, []) && NewObligations(s, t, x, y) && BatchFact(s.(entries := s.entries[t := y]), t, x, [])
  {
    AddNothing(s.entries[t].intents);
    hide ReleasedTask;
  }

  lemma ReleasePinnedKeeps(c: Client, ttl: Ttl, s: System, x: Intent)
    requires Inv(c, s)
    ensures Inv(c, DoReleasePinned(c, ttl, s, x))
  {
    hide Inv, Grows, Leaves, Fact, ReleasedTask, Call, Gained, NewObligations, BatchFact;
    if DoReleasePinned(c, ttl, s, x) != s {
      UnpinReleases(c, s, x);
      var t := x.payload.target;
      PinLeaves(c, ttl, s, t);
      var y := Entry(s.entries[t].record.(pinned := false, revision := s.entries[t].record.revision + 1),
        s.entries[t].intents);
      PinGains(s, t);
      GainKeeps(c, ttl, s, t, ReleasePin, y, []);
      var s1 := s.(entries := s.entries[t := y]);
      FactLasts(s, s1, x);
      UnpinAccepted(s1, x);
      GrantDone(c, s1, x);
    }
  }

  lemma UnpinReleases(c: Client, s: System, x: Intent)
    requires Inv(c, s) && Relaying(x) in s.permits && x.payload.Unpin?
    ensures Fact(s, x) && ReleasedTask(s, x.payload.target)
  {
    RelayedFact(c, s, x);
    hide Inv;
  }

  lemma UnpinAccepted(s: System, x: Intent)
    requires x.payload.Unpin? && x.payload.target in s.entries && !s.entries[x.payload.target].record.pinned
    ensures Accepted(s, x)
  {
  }

  lemma PinLeaves(c: Client, ttl: Ttl, s: System, t: Id)
    requires Call(c, ttl, s, t, ReleasePin).Some?
    ensures t in s.entries &&
            Leaves(c, ttl, s, t, ReleasePin,
              Entry(s.entries[t].record.(pinned := false, revision := s.entries[t].record.revision + 1),
                s.entries[t].intents))
  {
    assert t in s.entries;
    AddNothing(s.entries[t].intents);
  }

  /** finalize always ends the task, and as revoked when a cancel is stored. */
  lemma FinalizeEnds(c: Client, ttl: Ttl, r: Record, w: Id, m: Completion, valid: bool, at: nat)
    requires ApplyReplacementOutcome(c, r, w, Finalize(r, m, valid), at, ttl).Ok?
    ensures var t, next := Finalize(r, m, valid),
              ApplyReplacementOutcome(c, r, w, Finalize(r, m, valid), at, ttl).value;
            Ended(r, next, Outcome(t.state, t.output, t.failure)) && next.revision == r.revision + 1 &&
            t.intents == CompletionIntents(r.envelope, Outcome(t.state, t.output, t.failure)) &&
            |t.intents| == (if r.envelope.workflow.Some? then 1 else 0) &&
            (r.cancelRequested ==> next.state == Revoked && next.output.None?) &&
            (!r.cancelRequested && (valid || m.outcome.state != Succeeded) ==>
              Outcome(next.state, next.output, next.failure) == m.outcome)
  {
  }

  lemma ResolveTaskKeeps(c: Client, ttl: Ttl, s: System, x: Intent, valid: bool, at: nat)
    requires Inv(c, s)
    ensures Inv(c, DoResolveTask(c, ttl, s, x, valid, at))
  {
    if DoResolveTask(c, ttl, s, x, valid, at) != s {
      RelayedFact(c, s, x);
      hide Inv, Fact, Call, Grows, Finalize;
      ResolveCallKeeps(c, ttl, s, x.payload.target, x.payload.workflow, x.payload.completion, valid, at);
      var s1 := Call(c, ttl, s, x.payload.target,
        Resolve(x.payload.workflow, Finalize(s.entries[x.payload.target].record, x.payload.completion, valid),
          at)).value;
      FactLasts(s, s1, x);
      GrantDone(c, s1, x);
    }
  }

  lemma ResolveCallKeeps(c: Client, ttl: Ttl, s: System, id: Id, w: Id, m: Completion, valid: bool, at: nat)
    requires Inv(c, s) && id in s.entries &&
             Call(c, ttl, s, id, Resolve(w, Finalize(s.entries[id].record, m, valid), at)).Some?
    ensures var s1 := Call(c, ttl, s, id, Resolve(w, Finalize(s.entries[id].record, m, valid), at)).value;
            Inv(c, s1) && Grows(s, s1) && EndedOf(s1, id)
  {
    hide Inv, Call, Grows, Leaves, Known, ApplyReplacementOutcome, Finalize, CompletionIntents, AddIntents, Ended;
    var r := s.entries[id].record;
    var t := Finalize(r, m, valid);
    ResolveLeaves(c, ttl, s, id, w, t, at);
    EntryFacts(c, s, id);
    if r.state.Terminal() {
      SameSystem(c, s, s);
    } else {
      FinalizeEnds(c, ttl, r, w, m, valid, at);
      var next := ApplyReplacementOutcome(c, r, w, t, at, ttl).value;
      assert next.(revision := r.revision + 1) == next;
      EndingKeeps(c, ttl, s, r.envelope, Resolve(w, t, at), next, Outcome(t.state, t.output, t.failure));
    }
  }

  lemma EntryFacts(c: Client, s: System, id: Id)
    requires Inv(c, s) && id in s.entries
    ensures Known(s, s.entries[id].record.envelope) && s.entries[id].record.envelope.id == id
  {
    assert EntryOk(c, s, id);
  }

  lemma ResolveLeaves(c: Client, ttl: Ttl, s: System, id: Id, w: Id, t: Transition, at: nat)
    requires Call(c, ttl, s, id, Resolve(w, t, at)).Some?
    ensures id in s.entries
    ensures var x := s.entries[id];
            if x.record.state.Terminal() then Call(c, ttl, s, id, Resolve(w, t, at)) == Some(s)
            else ApplyReplacementOutcome(c, x.record, w, t, at, ttl).Ok? &&
                 Leaves(c, ttl, s, id, Resolve(w, t, at),
                   Entry(ApplyReplacementOutcome(c, x.record, w, t, at, ttl).value.(revision := x.record.revision + 1),
                     AddIntents(x.intents, t.intents)))
  {
    assert id in s.entries;
    assert s.entries[id := s.entries[id]] == s.entries;
    hide AddIntents, BatchOk;
  }

  lemma MarkKeeps(c: Client, ttl: Ttl, s: System, x: Intent, fence: nat, owner: string)
    requires Inv(c, s)
    ensures Inv(c, DoMark(c, ttl, s, x, fence, owner))
  {
    if Done(OfIntent(x)) in s.permits {
      DoneFact(c, s, x);
      hide Inv, Fact, Accepted, Call, Leaves;
      if OfGraph(x) {
        MarkGraphKeeps(c, s, x);
      } else if DoMark(c, ttl, s, x, fence, owner) != s {
        MarkLeaves(c, ttl, s, x, fence, owner);
        MarkTaskKeeps(c, ttl, s, x, MarkIntent(x.id, fence, owner));
      }
    }
  }

  lemma DoneFact(c: Client, s: System, x: Intent)
    requires Inv(c, s) && Done(OfIntent(x)) in s.permits
    ensures Fact(s, x) && Accepted(s, x)
  {
    assert PermitOk(s, Done(OfIntent(x)));
  }

  lemma MarkLeaves(c: Client, ttl: Ttl, s: System, x: Intent, fence: nat, owner: string)
    requires Call(c, ttl, s, x.source, MarkIntent(x.id, fence, owner)).Some? &&
             Call(c, ttl, s, x.source, MarkIntent(x.id, fence, owner)).value != s
    ensures x.source in s.entries && x.id in s.entries[x.source].intents
    ensures var entry := s.entries[x.source];
            Leaves(c, ttl, s, x.source, MarkIntent(x.id, fence, owner),
              entry.(intents := entry.intents[x.id := entry.intents[x.id].(delivered := true)]))
  {
    assert x.source in s.entries;
    assert s.entries[x.source := s.entries[x.source]] == s.entries;
  }

  lemma MarkTaskKeeps(c: Client, ttl: Ttl, s: System, x: Intent, op: Op)
    requires Inv(c, s) && Fact(s, x) && Accepted(s, x) && !OfGraph(x) && x.source in s.entries &&
             x.id in s.entries[x.source].intents && op.MarkIntent?
    requires var entry := s.entries[x.source];
             Leaves(c, ttl, s, x.source, op,
               entry.(intents := entry.intents[x.id := entry.intents[x.id].(delivered := true)]))
    ensures Call(c, ttl, s, x.source, op).Some? && Inv(c, Call(c, ttl, s, x.source, op).value)
  {
    hide Inv, Leaves, Call, Grows, Fact, Accepted, EntryGrows;
    var id, entry := x.source, s.entries[x.source];
    var y := entry.(intents := entry.intents[x.id := entry.intents[x.id].(delivered := true)]);
    LeavesCall(c, ttl, s, id, op, y);
    LeavesGrows(c, ttl, s, id, op, y);
    MarkedEntryKeeps(c, s, x);
  }

  lemma LeavesCall(c: Client, ttl: Ttl, s: System, id: Id, op: Op, y: Entry)
    requires Leaves(c, ttl, s, id, op, y)
    ensures Call(c, ttl, s, id, op) == Some(s.(entries := s.entries[id := y]))
  {
    hide Commit;
  }

  lemma MarkedEntryKeeps(c: Client, s: System, x: Intent)
    requires Inv(c, s) && Fact(s, x) && Accepted(s, x) && !OfGraph(x) && x.source in s.entries &&
             x.id in s.entries[x.source].intents
    requires var entry := s.entries[x.source];
             var y := entry.(intents := entry.intents[x.id := entry.intents[x.id].(delivered := true)]);
             Grows(s, s.(entries := s.entries[x.source := y]))
    ensures var entry := s.entries[x.source];
            var y := entry.(intents := entry.intents[x.id := entry.intents[x.id].(delivered := true)]);
            Inv(c, s.(entries := s.entries[x.source := y]))
  {
    hide Inv, Grows, Fact, Accepted, Known, Obligations, StoredOk, Sound;
    var id, entry := x.source, s.entries[x.source];
    var y := entry.(intents := entry.intents[x.id := entry.intents[x.id].(delivered := true)]);
    var s' := s.(entries := s.entries[id := y]);
    ObligationsOf(c, s, id);
    GrownKnown(s, s', entry.record.envelope);
    ObligationsLast(s, s', id, entry);
    MarkObligations(s', id, entry, y);
    MarkedItem(c, s, s', x);
    EntryAfter(c, s, id, y);
  }

  /** The marked item is in order: what is stored under its key is the accepted intent itself. */
  lemma MarkedItem(c: Client, s: System, s': System, x: Intent)
    requires Inv(c, s) && Grows(s, s') && Fact(s, x) && Accepted(s, x) && !OfGraph(x) && x.source in s.entries &&
             x.id in s.entries[x.source].intents
    ensures StoredOk(s', x.source, x.id, s.entries[x.source].intents[x.id].(delivered := true))
  {
    var item := s.entries[x.source].intents[x.id];
    assert x.source in s.removed || item.intent == x;
    assert s.removed <= s'.removed;
    hide Inv, Grows, Fact, Accepted;
    ItemOf(c, s, x.source, x.id);
    StoredOkLasts(s, s', x.source, x.id, item);
    AcceptedLasts(s, s', x);
  }

  lemma MarkObligations(s: System, id: Id, x: Entry, y: Entry)
    requires Obligations(s, id, x) && y.record == x.record && y.intents.Keys == x.intents.Keys
    ensures Obligations(s, id, y)
  {
    hide Reached, ReleasedTask;
  }

  lemma RemoveKeeps(c: Client, ttl: Ttl, s: System, id: Id, at: nat)
    requires Inv(c, s) && Call(c, ttl, s, id, Delete(at)).Some?
    ensures Inv(c, Call(c, ttl, s, id, Delete(at)).value)
  {
    hide Inv, Call, Grows;
    RemoveLeaves(c, ttl, s, id, at);
    var s' := s.(entries := s.entries - {id}, removed := s.removed + {id});
    RemoveGrows(c, s, s', id);
    RemovedKeeps(c, s, s', id);
  }

  lemma RemovedKeeps(c: Client, s: System, s': System, id: Id)
    requires Inv(c, s) && id in s.entries && !s.entries[id].record.pinned && Grows(s, s')
    requires s' == s.(entries := s.entries - {id}, removed := s.removed + {id})
    ensures Inv(c, s')
  {
    hide Inv, TransportOk, RowStateOk, EntryOk, Grows, ReleasedTask, MarkOk, PermitOk;
    RemovedPins(c, s, s', id);
    TransportOf(c, s);
    TransportLasts(s, s');
    InvGrows(c, s, s');
  }

  lemma RemoveLeaves(c: Client, ttl: Ttl, s: System, id: Id, at: nat)
    requires Call(c, ttl, s, id, Delete(at)).Some?
    ensures id in s.entries && Deletable(s.entries[id], at)
    ensures Call(c, ttl, s, id, Delete(at)) == Some(s.(entries := s.entries - {id}, removed := s.removed + {id}))
  {
  }

  lemma RemoveGrows(c: Client, s: System, s': System, id: Id)
    requires Inv(c, s) && id in s.entries && s' == s.(entries := s.entries - {id}, removed := s.removed + {id})
    ensures Grows(s, s')
  {
    hide Inv, EntryGrows, RowsGrow;
    RowsSame(s, s');
    forall k | k in s.entries && k != id ensures EntryGrows(s.entries[k], s'.entries[k]) { SameEntry(c, s, k); }
    assert EntriesGrow(s, s');
    hide EntriesGrow;
    SameTransport(s, s');
  }

  lemma RemovedPins(c: Client, s: System, s': System, id: Id)
    requires Inv(c, s) && Grows(s, s') && id in s.entries && !s.entries[id].record.pinned
    ensures ReleasedTask(s', id)
  {
    assert EntryOk(c, s, id);
    ReleasedLasts(s, s', id);
  }

  lemma SkipKeeps(c: Client, s: System, src: Source)
    requires Inv(c, s)
    ensures Inv(c, DoSkip(s, src))
  {
    hide Inv, Fact, CreateOk;
    if DoSkip(s, src) != s {
      RegisterEnvelopeOk(c, s, src);
      if src.OfIntent? { GrantDone(c, s, src.x); } else { SkippedItem(c, s, src.e); }
    }
  }

  lemma SkippedItem(c: Client, s: System, e: Envelope)
    requires Inv(c, s) && e.id in s.entries && s.entries[e.id].record.state.Terminal()
    ensures Inv(c, Grant(s, Done(OfItem(e))))
  {
    assert PastOf(s, KeyOf(e));
    hide Inv;
    GrantKeeps(c, s, Done(OfItem(e)));
  }

  // ---- repair ----

  /** Until a graph has recorded a task, the task's record holds exactly what its stored completion
      reports. */
  lemma UnrecordedIsExact(c: Client, s: System, g: Id, id: Id)
    requires Inv(c, s) && g in s.rows && id in s.entries && id !in s.removed && TaskOf(id) == Some(g) &&
             id !in s.rows[g].graph.members
    requires s.entries[id].record.state.Terminal()
    ensures var k := Stable(id, CompletionLabel);
            k in s.entries[id].intents &&
            s.entries[id].intents[k].intent.payload == Complete(g, RepairCompletion(s, s.entries[id].record))
  {
    hide Inv;
    ObligationsOf(c, s, id);
    hide Reached, Sound;
    ItemOf(c, s, id, Stable(id, CompletionLabel));
    CompletionIsExact(s, id, s.entries[id].intents[Stable(id, CompletionLabel)]);
  }

  lemma CompletionIsExact(s: System, id: Id, item: Stored)
    requires StoredOk(s, id, Stable(id, CompletionLabel), item) && id in s.entries && id !in s.removed
    requires s.entries[id].record.pinned && s.entries[id].record.envelope.id == id
    ensures TaskOf(id).Some? &&
            item.intent.payload == Complete(TaskOf(id).value, RepairCompletion(s, s.entries[id].record))
  {
  }

  lemma RepairLegit(c: Client, s: System, g: Id, id: Id)
    requires Inv(c, s) && g in s.rows && id in s.entries && Expected(s.rows[g].graph, id) &&
             s.entries[id].record.state.Terminal()
    ensures var m := RepairCompletion(s, s.entries[id].record);
            m.id == id && TaskOf(id) == Some(g) && LegitRow(s.rows[g], DagRuns.Completed(m)) &&
            (id !in s.rows[g].graph.members ==> MemberTrue(s, id, m, true))
  {
    hide Inv, RowOk, MembersTrue, Replaces, Obligations, Expected;
    RowOf(c, s, g);
    ObligationsOf(c, s, id);
    ExpectedIsTask(c, s.rows[g], id);
    RowTaskOf(c, s.rows[g], id);
    if id !in s.removed && id !in s.rows[g].graph.members { UnrecordedIsExact(c, s, g, id); }
  }

  lemma RepairKeeps(c: Client, s: System, g: Id, id: Id)
    requires Inv(c, s)
    ensures Inv(c, DoRepair(c, s, g, id))
  {
    hide Inv, LegitRow, MemberTrue, Expected, RepairCompletion, RecordMemberSpec, DagRuns.StepRow, Grows, VisibleOutput;
    if DoRepair(c, s, g, id) != s {
      RepairLegit(c, s, g, id);
      var m := RepairCompletion(s, s.entries[id].record);
      StepIsRecord(c, s.rows[g], m);
      RowStepKeeps(c, s, g, DagRuns.Completed(m));
    }
  }

  lemma StepIsRecord(c: Client, row: Row, m: Completion)
    ensures RecordMemberSpec(c, row, m).Ok? ==>
              DagRuns.StepRow(c, row, DagRuns.Completed(m)) == RecordMemberSpec(c, row, m).value
  {
    hide RecordMemberSpec;
  }

  // ---- runs ----

  lemma TransportActionKeeps(c: Client, ttl: Ttl, s: System, a: Action)
    requires Inv(c, s)
    requires a.Submit? || a.Take? || a.RelayPublish? || a.RegisterAccepted? || a.Lease? || a.FirePublish? || a.Skip? ||
             a.Ack? || a.Reject? || a.CommitFire? || a.ForgetPublication? || a.Tick?
    ensures Inv(c, Do(c, ttl, s, a))
  {
    hide Inv, DoSubmit, DoTake, DoRelayPublish, DoRegisterAccepted, DoLease, DoFirePublish, DoRegisterFor, DoClaimFor,
           DoFinish, DoSkip, DoMark,
      DoRecordCompletion, DoReleasePinned, DoCreateReplacement, DoResolveTask, DoCancelByTask, DoApplyCanvas, DoRepair,
        Call, CancelGraphSpec, PreparedFor, WellFormed, Ending, Retrying, Yielding;
    match a
    case Submit(e, later) => SubmitKeeps(c, s, e, later);
    case Take(x) => TakeKeeps(c, s, x);
    case RelayPublish(x, later) => RelayPublishKeeps(c, s, x, later);
    case RegisterAccepted(e, x, state) => RegisterAcceptedKeeps(c, ttl, s, e, x, state);
    case Lease(key) => LeaseKeeps(c, s, key);
    case FirePublish(e) => FirePublishKeeps(c, s, e);
    case Skip(src) => SkipKeeps(c, s, src);
    case Ack(r) => if Done(OfDelivery(r)) in s.permits { AckKeeps(c, s, r); }
    case Reject(r) => if r < |s.sent| { RejectKeeps(c, s, r); }
    case CommitFire(e) => if Done(OfItem(e)) in s.permits { CommitFireKeeps(c, s, e); }
    case ForgetPublication(key) => PlainKeeps(c, s, s.(published := s.published - {key}));
    case Tick(now) => if s.clock <= now { PlainKeeps(c, s, s.(clock := now)); }
  }

  lemma TaskActionKeeps(c: Client, ttl: Ttl, s: System, a: Action)
    requires Inv(c, s) &&
             (a.RegisterFor? || a.ClaimFor? || a.Touch? || a.Mark? || a.ReleasePinned? || a.ResolveTask? || a.Remove?)
    ensures Inv(c, Do(c, ttl, s, a))
  {
    hide Inv, DoSubmit, DoTake, DoRelayPublish, DoRegisterAccepted, DoLease, DoFirePublish, DoRegisterFor, DoClaimFor,
           DoFinish, DoSkip, DoMark,
      DoRecordCompletion, DoReleasePinned, DoCreateReplacement, DoResolveTask, DoCancelByTask, DoApplyCanvas, DoRepair,
        Call, CancelGraphSpec, PreparedFor, WellFormed, Ending, Retrying, Yielding;
    match a
    case RegisterFor(src, state) => RegisterForKeeps(c, ttl, s, src, state);
    case ClaimFor(src, owner, lease, at) => ClaimForKeeps(c, ttl, s, src, owner, lease, at);
    case Touch(id, op) => if Touching(op) && WellFormed(op) &&
                          Call(c, ttl, s, id, op).Some? { TouchKeeps(c, ttl, s, id, op); }
    case Mark(x, fence, owner) => MarkKeeps(c, ttl, s, x, fence, owner);
    case ReleasePinned(x) => ReleasePinnedKeeps(c, ttl, s, x);
    case ResolveTask(x, valid, at) => ResolveTaskKeeps(c, ttl, s, x, valid, at);
    case Remove(id, at) => if Call(c, ttl, s, id, Delete(at)).Some? { RemoveKeeps(c, ttl, s, id, at); }
  }

  lemma GraphActionKeeps(c: Client, ttl: Ttl, s: System, a: Action)
    requires Inv(c, s) &&
             (a.RecordCompletion? || a.CreateReplacement? || a.CancelByTask? || a.ApplyCanvas? || a.CancelByUser? ||
             a.Repair?)
    ensures Inv(c, Do(c, ttl, s, a))
  {
    hide Inv, DoSubmit, DoTake, DoRelayPublish, DoRegisterAccepted, DoLease, DoFirePublish, DoRegisterFor, DoClaimFor,
           DoFinish, DoSkip, DoMark,
      DoRecordCompletion, DoReleasePinned, DoCreateReplacement, DoResolveTask, DoCancelByTask, DoApplyCanvas, DoRepair,
        Call, CancelGraphSpec, PreparedFor, WellFormed, Ending, Retrying, Yielding;
    match a
    case RecordCompletion(x) => RecordCompletionKeeps(c, s, x);
    case CreateReplacement(x) => CreateReplacementKeeps(c, s, x);
    case CancelByTask(x) => CancelByTaskKeeps(c, s, x);
    case ApplyCanvas(g) => ApplyCanvasKeeps(c, s, g);
    case CancelByUser(id) =>
      if id in s.rows && CancelGraphSpec(c, s.rows[id]).Ok? && Storable(c, CancelGraphSpec(c, s.rows[id]).value.graph) {
        CancelRowKeeps(c, s, id);
      }
    case Repair(g, id) => RepairKeeps(c, s, g, id);
  }

  /** Every action of every process keeps the invariant. */
  lemma ActionKeeps(c: Client, ttl: Ttl, s: System, a: Action)
    requires Inv(c, s)
    ensures Inv(c, Do(c, ttl, s, a))
  {
    hide Inv, Do;
    if a.EndFor? || a.RetryFor? || a.YieldFor? {
      AttemptKeeps(c, ttl, s, a);
    } else if a.RegisterFor? || a.ClaimFor? || a.Touch? || a.Mark? || a.ReleasePinned? || a.ResolveTask? || a.Remove? {
      TaskActionKeeps(c, ttl, s, a);
    } else if a.RecordCompletion? || a.CreateReplacement? || a.CancelByTask? || a.ApplyCanvas? || a.CancelByUser? ||
    a.Repair? {
      GraphActionKeeps(c, ttl, s, a);
    } else {
      TransportActionKeeps(c, ttl, s, a);
    }
  }

  lemma AttemptKeeps(c: Client, ttl: Ttl, s: System, a: Action)
    requires Inv(c, s) && (a.EndFor? || a.RetryFor? || a.YieldFor?)
    ensures Inv(c, Do(c, ttl, s, a))
  {
    hide Inv, DoFinish, PreparedFor;
    match a
    case EndFor(src, e, fence, owner, outcome, at) =>
      if outcome.state.Terminal() { FinishKeeps(c, ttl, s, src, e, Ending(e, fence, owner, outcome), at); }
    case RetryFor(r, fence, owner, eta, at) =>
      if r < |s.sent| { FinishKeeps(c, ttl, s, OfDelivery(r), s.sent[r], Retrying(s.sent[r], fence, owner, eta), at); }
    case YieldFor(r, fence, owner, g, at) =>
      if r < |s.sent| && PreparedFor(s.sent[r], g) {
        FinishKeeps(c, ttl, s, OfDelivery(r), s.sent[r], Yielding(s.sent[r], fence, owner, g), at);
      }
  }

  lemma {:induction false} RunsKeepInvariant(c: Client, ttl: Ttl, actions: seq<Action>)
    ensures Inv(c, Reach(c, ttl, actions))
    decreases |actions|
  {
    hide Do;
    if actions != [] {
      hide Inv;
      RunsKeepInvariant(c, ttl, actions[..|actions| - 1]);
      ActionKeeps(c, ttl, Reach(c, ttl, actions[..|actions| - 1]), actions[|actions| - 1]);
    }
  }

  /** A state some run reaches. */
  ghost predicate Arises(c: Client, ttl: Ttl, s: System) { exists actions :: s == Reach(c, ttl, actions) }

  lemma ArisesInv(c: Client, ttl: Ttl, s: System)
    requires Arises(c, ttl, s)
    ensures Inv(c, s)
  {
    hide Inv, Reach;
    var actions :| s == Reach(c, ttl, actions);
    RunsKeepInvariant(c, ttl, actions);
  }
}
