/** The delivery protocol as one step relation: workers, intent relays, delayed dispatchers,
    clients and maintenance act on the result store, the workflow store, the broker and the delay
    store, one store call at a time. What a process has learnt from a call is a permit; a process
    that dies simply never uses its permits, so a run may stop any of them between two calls. */
module Delivery {
  import opened Protocol
  import opened Records
  import opened TaskLife
  import opened WorkflowStore
  import opened Flat
  import opened DagMeaning
  import opened FlatRuns
  import opened Rows
  import DagRuns
  import ResultStore

  /** One publication of one attempt. */
  type Key = (Id, nat)

  function KeyOf(e: Envelope): Key { (e.id, e.retries) }

  /** What a process works for: a broker delivery, an intent, or a due delayed item. */
  datatype Source = OfDelivery(receipt: nat) | OfIntent(x: Intent) | OfItem(e: Envelope)

  datatype Permit =
    | Attempt(e: Envelope, fence: nat, owner: string)     // acquired a claim
    | Registering(e: Envelope, origin: Option<Intent>)    // had the envelope accepted by broker or delay store
    | Relaying(x: Intent)                                 // read a pending intent
    | Leased(e: Envelope)                                 // leased a due item
    | Done(src: Source)                                   // may acknowledge its source

  datatype System = System(
    clock: nat, entries: map<Id, Entry>, removed: set<Id>, rows: map<Id, Row>, marked: set<Id>,
    sent: seq<Envelope>, unacked: set<nat>, published: map<Key, Envelope>,
    items: map<Key, Envelope>, delayed: set<Key>, quarantine: set<Key>, permits: set<Permit>)

  function Grant(s: System, p: Permit): System { s.(permits := s.permits + {p}) }

  // ---- transports ----

  /** Broker.Publish: a known publication is accepted again without a second message. */
  function Enqueue(c: Client, s: System, e: Envelope): Option<System> {
    if !c.admits(e) then None
    else if KeyOf(e) in s.published then (if s.published[KeyOf(e)] == e then Some(s) else None)
    else Some(s.(sent := s.sent + [e], unacked := s.unacked + {|s.sent|}, published := s.published[KeyOf(e) := e]))
  }

  /** Schedules.Schedule. */
  function Postpone(c: Client, s: System, e: Envelope): Option<System> {
    if !c.admits(e) then None
    else if KeyOf(e) in s.delayed then (if KeyOf(e) in s.items && s.items[KeyOf(e)] == e then Some(s) else None)
    else Some(s.(items := s.items[KeyOf(e) := e], delayed := s.delayed + {KeyOf(e)}))
  }

  function Transport(c: Client, s: System, e: Envelope, later: bool): Option<System> {
    if later then Postpone(c, s, e) else Enqueue(c, s, e)
  }

  // ---- result store calls ----

  /** One committed operation on one task; None when the store refuses it. */
  function Call(c: Client, ttl: Ttl, s: System, id: Id, op: Op): Option<System> {
    match Commit(c, ttl, ResultStore.Find(s.entries, id), op, s.clock)
    case Err(_) => None
    case Ok(Some(entry)) => Some(s.(entries := s.entries[id := entry]))
    case Ok(None) => Some(if id in s.entries then s.(entries := s.entries - {id}, removed := s.removed + {id}) else s)
  }

  function Ending(e: Envelope, fence: nat, owner: string, outcome: Outcome): Transition {
    Transition(e.id, fence, owner, outcome.state, outcome.output, outcome.failure, None, CompletionIntents(e, outcome),
      None)
  }

  function RetryId(id: Id, n: nat): Id { Stable(id, RetryLabel(n)) }

  function Retrying(e: Envelope, fence: nat, owner: string, eta: nat): Transition {
    var next := e.(retries := e.retries + 1, eta := eta);
    Transition(e.id, fence, owner, RetryWait, None, None, Some(next),
      [Intent(RetryId(e.id, next.retries), e.id, Publish(next))], None)
  }

  function ReplaceId(id: Id): Id { Stable(id, ReplaceLabel) }

  function Yielding(e: Envelope, fence: nat, owner: string, g: Graph): Transition {
    Transition(e.id, fence, owner, Running, None, None, None, [Intent(ReplaceId(e.id), e.id, Replace(g))], Some(g.id))
  }

  /** A compiled plan beyond the 2000 nodes that advance accepts. */
  predicate Oversized(g: Graph) { g.kind.Dag? && g.state == Running && |g.plan| > 2000 && g.abortFailure.None? }

  /** What prepareReplacement hands to a yielding worker. */
  predicate PreparedFor(e: Envelope, g: Graph) {
    (DagRuns.Initial(g) || Oversized(g)) && !g.cancelRequested && g.revision == 1 &&
    g.id == Stable(e.id, ReplacementLabel) && g.originTask == Some(e.id) &&
    g.originDigest == Some(Digest(e)) && g.scope == e.scope &&
    forall n | 0 <= n < |g.children| :: g.children[n].depth == e.depth + 1 <= MaxReplacementDepth
  }

  /** completeReplacement's finalize; `valid` is whether the output fits the task's result schema. */
  function Finalize(r: Record, m: Completion, valid: bool): Transition {
    var outcome :=
      if r.cancelRequested then Outcome(Revoked, None, Some(ReplacementRevoked))
      else if m.outcome.state == Succeeded && !valid then Outcome(Failed, None, Some(ReplacementOutput))
      else m.outcome;
    Ending(r.envelope, 0, "", outcome)
  }

  // ---- intents ----

  /** Whether an intent belongs to a workflow row; the others belong to a task's entry. */
  predicate OfGraph(x: Intent) {
    x.id.Stable? &&
    (x.id.tag.DispatchLabel? || x.id.tag.CancelLabel? || x.id.tag.UnpinLabel? || x.id.tag.ReplacementCompletionLabel?)
  }

  predicate StoredHere(s: System, x: Intent) {
    if OfGraph(x) then x.source in s.rows && x.id in s.rows[x.source].intents && s.rows[x.source].intents[x.id] == x
    else x.source in s.entries && x.id in s.entries[x.source].intents && s.entries[x.source].intents[x.id].intent == x
  }

  predicate Delivered(s: System, x: Intent)
    requires StoredHere(s, x)
  {
    if OfGraph(x) then x.id in s.marked else s.entries[x.source].intents[x.id].delivered
  }

  // ---- actions ----

  datatype Action =
    | Submit(e: Envelope, later: bool)
    | Take(x: Intent)
    | RelayPublish(x: Intent, later: bool)
    | RegisterAccepted(e: Envelope, origin: Option<Intent>, state: State)
    | Lease(key: Key)
    | FirePublish(e: Envelope)
    | RegisterFor(src: Source, state: State)
    | ClaimFor(src: Source, owner: string, lease: nat, at: nat)
    | EndFor(src: Source, e: Envelope, fence: nat, owner: string, outcome: Outcome, at: nat)
    | RetryFor(receipt: nat, fence: nat, owner: string, eta: nat, at: nat)
    | YieldFor(receipt: nat, fence: nat, owner: string, g: Graph, at: nat)
    | Touch(id: Id, op: Op)
    | Skip(src: Source)
    | Ack(receipt: nat)
    | Reject(receipt: nat)
    | Mark(x: Intent, fence: nat, owner: string)
    | RecordCompletion(x: Intent)
    | ReleasePinned(x: Intent)
    | CreateReplacement(x: Intent)
    | ResolveTask(x: Intent, valid: bool, at: nat)
    | CancelByTask(x: Intent)
    | ApplyCanvas(g: Graph)
    | CancelByUser(id: Id)
    | Repair(workflow: Id, task: Id)
    | Remove(id: Id, at: nat)
    | CommitFire(e: Envelope)
    | ForgetPublication(key: Key)
    | Tick(now: nat)

  /** A client submits a task under a fresh identity of its own. */
  function DoSubmit(c: Client, s: System, e: Envelope, later: bool): System {
    if TaskOf(e.id).Some? || e.workflow.Some? || e.retries != 0 then s else
      match Transport(c, s, e, later)
      case None => s
      case Some(s1) => Grant(s1, Registering(e, None))
  }

  function DoTake(s: System, x: Intent): System {
    if StoredHere(s, x) && !Delivered(s, x) then Grant(s, Relaying(x)) else s
  }

  function DoRelayPublish(c: Client, s: System, x: Intent, later: bool): System {
    if Relaying(x) !in s.permits || !x.payload.Publish? then s else
      match Transport(c, s, x.payload.envelope, later)
      case None => s
      case Some(s1) => Grant(s1, Registering(x.payload.envelope, Some(x)))
  }

  /** Client.publish registers only after the transport accepted, and the relay marks only after that. */
  function DoRegisterAccepted(c: Client, ttl: Ttl, s: System, e: Envelope, x: Option<Intent>, state: State): System {
    if Registering(e, x) !in s.permits then s else
      match Call(c, ttl, s, e.id, Register(e, state))
      case None => s
      case Some(s1) => if x.Some? then Grant(s1, Done(OfIntent(x.value))) else s1
  }

  function DoLease(s: System, key: Key): System {
    if key in s.delayed && key in s.items then Grant(s, Leased(s.items[key])) else s
  }

  function DoFirePublish(c: Client, s: System, e: Envelope): System {
    if Leased(e) !in s.permits then s else
      match Enqueue(c, s, e)
      case None => s
      case Some(s1) => Grant(s1, Done(OfItem(e)))
  }

  /** The envelope a relay or dispatcher registers before it claims. */
  function RegisterEnvelope(s: System, src: Source): Option<Envelope> {
    match src
    case OfIntent(x) =>
      if Relaying(x) !in s.permits then None
      else (match x.payload case Fail(e, _, _) => Some(e.(eta := 0)) case CancelTask(e) => Some(e) case _ => None)
    case OfItem(e) => if Leased(e) in s.permits then Some(e) else None
    case OfDelivery(_) => None
  }

  /** A cancellation claims the authoritative attempt; everyone else the envelope they hold. */
  function ClaimEnvelope(s: System, src: Source): Option<Envelope> {
    match src
    case OfDelivery(r) => if r < |s.sent| then Some(s.sent[r]) else None
    case OfIntent(x) =>
      if x.payload.CancelTask? && Relaying(x) in s.permits then
        (if x.payload.envelope.id in s.entries then Some(s.entries[x.payload.envelope.id].record.envelope) else None)
      else RegisterEnvelope(s, src)
    case OfItem(_) => RegisterEnvelope(s, src)
  }

  function DoRegisterFor(c: Client, ttl: Ttl, s: System, src: Source, state: State): System {
    var e := RegisterEnvelope(s, src);
    if e.None? then s else Call(c, ttl, s, e.value.id, Register(e.value, state)).GetOr(s)
  }

  predicate Cancels(src: Source) { src.OfIntent? && src.x.payload.CancelTask? }

  /** The cancellation is on the record, or came too late to matter. */
  predicate CancelSeen(r: Record) { r.cancelRequested || r.state.Terminal() }

  /** Acquired: an attempt. Duplicate: the source is done with. A live lease: otherwise wait. A
      cancellation, which requests the cancel before it claims, is done once the record shows it. */
  function DoClaimFor(c: Client, ttl: Ttl, s: System, src: Source, owner: string, lease: nat, at: nat): System {
    var held := ClaimEnvelope(s, src);
    if held.None? || owner == "" || at > s.clock then s else
      var e := held.value;
      var x := ResultStore.Find(s.entries, e.id);
      match Call(c, ttl, s, e.id, Claim(e, owner, lease, at))
      case None => s
      case Some(s1) =>
        var y := ResultStore.Find(s1.entries, e.id);
        if y != x && y.Some? then Grant(s1, Attempt(e, y.value.record.fence, owner))
        else if x.Some? &&
                (if Cancels(src) then CancelSeen(x.value.record) else Past(x.value.record, e.retries)) then Grant(s1,
                  Done(src))
        else s1
  }

  /** The attempt belongs to the source the process works for. */
  predicate Answers(s: System, src: Source, e: Envelope) {
    match src
    case OfDelivery(r) => r < |s.sent| && s.sent[r] == e
    case OfIntent(x) => Relaying(x) in s.permits && (x.payload.Fail? || x.payload.CancelTask?) &&
                        x.payload.envelope.id == e.id
    case OfItem(held) => Leased(held) in s.permits && held == e
  }

  /** A worker may end an attempt in any way, a relay only as its intent says, a dispatcher only by
      expiry or cancellation. */
  predicate OutcomeFor(s: System, src: Source, outcome: Outcome) {
    match src
    case OfDelivery(_) => outcome.state.Terminal()
    case OfIntent(x) =>
      if x.payload.Fail? then outcome == Refusal(x) && outcome.state.Terminal() && outcome.state != Succeeded
      else outcome == Outcome(Revoked, None, Some(TaskRevoked))
    case OfItem(e) =>
      outcome.output.None? && outcome.failure.Some? &&
      ((outcome.state == Expired && e.expires != 0) ||
       (outcome.state == Revoked && e.id in s.entries && s.entries[e.id].record.cancelRequested))
  }

  /** Commit, then acknowledge: only a committed outcome makes the source done. */
  function DoFinish(c: Client, ttl: Ttl, s: System, src: Source, e: Envelope, t: Transition, at: nat): System {
    if Attempt(e, t.fence, t.owner) !in s.permits || !Answers(s, src, e) || at > s.clock then s else
      match Call(c, ttl, s, e.id, Finish(t, at))
      case None => s
      case Some(s1) => Grant(s1, Done(src))
  }

  predicate Touching(op: Op) {
    op.Renew? || op.Progress? || op.RequestCancel? || op.Forget? || op.ClearPayload? || op.ClaimIntent?
  }

  function DoSkip(s: System, src: Source): System {
    var e := RegisterEnvelope(s, src);
    if e.Some? && (Cancels(src) || src.OfItem?) && e.value.id in s.entries &&
       s.entries[e.value.id].record.state.Terminal()
    then Grant(s, Done(src)) else s
  }

  function DoMark(c: Client, ttl: Ttl, s: System, x: Intent, fence: nat, owner: string): System {
    if Done(OfIntent(x)) !in s.permits then s
    else if OfGraph(x) then s.(marked := s.marked + {x.id})
    else Call(c, ttl, s, x.source, MarkIntent(x.id, fence, owner)).GetOr(s)
  }

  /** A graph write that the store refuses changes nothing and permits nothing. */
  function WithRow(c: Client, s: System, id: Id, r: Result<Row>, p: Option<Permit>): System {
    if r.Err? || !Storable(c, r.value.graph) then s else
      var s1 := s.(rows := s.rows[id := r.value]);
      if p.Some? then Grant(s1, p.value) else s1
  }

  function DoRecordCompletion(c: Client, s: System, x: Intent): System {
    if Relaying(x) !in s.permits || !x.payload.Complete? || x.payload.workflow !in s.rows then s
    else WithRow(c, s, x.payload.workflow, RecordMemberSpec(c, s.rows[x.payload.workflow], x.payload.completion),
           Some(Done(OfIntent(x))))
  }

  function DoReleasePinned(c: Client, ttl: Ttl, s: System, x: Intent): System {
    if Relaying(x) !in s.permits || !x.payload.Unpin? then s else
      match Call(c, ttl, s, x.payload.target, ReleasePin)
      case None => s
      case Some(s1) => Grant(s1, Done(OfIntent(x)))
  }

  predicate SameReplacement(a: Graph, b: Graph) {
    a.originTask == b.originTask && a.originDigest == b.originDigest && a.scope == b.scope
  }

  /** A replacement graph that exists is accepted when it is the same replacement. */
  function DoCreateReplacement(c: Client, s: System, x: Intent): System {
    if Relaying(x) !in s.permits || !x.payload.Replace? || x.source !in s.entries then s else
      var g, original := x.payload.graph, s.entries[x.source].record;
      var created := CreateSpec(c, g.(cancelRequested := original.cancelRequested));
      if g.originTask != Some(x.source) || original.replacement != Some(g.id) ||
         Some(original.digest) != g.originDigest then s
      else if g.id !in s.rows then WithRow(c, s, g.id, created, Some(Done(OfIntent(x))))
      else if created.Ok? && Storable(c, created.value.graph) && SameReplacement(s.rows[g.id].graph, g)
      then Grant(s, Done(OfIntent(x)))
      else s
  }

  function DoResolveTask(c: Client, ttl: Ttl, s: System, x: Intent, valid: bool, at: nat): System {
    if Relaying(x) !in s.permits || !x.payload.CompleteReplacement? || x.payload.target !in s.entries ||
       at > s.clock then s else
      var t := Finalize(s.entries[x.payload.target].record, x.payload.completion, valid);
      match Call(c, ttl, s, x.payload.target, Resolve(x.payload.workflow, t, at))
      case None => s
      case Some(s1) => Grant(s1, Done(OfIntent(x)))
  }

  function DoCancelByTask(c: Client, s: System, x: Intent): System {
    if Relaying(x) !in s.permits || !x.payload.CancelWorkflow? || x.payload.workflow !in s.rows then s
    else if s.rows[x.payload.workflow].graph.scope != x.payload.envelope.scope then s
    else WithRow(c, s, x.payload.workflow, CancelGraphSpec(c, s.rows[x.payload.workflow]), Some(Done(OfIntent(x))))
  }

  /** A workflow gets a fresh identity; its graph is a compiled DAG or a flat canvas. */
  function DoApplyCanvas(c: Client, s: System, g: Graph): System {
    if !g.id.Fresh? || g.id in s.rows || g.originTask.Some? || g.cancelRequested then s
    else if g.kind.Dag? then (if DagRuns.Initial(g) then WithRow(c, s, g.id, CreateSpec(c, g), None) else s)
    else (if FlatStart(c, g) then WithRow(c, s, g.id, CreateFlatSpec(c, g), None) else s)
  }

  /** Results.Lookup hides an unpinned output that has expired. */
  function VisibleOutput(s: System, r: Record): Option<Value> {
    if r.state.Terminal() && !r.pinned && r.payloadExpiresAt <= s.clock then None else r.output
  }

  /** The member ReconcileWorkflow records for a task that ended. */
  function RepairCompletion(s: System, r: Record): Completion {
    Completion(r.envelope.id, Outcome(r.state, VisibleOutput(s, r), r.failure))
  }

  function DoRepair(c: Client, s: System, g: Id, id: Id): System {
    if g !in s.rows || id !in s.entries || !Expected(s.rows[g].graph, id) then s else
      var r := s.entries[id].record;
      if !r.state.Terminal() || (r.state == Succeeded && VisibleOutput(s, r).None?) then s
      else WithRow(c, s, g, RecordMemberSpec(c, s.rows[g], RepairCompletion(s, r)), None)
  }

  function Do(c: Client, ttl: Ttl, s: System, a: Action): System {
    match a
    case Submit(e, later) => DoSubmit(c, s, e, later)
    case Take(x) => DoTake(s, x)
    case RelayPublish(x, later) => DoRelayPublish(c, s, x, later)
    case RegisterAccepted(e, x, state) => DoRegisterAccepted(c, ttl, s, e, x, state)
    case Lease(key) => DoLease(s, key)
    case FirePublish(e) => DoFirePublish(c, s, e)
    case RegisterFor(src, state) => DoRegisterFor(c, ttl, s, src, state)
    case ClaimFor(src, owner, lease, at) => DoClaimFor(c, ttl, s, src, owner, lease, at)
    case EndFor(src, e, fence, owner, outcome, at) =>
      if OutcomeFor(s, src, outcome) then DoFinish(c, ttl, s, src, e, Ending(e, fence, owner, outcome), at) else s
    case RetryFor(r, fence, owner, eta, at) =>
      if r < |s.sent| then DoFinish(c, ttl, s, OfDelivery(r), s.sent[r], Retrying(s.sent[r], fence, owner, eta),
           at) else s
    case YieldFor(r, fence, owner, g, at) =>
      if r < |s.sent| &&
         PreparedFor(s.sent[r], g) then DoFinish(c, ttl, s, OfDelivery(r), s.sent[r],
           Yielding(s.sent[r], fence, owner, g), at) else s
    case Touch(id, op) => if Touching(op) && WellFormed(op) &&
                          ReadAt(Step(op, s.clock)) <= s.clock then Call(c, ttl, s, id, op).GetOr(s) else s
    case Skip(src) => DoSkip(s, src)
    case Ack(r) => if Done(OfDelivery(r)) in s.permits then s.(unacked := s.unacked - {r}) else s
    case Reject(r) =>
      if r < |s.sent| then s.(unacked := s.unacked - {r}, quarantine := s.quarantine + {KeyOf(s.sent[r])}) else s
    case Mark(x, fence, owner) => DoMark(c, ttl, s, x, fence, owner)
    case RecordCompletion(x) => DoRecordCompletion(c, s, x)
    case ReleasePinned(x) => DoReleasePinned(c, ttl, s, x)
    case CreateReplacement(x) => DoCreateReplacement(c, s, x)
    case ResolveTask(x, valid, at) => DoResolveTask(c, ttl, s, x, valid, at)
    case CancelByTask(x) => DoCancelByTask(c, s, x)
    case ApplyCanvas(g) => DoApplyCanvas(c, s, g)
    case CancelByUser(id) => if id in s.rows then WithRow(c, s, id, CancelGraphSpec(c, s.rows[id]), None) else s
    case Repair(g, id) => DoRepair(c, s, g, id)
    case Remove(id, at) => if at <= s.clock then Call(c, ttl, s, id, Delete(at)).GetOr(s) else s
    case CommitFire(e) => if Done(OfItem(e)) in s.permits then s.(delayed := s.delayed - {KeyOf(e)}) else s
    case ForgetPublication(key) => s.(published := s.published - {key})
    case Tick(now) => if s.clock <= now then s.(clock := now) else s
  }

  const Empty: System := System(0, map[], {}, map[], {}, [], {}, map[], map[], {}, {}, {})

  /** The state after a run that starts with nothing stored. */
  function Reach(c: Client, ttl: Ttl, actions: seq<Action>): System
    decreases |actions|
  {
    if actions == [] then Empty else Do(c, ttl, Reach(c, ttl, actions[..|actions| - 1]), actions[|actions| - 1])
  }
}
