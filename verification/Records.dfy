/** async/state.go: the task record machine. Every function maps a record to the next one; the
    result store decides whether that next record is committed. */
module Records {
  import opened Protocol

  datatype Record = Record(
    envelope: Envelope, digest: Envelope, state: State, fence: nat, owner: string, leaseUntil: nat,
    revision: nat, deliveryCount: nat, output: Option<Value>, failure: Option<Failure>, progress: Option<Value>,
    cancelRequested: bool, finishedAt: nat, payloadExpiresAt: nat, tombstoneUntil: nat, replayUntil: nat,
    pinned: bool, replacement: Option<Id>)

  datatype Claim = Acquired(record: Record) | Duplicate(record: Record) | Waiting(record: Record)

  datatype Transition = Transition(
    id: Id, fence: nat, owner: string, state: State, output: Option<Value>, failure: Option<Failure>,
    next: Option<Envelope>, intents: seq<Intent>, replacement: Option<Id>)

  datatype Ttl = Ttl(result: nat, tombstone: nat)

  const MaxPayloadBytes: nat := 256 * 1024
  const MaxProgressBytes: nat := 16 * 1024

  function InitialRecord(c: Client, e: Envelope, state: State): Result<Record> {
    if !c.admits(e) || (state != Queued && state != Scheduled) then Err(Invalid)
    else Ok(Record(e, Digest(e), state, 0, "", 0, 1, 0, None, None, None, false, 0, 0, 0, Later(e.eta, e.expires),
           e.workflow.Some?, None))
  }

  /** The delivery's attempt is over: the task ended, yielded, or moved on to a later retry. */
  predicate Past(r: Record, retries: nat) {
    r.state.Terminal() || r.replacement.Some? || retries < r.envelope.retries
  }

  function ClaimRecord(r: Record, e: Envelope, owner: string, now: nat, lease: nat): Result<Claim> {
    if owner == "" || lease == 0 then Err(Invalid)
    else if r.digest != Digest(e) then Err(Conflict)
    else if Past(r, e.retries) then Ok(Duplicate(r))
    else if e.retries > r.envelope.retries then Err(Conflict)
    else if r.state == Running && r.leaseUntil > now then Ok(Waiting(r))
    else if r.envelope.eta > now && !r.cancelRequested then Ok(Waiting(r))
    else if r.fence == MaxUint64 || r.revision == MaxUint64 then Err(Unavailable)
    else Ok(Acquired(r.(state := Running, owner := owner, fence := r.fence + 1, revision := r.revision + 1,
                        deliveryCount := r.deliveryCount + 1, leaseUntil := now + lease)))
  }

  /** The lease a (fence, owner) pair holds at an instant. */
  predicate Holds(r: Record, fence: nat, owner: string, now: nat) {
    r.state == Running && r.fence == fence && r.owner == owner && r.leaseUntil > now
  }

  predicate YieldOk(r: Record, t: Transition) {
    t.replacement.Some? && t.id == r.envelope.id && t.state == Running && |t.intents| == 1 &&
    t.intents[0].payload.Replace? &&
    t.output.None? && t.next.None? && t.failure.None? && t.intents[0].source == t.id &&
    var g := t.intents[0].payload.graph;
    g.id == t.replacement.value && g.originTask == Some(t.id) && g.originDigest == Some(r.digest) &&
    g.scope == r.envelope.scope && g.state == Running && g.revision == 1 && g.kind.Dag? && g.rootNode.Some? &&
    g.members == map[]
  }

  /** The latest instant at which any of the envelopes may still be replayed. */
  function ReplayBound(bound: nat, children: seq<Envelope>): nat
    decreases |children|
  {
    if children == [] then bound else
      var last := children[|children| - 1];
      Later(ReplayBound(bound, children[..|children| - 1]), Later(last.eta, last.expires))
  }

  function ApplyTransition(c: Client, r: Record, t: Transition, now: nat, ttl: Ttl): Result<Record> {
    if !Holds(r, t.fence, t.owner, now) then Err(LeaseLost)
    else if r.revision == MaxUint64 then Err(Unavailable)
    else if t.replacement.Some? then
      if !YieldOk(r, t) then Err(Invalid)
      else if r.cancelRequested then Err(Canceled)
      else Ok(r.(replacement := t.replacement,
             replayUntil := ReplayBound(r.replayUntil, t.intents[0].payload.graph.children),
                 revision := r.revision + 1, owner := "", leaseUntil := 0))
    else ApplyOutcome(c, r, t, now, ttl)
  }

  /** A retry must name the same task one attempt later and say how it is published. */
  predicate RetryOk(c: Client, r: Record, t: Transition) {
    t.next.Some? && t.next.value.id == r.envelope.id && t.next.value.retries == r.envelope.retries + 1 &&
    Digest(t.next.value) == r.digest && t.intents != [] && c.admits(t.next.value)
  }

  function ApplyOutcome(c: Client, r: Record, t: Transition, now: nat, ttl: Ttl): Result<Record> {
    if r.revision == MaxUint64 then Err(Unavailable)
    else if t.id != r.envelope.id || (!t.state.Terminal() && t.state != RetryWait) then Err(Invalid)
    else if t.output.Some? && c.bytes(t.output.value) > MaxPayloadBytes then Err(Invalid)
    else if t.state == Succeeded && t.output.None? then Err(Invalid)
    else if t.state == RetryWait && !RetryOk(c, r, t) then Err(Invalid)
    else
      var replay := if t.next.Some? then Later(r.replayUntil,
        Later(t.next.value.eta, t.next.value.expires)) else r.replayUntil;
      var ended := r.(state := t.state, revision := r.revision + 1, output := t.output, failure := t.failure,
        owner := "", leaseUntil := 0,
                      envelope := t.next.GetOr(r.envelope), replayUntil := replay);
      Ok(if t.state.Terminal()
         then ended.(finishedAt := now, payloadExpiresAt := now + ttl.result,
                tombstoneUntil := Later(now, replay) + ttl.tombstone)
         else ended)
  }

  function ApplyReplacementOutcome(c: Client, r: Record, workflow: Id, t: Transition, now: nat,
      ttl: Ttl): Result<Record> {
    if r.replacement != Some(workflow) || r.state != Running || r.owner != "" || r.leaseUntil != 0 then Err(Conflict)
    else if !t.state.Terminal() || t.next.Some? || t.replacement.Some? ||
            (r.cancelRequested && t.state != Revoked) then Err(Invalid)
    else ApplyOutcome(c, r, t, now, ttl)
  }

  function CompletionIntents(e: Envelope, outcome: Outcome): seq<Intent> {
    if e.workflow.None? || !outcome.state.Terminal() then [] else
      [Intent(Stable(e.id, CompletionLabel), e.id, Complete(e.workflow.value, Completion(e.id, outcome)))]
  }

  /** async/replacement.go: cancelling a yielded task also cancels the graph that replaced it. */
  function CancellationIntents(r: Record): seq<Intent> {
    if !r.cancelRequested || r.replacement.None? || r.state.Terminal() then [] else
      [Intent(Stable(r.envelope.id, ReplacementCancelLabel), r.envelope.id,
        CancelWorkflow(r.replacement.value, r.envelope))]
  }
}
