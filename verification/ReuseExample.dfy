/** A write that comes too late. Forget reads a record that has ended; before its script runs the
    tombstone runs out, the record is deleted, and the same task is registered, claimed and ended
    again. The new record has reached the revision that was read, so the script takes it for the old
    one and puts the old outcome back. */
module ReuseExample {
  import opened Protocol
  import opened Records
  import opened TaskLife
  import ResultStore

  const Good: Outcome := Outcome(Succeeded, Some(Null), None)
  const Bad: Outcome := Outcome(Failed, None, Some(TaskError("")))

  /** A first attempt of a task of its own that may run at once and does not expire. */
  predicate Plain(c: Client, e: Envelope) {
    c.admits(e) && e.eta == 0 && e.expires == 0 && e.retries == 0 && e.workflow.None?
  }

  function Ending(e: Envelope, outcome: Outcome): Transition {
    Transition(e.id, 1, "worker", outcome.state, outcome.output, outcome.failure, None, [], None)
  }

  /** One whole life of the task at one instant: registered, claimed and ended. */
  function Life(e: Envelope, t: nat, outcome: Outcome): seq<Step> {
    [Step(Register(e, Queued), t), Step(Claim(e, "worker", 1, t), t), Step(Finish(Ending(e, outcome), t), t)]
  }

  function Registered(e: Envelope): Entry {
    Entry(Record(e, Digest(e), Queued, 0, "", 0, 1, 0, None, None, None, false, 0, 0, 0, 0, false, None), map[])
  }

  function Claimed(e: Envelope, t: nat): Entry {
    Registered(e).(record := Registered(e).record.(state := Running, fence := 1, owner := "worker", revision := 2,
                                                   deliveryCount := 1, leaseUntil := t + 1))
  }

  function Ended(ttl: Ttl, e: Envelope, t: nat, outcome: Outcome): Entry {
    Claimed(e, t).(record := Claimed(e, t).record.(state := outcome.state, owner := "", revision := 3, leaseUntil := 0,
      output := outcome.output, failure := outcome.failure, finishedAt := t, payloadExpiresAt := t + ttl.result,
      tombstoneUntil := t + ttl.tombstone))
  }

  lemma LifeEnds(c: Client, ttl: Ttl, e: Envelope, t: nat, outcome: Outcome)
    requires Plain(c, e) && t + 1 <= MaxSafeInteger && (outcome == Good || outcome == Bad) &&
             c.bytes(Null) <= MaxPayloadBytes
    ensures Commit(c, ttl, None, Register(e, Queued), t) == Ok(Some(Registered(e)))
    ensures Commit(c, ttl, Some(Registered(e)), Claim(e, "worker", 1, t), t) == Ok(Some(Claimed(e, t)))
    ensures Commit(c, ttl, Some(Claimed(e, t)), Finish(Ending(e, outcome), t), t) == Ok(Some(Ended(ttl, e, t, outcome)))
  {
    assert AddIntents(map[], []) == map[];
  }

  lemma Deletes(c: Client, ttl: Ttl, e: Envelope)
    ensures Commit(c, ttl, Some(Ended(ttl, e, 0, Good)), Delete(ttl.tombstone), ttl.tombstone) == Ok(None)
  {
  }

  /** The record of the second life, with the outcome of the first. */
  function Rewritten(ttl: Ttl, e: Envelope): Entry {
    Entry(ResultStore.Released(Ended(ttl, e, 0, Good).record, true).(revision := 4), map[])
  }

  lemma ForgetWrites(ttl: Ttl, e: Envelope)
    ensures ResultStore.Updated(map[e.id := Ended(ttl, e, ttl.tombstone, Bad)], e.id, Ended(ttl, e, 0, Good).record,
              true, ttl.tombstone, map[e.id := Rewritten(ttl, e)])
  {
    assert AddIntents(map[], []) == map[];
  }

  lemma Next(c: Client, ttl: Ttl, steps: seq<Step>, n: nat, y: Option<Entry>)
    requires n < |steps| && Commit(c, ttl, At(c, ttl, steps, n), steps[n].op, steps[n].now) == Ok(y)
    ensures At(c, ttl, steps, n + 1) == y
  {
    hide Commit;
  }

  lemma LifeAt(c: Client, ttl: Ttl, e: Envelope, t: nat, outcome: Outcome, steps: seq<Step>, n: nat)
    requires Plain(c, e) && t + 1 <= MaxSafeInteger && (outcome == Good || outcome == Bad) &&
             c.bytes(Null) <= MaxPayloadBytes
    requires n + 3 <= |steps| && steps[n..n + 3] == Life(e, t, outcome) && At(c, ttl, steps, n) == None
    ensures At(c, ttl, steps, n + 3) == Some(Ended(ttl, e, t, outcome))
  {
    LifeEnds(c, ttl, e, t, outcome);
    var life := Life(e, t, outcome);
    assert steps[n] == life[0] && steps[n + 1] == life[1] && steps[n + 2] == life[2] by {
      assert steps[n] == steps[n..n + 3][0] && steps[n + 1] == steps[n..n + 3][1] && steps[n + 2] == steps[n..n + 3][2];
    }
    hide Commit, At, Registered, Claimed, Ended, Ending, Plain;
    Next(c, ttl, steps, n, Some(Registered(e)));
    Next(c, ttl, steps, n + 1, Some(Claimed(e, t)));
    Next(c, ttl, steps, n + 2, Some(Ended(ttl, e, t, outcome)));
  }

  /** The two lives of the task, with the deletion in between. */
  function Lives(ttl: Ttl, e: Envelope): seq<Step> {
    Life(e, 0, Good) + [Step(Delete(ttl.tombstone), ttl.tombstone)] + Life(e, ttl.tombstone, Bad)
  }

  /** From the instant its tombstone runs out, the record that Forget replaces need not be the one it
      read: at that very instant an outcome that was stored gives way to that of an earlier life. */
  lemma LateForgetRewrites(c: Client, ttl: Ttl, e: Envelope)
    requires Plain(c, e) && ttl.tombstone + 1 <= MaxSafeInteger && c.bytes(Null) <= MaxPayloadBytes
    ensures var read, found := At(c, ttl, Lives(ttl, e), 3), At(c, ttl, Lives(ttl, e), 7);
            read.Some? && found.Some? && read.value.record.tombstoneUntil == ttl.tombstone &&
            found.value.record.state == Failed &&
            exists after: map<Id, Entry> ::
              ResultStore.Updated(map[e.id := found.value], e.id, read.value.record, true, ttl.tombstone, after) &&
              e.id in after && after[e.id].record.state == Succeeded
  {
    var steps, due := Lives(ttl, e), ttl.tombstone;
    LivesParts(ttl, e);
    EndedShape(ttl, e, 0, Good);
    EndedShape(ttl, e, due, Bad);
    hide Lives, Life, Commit, ResultStore.Updated, Plain, Ended, Rewritten;
    LifeAt(c, ttl, e, 0, Good, steps, 0);
    hide At;
    Deletes(c, ttl, e);
    Next(c, ttl, steps, 3, None);
    LifeAt(c, ttl, e, due, Bad, steps, 4);
    ForgetWrites(ttl, e);
  }

  lemma LivesParts(ttl: Ttl, e: Envelope)
    ensures var steps, due := Lives(ttl, e), ttl.tombstone;
            |steps| == 7 && steps[0..3] == Life(e, 0, Good) && steps[3] == Step(Delete(due), due) &&
            steps[4..7] == Life(e, due, Bad)
  {
  }

  lemma EndedShape(ttl: Ttl, e: Envelope, t: nat, outcome: Outcome)
    ensures var r := Ended(ttl, e, t, outcome).record;
            r.state == outcome.state && r.tombstoneUntil == t + ttl.tombstone
    ensures Rewritten(ttl, e).record.state == Succeeded
  {
  }
}
