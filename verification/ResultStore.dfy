/** async/redis/results.go and async/redis/reconcile.go: the result store as an object. Each
    script is one atomic method; each operation reads, computes and retries its compare-and-set
    while other clients commit, delete and register again in between. An operation that returns
    success took effect at one moment on the entry of that moment, unless it took so long that the
    record it had read may have been deleted meanwhile. */
module ResultStore {
  import opened Protocol
  import opened Records
  import opened TaskLife

  function Find(entries: map<Id, Entry>, id: Id): Option<Entry> { if id in entries then Some(entries[id]) else None }

  function PendingOf(entries: map<Id, Entry>): set<(Id, Id)> {
    set id, k | id in entries && k in entries[id].intents && !entries[id].intents[k].delivered :: (id, k)
  }

  /** The first instant at which a record that was read at `t` may be gone. A record that has ended
      is kept until its tombstone runs out; one that has not must end first, and `lag` bounds how
      long before its script the client that ends it has read the server time. */
  function SafeUntil(ttl: Ttl, lag: nat, r: Record, t: nat): int {
    if r.state.Terminal() then r.tombstoneUntil else t + ttl.tombstone - lag
  }

  /** What other clients may do to an entry that stays: a revision names one record, stored intents
      only progress, and the entry does not become deletable any earlier. */
  predicate EntryEvolves(ttl: Ttl, lag: nat, a: Entry, t0: nat, b: Entry, t1: nat) {
    a.record.revision <= b.record.revision && (a.record.revision == b.record.revision ==> a.record == b.record) &&
    IntentsLater(a.intents, b.intents) && SafeUntil(ttl, lag, a.record, t0) <= SafeUntil(ttl, lag, b.record, t1)
  }

  /** What other clients may do between two instants. An entry that may be gone by the second one may
      have been deleted, and another may stand in its place. */
  predicate Evolves(ttl: Ttl, lag: nat, a: map<Id, Entry>, t0: nat, b: map<Id, Entry>, t1: nat) {
    t0 <= t1 &&
    forall id | id in a ::
      SafeUntil(ttl, lag, a[id].record, t0) <= t1 || (id in b && EntryEvolves(ttl, lag, a[id], t0, b[id], t1))
  }

  predicate Keyed(entries: map<Id, Entry>) {
    forall id | id in entries :: entries[id].record.envelope.id == id && entries[id].record.revision > 0
  }

  lemma EvolvesTrans(ttl: Ttl, lag: nat, a: map<Id, Entry>, t0: nat, b: map<Id, Entry>, t1: nat, d: map<Id, Entry>,
      t2: nat)
    requires Evolves(ttl, lag, a, t0, b, t1) && Evolves(ttl, lag, b, t1, d, t2)
    ensures Evolves(ttl, lag, a, t0, d, t2)
  {
    forall id | id in a && SafeUntil(ttl, lag, a[id].record, t0) > t2
      ensures id in d && EntryEvolves(ttl, lag, a[id], t0, d[id], t2)
    {
      assert EntryEvolves(ttl, lag, a[id], t0, b[id], t1) && EntryEvolves(ttl, lag, b[id], t1, d[id], t2);
    }
  }

  lemma EvolvesRefl(ttl: Ttl, lag: nat, a: map<Id, Entry>, t: nat)
    ensures Evolves(ttl, lag, a, t, a, t)
  {
    forall id | id in a ensures EntryEvolves(ttl, lag, a[id], t, a[id], t) { IntentsRefl(a[id].intents); }
  }

  /** A record that ends is kept for the tombstone time from the clock reading that ended it. */
  lemma EndingKeepsTombstone(c: Client, ttl: Ttl, entry: Entry, op: Op, now: nat)
    requires Sound(c, entry.record) && !op.Register? && !op.Claim? && WellFormed(op) &&
             OnEntry(c, ttl, entry, op, now).Ok? && OnEntry(c, ttl, entry, op, now).value.Some?
    ensures var a, b := entry.record, OnEntry(c, ttl, entry, op, now).value.value.record;
            (a.state.Terminal() ==> b.tombstoneUntil == a.tombstoneUntil) &&
            (!a.state.Terminal() && b.state.Terminal() ==> b.tombstoneUntil >= ReadAt(Step(op, now)) + ttl.tombstone)
  {
    hide AddIntents, BatchOk, CancellationIntents, ReplayBound, YieldOk, RetryOk;
  }

  /** Every operation of the result store, deletion included, is a legal evolution when its client
      read the server time at most `lag` before its script. */
  lemma CommitEvolves(c: Client, ttl: Ttl, lag: nat, entries: map<Id, Entry>, id: Id, op: Op, t: nat, now: nat)
    requires Keyed(entries) && (id in entries ==> Sound(c, entries[id].record)) && WellFormed(op) && t <= now
    requires now - lag <= ReadAt(Step(op, now)) <= now && Commit(c, ttl, Find(entries, id), op, now).Ok?
    ensures var y := Commit(c, ttl, Find(entries, id), op, now).value;
            Evolves(ttl, lag, entries, t, if y.Some? then entries[id := y.value] else entries - {id}, now)
  {
    var y := Commit(c, ttl, Find(entries, id), op, now).value;
    var after := if y.Some? then entries[id := y.value] else entries - {id};
    EvolvesRefl(ttl, lag, entries, t);
    forall k | k in entries && SafeUntil(ttl, lag, entries[k].record, t) > now
      ensures k in after && EntryEvolves(ttl, lag, entries[k], t, after[k], now)
    {
      if k != id {
        IntentsRefl(entries[k].intents);
      } else {
        EntryCommitEvolves(c, ttl, lag, entries[id], op, t, now);
      }
    }
  }

  lemma EntryCommitEvolves(c: Client, ttl: Ttl, lag: nat, entry: Entry, op: Op, t: nat, now: nat)
    requires Sound(c, entry.record) && WellFormed(op) && t <= now && SafeUntil(ttl, lag, entry.record, t) > now
    requires now - lag <= ReadAt(Step(op, now)) <= now && Commit(c, ttl, Some(entry), op, now).Ok?
    ensures var y := Commit(c, ttl, Some(entry), op, now).value;
            y.Some? && EntryEvolves(ttl, lag, entry, t, y.value, now)
  {
    CommitKeeps(c, ttl, Some(entry), op, now);
    if op.Register? || op.Claim? {
      EntryTombstone(c, ttl, entry, op, now);
    } else {
      NotDeleted(c, ttl, lag, entry, op, t, now);
      EndingKeepsTombstone(c, ttl, entry, op, now);
    }
    hide Commit;
    IntentStep(c, ttl, Some(entry), Step(op, now));
    hide IntentsLater, Sound;
  }

  lemma EntryTombstone(c: Client, ttl: Ttl, entry: Entry, op: Op, now: nat)
    requires Sound(c, entry.record) && (op.Register? || op.Claim?) && Commit(c, ttl, Some(entry), op, now).Ok?
    ensures var y := Commit(c, ttl, Some(entry), op, now).value;
            y.Some? && y.value.record.tombstoneUntil == entry.record.tombstoneUntil &&
            (y.value.record.state.Terminal() <==> entry.record.state.Terminal())
  {
    hide AddIntents, BatchOk;
  }

  lemma NotDeleted(c: Client, ttl: Ttl, lag: nat, entry: Entry, op: Op, t: nat, now: nat)
    requires !op.Register? && !op.Claim? && SafeUntil(ttl, lag, entry.record, t) > now &&
             ReadAt(Step(op, now)) <= now && OnEntry(c, ttl, entry, op, now).Ok?
    ensures OnEntry(c, ttl, entry, op, now).value.Some?
  {
    hide AddIntents, BatchOk, CancellationIntents, ApplyTransition, ApplyReplacementOutcome;
  }

  lemma CasShape(entries: map<Id, Entry>, expected: nat, next: Record, mode: Mode, lease: nat, batch: seq<Intent>,
      now: nat)
    requires Cas(Find(entries, next.envelope.id), expected, next, mode, lease, batch, now).Ok?
    ensures var r := Cas(Find(entries, next.envelope.id), expected, next, mode, lease, batch, now).value;
            r.record.revision == next.revision && r.record.envelope == next.envelope && r.record.revision > 0 &&
            r.intents ==
              AddIntents(if next.envelope.id in entries then entries[next.envelope.id].intents else map[], batch) &&
            RevisionAt(Find(entries, next.envelope.id)) == expected
  {
  }

  /** The same record, whatever happened to the intents beside it. */
  predicate SameRecord(x: Option<Entry>, y: Option<Entry>) {
    x.Some? == y.Some? && (x.Some? ==> x.value.record == y.value.record)
  }

  /** A revision found again before the record may be gone names the same record. */
  lemma SameRevision(ttl: Ttl, lag: nat, a: map<Id, Entry>, t0: nat, b: map<Id, Entry>, t1: nat, id: Id)
    requires Keyed(a) && Keyed(b) && Evolves(ttl, lag, a, t0, b, t1) &&
             RevisionAt(Find(b, id)) == RevisionAt(Find(a, id))
    requires id in a ==> t1 < SafeUntil(ttl, lag, a[id].record, t0)
    ensures SameRecord(Find(a, id), Find(b, id))
  {
    if id in a { assert EntryEvolves(ttl, lag, a[id], t0, b[id], t1); }
  }

  /** Nothing but this entry changed. */
  predicate OnlyEntry(before: map<Id, Entry>, id: Id, entries: map<Id, Entry>) {
    id in entries && entries == before[id := entries[id]]
  }

  class Results {
    const client: Client
    const ttl: Ttl
    ghost const lag: nat
    var clock: nat
    var entries: map<Id, Entry>
    var pending: set<(Id, Id)>
    var inventory: set<Id>

    /** The two indexes agree with the data. */
    predicate Valid()
      reads this
    {
      Keyed(entries) && inventory == entries.Keys && pending == PendingOf(entries)
    }

    /** Less than the tombstone time, minus the others' lag, has passed since `at`. */
    ghost predicate Prompt(at: nat)
      reads this
    {
      clock + lag < at + ttl.tombstone
    }

    constructor (client: Client, ttl: Ttl, ghost lag: nat)
      ensures Valid() && entries == map[] && this.client == client && this.ttl == ttl && this.lag == lag
    {
      this.client, this.ttl, this.lag := client, ttl, lag;
      clock, entries, pending, inventory := 0, map[], {}, {};
    }

    /** Time passes and other clients commit between two calls of this one. */
    method OtherClients()
      requires Valid()
      modifies this
      ensures Valid() && Evolves(ttl, lag, old(entries), old(clock), entries, clock) && old(clock) <= clock
    {
      EvolvesRefl(ttl, lag, entries, clock);
    }

    /** The script's loop over the staged intents: an identity that exists is left alone. */
    method StoreIntents(id: Id, batch: seq<Intent>)
      requires Valid() && id in entries
      modifies this
      ensures Valid() && clock == old(clock)
      ensures entries == old(entries)[id := old(entries)[id].(intents := AddIntents(old(entries)[id].intents, batch))]
    {
      ghost var before := entries;
      for i := 0 to |batch|
        invariant Valid() && clock == old(clock) && id in entries
        invariant entries == before[id := before[id].(intents := AddIntents(before[id].intents, batch[..i]))]
      {
        var x := batch[i];
        assert batch[..i + 1][..i] == batch[..i];
        if x.id !in entries[id].intents {
          AddedPending(entries,
            entries[id := entries[id].(intents := entries[id].intents[x.id := Stored(x, false, 0, "", 0)])], id, x);
          entries := entries[id := entries[id].(intents := entries[id].intents[x.id := Stored(x, false, 0, "", 0)])];
          pending := pending + {(id, x.id)};
        }
      }
      assert batch[..|batch|] == batch;
    }

    /** The recordCAS script: record, inventory, intents and pending index in one step. */
    method RecordCas(expected: nat, next: Record, mode: Mode, lease: nat, batch: seq<Intent>) returns (r: Result<()>)
      requires Valid()
      modifies this
      ensures Valid() && clock == old(clock)
      ensures var result := Cas(Find(old(entries), next.envelope.id), expected, next, mode, lease, batch, clock);
              (result.Ok? ==> r == Ok(()) && entries == old(entries)[next.envelope.id := result.value]) &&
              (result.Err? ==> r == Err(result.error) && entries == old(entries))
    {
      hide Cas, AddIntents;
      var id := next.envelope.id;
      var result := Cas(Find(entries, id), expected, next, mode, lease, batch, clock);
      if result.Err? { return Err(result.error); }
      CasShape(entries, expected, next, mode, lease, batch, clock);
      var stored := if id in entries then entries[id].intents else map[];
      SamePending(entries, entries[id := result.value.(intents := stored)], id, stored);
      entries := entries[id := result.value.(intents := stored)];
      inventory := inventory + {id};
      StoreIntents(id, batch);
      r := Ok(());
    }

    /** The second half of every operation on the record of `id`: other clients may commit, then the
        script runs on the key of the record it writes. When it succeeds there before the record that
        was read may be gone, the record it replaced is that record. */
    method TryWrite(id: Id, next: Record, mode: Mode, lease: nat, batch: seq<Intent>)
      returns (r: Result<()>, ghost before: map<Id, Entry>)
      requires Valid()
      modifies this
      ensures Valid() && Evolves(ttl, lag, old(entries), old(clock), before, clock) && old(clock) <= clock
      ensures var key, expected := next.envelope.id, RevisionAt(Find(old(entries), id));
              var result := Cas(Find(before, key), expected, next, mode, lease, batch, clock);
              (r.Ok? ==> result.Ok? && entries == before[key := result.value]) && (r.Err? ==> entries == before)
      ensures r.Ok? && next.envelope.id == id &&
              (id in old(entries) ==> clock < SafeUntil(ttl, lag, old(entries)[id].record, old(clock))) ==>
                SameRecord(Find(old(entries), id), Find(before, id))
    {
      var expected := RevisionAt(Find(entries, id));
      ghost var read, at := entries, clock;
      OtherClients();
      before := entries;
      r := RecordCas(expected, next, mode, lease, batch);
      if r.Ok? && next.envelope.id == id && (id in read ==> clock < SafeUntil(ttl, lag, read[id].record, at)) {
        CasShape(before, expected, next, mode, lease, batch, clock);
        SameRevision(ttl, lag, read, at, before, clock, id);
      }
    }

    /** The intentClaim script. */
    method IntentClaim(id: Id, k: Id, owner: string, lease: nat) returns (r: Result<Stored>)
      requires Valid()
      modifies this
      ensures Valid() && clock == old(clock)
      ensures id !in old(entries) ==> r.Err? && entries == old(entries)
      ensures id in old(entries) ==>
                var result := ClaimIntentStep(old(entries)[id], k, owner, lease, clock);
                (result.Err? ==> r.Err? && entries == old(entries)) &&
                (result.Ok? ==>
                  result.value.Some? && entries == old(entries)[id := result.value.value] &&
                  k in result.value.value.intents && r == Ok(result.value.value.intents[k]))
    {
      if id !in entries { return Err(NotFound); }
      ghost var before := entries;
      match ClaimIntentStep(entries[id], k, owner, lease, clock)
      case Err(e) => return Err(e);
      case Ok(updated) =>
        entries := entries[id := updated.value];
        assert pending == PendingOf(entries) by { SamePendingAfterClaim(before, id, k, entries[id]); }
        r := Ok(entries[id].intents[k]);
    }

    /** The intentMark script: the pending entry goes with the delivered mark. */
    method IntentMark(id: Id, k: Id, fence: nat, owner: string) returns (r: Result<()>)
      requires Valid()
      modifies this
      ensures Valid() && clock == old(clock)
      ensures id !in old(entries) ==> r.Err? && entries == old(entries)
      ensures id in old(entries) ==>
                var result := MarkIntentStep(old(entries)[id], k, fence, owner, clock);
                (result.Err? ==> r.Err? && entries == old(entries)) &&
                (result.Ok? ==> result.value.Some? && entries == old(entries)[id := result.value.value] && r == Ok(()))
    {
      if id !in entries { return Err(NotFound); }
      ghost var before := entries;
      match MarkIntentStep(entries[id], k, fence, owner, clock)
      case Err(e) => return Err(e);
      case Ok(updated) =>
        if !entries[id].intents[k].delivered {
          entries := entries[id := updated.value];
          pending := pending - {(id, k)};
          assert pending == PendingOf(entries) by { MarkedPending(before, id, k, entries[id]); }
        } else {
          assert entries[id := entries[id]] == entries;
        }
        r := Ok(());
    }

    /** The cleanup script in its delete mode, after the checks of Cleanup at time `at`. */
    method DeleteRecord(id: Id, expected: nat, at: nat) returns (deleted: bool)
      requires Valid()
      modifies this
      ensures Valid() && clock == old(clock)
      ensures deleted <==>
                id in old(entries) && old(entries)[id].record.revision == expected && Deletable(old(entries)[id], at)
      ensures entries == if deleted then old(entries) - {id} else old(entries)
    {
      if id !in entries || entries[id].record.revision != expected { return false; }
      var record := entries[id].record;
      if !record.state.Terminal() || record.pinned || record.tombstoneUntil > at { return false; }
      if |entries[id].intents| > 1000 { return false; }
      if exists k | k in entries[id].intents :: !entries[id].intents[k].delivered { return false; }
      ghost var before := entries;
      entries, inventory := entries - {id}, inventory - {id};
      assert pending == PendingOf(entries) by { DeletedPending(before, id); }
      deleted := true;
    }

    method Register(e: Envelope, state: State) returns (r: Result<()>, ghost before: map<Id, Entry>)
      requires Valid()
      modifies this
      ensures Valid() && Evolves(ttl, lag, old(entries), old(clock), before, clock)
      ensures r.Ok? ==> Committed(client, ttl, before, e.id, TaskLife.Register(e, state), clock, entries)
      ensures r.Err? ==> entries == before
    {
      EvolvesRefl(ttl, lag, entries, clock);
      var record := InitialRecord(client, e, state);
      if record.Err? { return Err(record.error), entries; }
      OtherClients();
      before := entries;
      ghost var since := clock;
      var created := RecordCas(0, record.value, CreateMode, 0, []);
      if created.Ok? {
        NewRecord(before, record.value, CreateMode, 0, clock);
        return Ok(()), before;
      }
      if created.error != Conflict { return created, before; }
      OtherClients();
      EvolvesTrans(ttl, lag, old(entries), old(clock), before, since, entries, clock);
      before := entries;
      if e.id !in entries { return Err(NotFound), before; }
      if entries[e.id].record.digest != record.value.digest { return Err(Conflict), before; }
      assert entries[e.id := entries[e.id]] == entries;
      r := Ok(());
    }

    /** The claim is decided on the entry of the moment it takes effect. */
    method Claim(e: Envelope, owner: string, lease: nat) returns (r: Result<Claim>, ghost before: map<Id, Entry>,
        ghost at: nat)
      requires Valid()
      modifies this
      ensures Valid() && Evolves(ttl, lag, old(entries), old(clock), before, clock) && old(clock) <= at <= clock
      ensures r.Ok? && r.value.Acquired? ==> OnlyEntry(before, e.id, entries)
      ensures r.Ok? && r.value.Acquired? && Prompt(at) ==>
                Committed(client, ttl, before, e.id, TaskLife.Claim(e, owner, lease, at), clock, entries) &&
                Find(entries, e.id) != Find(before, e.id)
      ensures r.Ok? && !r.value.Acquired? ==>
                entries == before &&
                Commit(client, ttl, Find(before, e.id), TaskLife.Claim(e, owner, lease, at), clock) ==
                  Ok(Find(before, e.id))
      ensures r.Err? ==> entries == before
    {
      EvolvesRefl(ttl, lag, entries, clock);
      before, at := entries, clock;
      var attempt := 0;
      while attempt < 16
        invariant Valid() && Evolves(ttl, lag, old(entries), old(clock), entries, clock) && old(clock) <= clock
      {
        ghost var start, since := entries, clock;
        OtherClients();
        EvolvesTrans(ttl, lag, old(entries), old(clock), start, since, entries, clock);
        start, at := entries, clock;
        var found := Find(entries, e.id);
        var first := if found.Some? then Ok(found.value.record) else InitialRecord(client, e, Queued);
        if first.Err? { return Err(first.error), entries, at; }
        var claim := ClaimRecord(first.value, e, owner, clock, lease);
        if claim.Err? { return Err(claim.error), entries, at; }
        if !claim.value.Acquired? { return claim, entries, at; }
        assert claim.value.record.envelope.id == e.id;
        var written;
        written, before := TryWrite(e.id, claim.value.record, ClaimMode, lease, []);
        EvolvesTrans(ttl, lag, old(entries), old(clock), start, at, before, clock);
        if written.Ok? {
          ClaimedIsOpen(first.value, e, owner, at, lease);
          if Prompt(at) { ClaimCommits(client, ttl, found, Find(before, e.id), e, owner, lease, at, clock); }
          return claim, before, at;
        }
        if written.error != Conflict && written.error != LeaseLost { return Err(written.error), before, at; }
        attempt := attempt + 1;
      }
      return Err(Busy), entries, clock;
    }

    /** Renewing succeeds only for the pair that holds the lease at server time. */
    method Renew(id: Id, fence: nat, owner: string, lease: nat) returns (r: Result<Record>, ghost before: map<Id,
        Entry>, ghost at: nat)
      requires Valid()
      modifies this
      ensures Valid() && Evolves(ttl, lag, old(entries), old(clock), before, clock) && old(clock) <= at <= clock
      ensures r.Ok? ==> OnlyEntry(before, id, entries)
      ensures r.Ok? && Prompt(at) ==>
                Committed(client, ttl, before, id, TaskLife.Renew(fence, owner, lease, at), clock, entries)
      ensures r.Err? ==> entries == before
    {
      EvolvesRefl(ttl, lag, entries, clock);
      hide Evolves, Committed, Cas;
      before, at := entries, clock;
      var attempt := 0;
      while attempt < 16
        invariant Valid() && Evolves(ttl, lag, old(entries), old(clock), entries, clock) && old(clock) <= clock
      {
        ghost var start, since := entries, clock;
        OtherClients();
        EvolvesTrans(ttl, lag, old(entries), old(clock), start, since, entries, clock);
        start, at := entries, clock;
        if id !in entries { return Err(NotFound), entries, at; }
        var record := entries[id].record;
        if !Holds(record, fence, owner, clock) { return Err(LeaseLost), entries, at; }
        var next := record.(revision := record.revision + 1, leaseUntil := clock + lease);
        var written;
        written, before := TryWrite(id, next, LiveMode(fence, owner), lease, []);
        EvolvesTrans(ttl, lag, old(entries), old(clock), start, at, before, clock);
        if written.Ok? {
          if Prompt(at) { RenewCommits(client, ttl, before, id, record, fence, owner, lease, at, clock); }
          return Ok(next), before, at;
        }
        if written.error != Conflict { return Err(written.error), before, at; }
        attempt := attempt + 1;
      }
      return Err(Busy), entries, clock;
    }

    /** Progress is stored only under the lease that is live at server time. */
    method RecordProgress(id: Id, fence: nat, owner: string, value: Value) returns (r: Result<()>,
        ghost before: map<Id, Entry>, ghost at: nat)
      requires Valid()
      modifies this
      ensures Valid() && Evolves(ttl, lag, old(entries), old(clock), before, clock) && old(clock) <= at <= clock
      ensures r.Ok? ==> client.bytes(value) <= MaxProgressBytes && OnlyEntry(before, id, entries)
      ensures r.Ok? && Prompt(at) ==>
                Committed(client, ttl, before, id, Progress(fence, owner, value, at), clock, entries)
      ensures r.Err? ==> entries == before
    {
      EvolvesRefl(ttl, lag, entries, clock);
      hide Evolves, Committed, Cas;
      before, at := entries, clock;
      if client.bytes(value) > MaxProgressBytes { return Err(Invalid), entries, clock; }
      var attempt := 0;
      while attempt < 16
        invariant Valid() && Evolves(ttl, lag, old(entries), old(clock), entries, clock) && old(clock) <= clock
      {
        ghost var start, since := entries, clock;
        OtherClients();
        EvolvesTrans(ttl, lag, old(entries), old(clock), start, since, entries, clock);
        start, at := entries, clock;
        if id !in entries { return Err(NotFound), entries, at; }
        var record := entries[id].record;
        if !Holds(record, fence, owner, clock) { return Err(LeaseLost), entries, at; }
        var next := record.(revision := record.revision + 1, progress := Some(value));
        var written;
        written, before := TryWrite(id, next, LiveMode(fence, owner), 0, []);
        EvolvesTrans(ttl, lag, old(entries), old(clock), start, at, before, clock);
        if written.Ok? {
          if Prompt(at) { ProgressCommits(client, ttl, before, id, record, fence, owner, value, at, clock); }
          return Ok(()), before, at;
        }
        if written.error != Conflict { return written, before, at; }
        attempt := attempt + 1;
      }
      return Err(Busy), entries, clock;
    }

    /** Outcome, retry and yield: the record that ApplyTransition makes of the one `read` and its
        intents commit together or not at all, under the key of the new record. A transition whose
        next envelope was checked, or that carries none, is one step of the task's own entry. */
    method Transition(t: Transition)
      returns (r: Result<()>, ghost before: map<Id, Entry>, ghost at: nat, ghost read: Option<Record>)
      requires Valid()
      modifies this
      ensures Valid() && Evolves(ttl, lag, old(entries), old(clock), before, clock) && old(clock) <= at <= clock
      ensures r.Ok? ==> read.Some? && Transitioned(client, ttl, before, read.value, t, at, clock, entries)
      ensures r.Ok? && (t.next.Some? ==> t.state == RetryWait) && Prompt(at) ==>
                Committed(client, ttl, before, t.id, TaskLife.Finish(t, at), clock, entries)
      ensures r.Err? ==> entries == before
    {
      EvolvesRefl(ttl, lag, entries, clock);
      hide Evolves, Committed, Transitioned, Cas;
      before, at, read := entries, clock, None;
      var attempt := 0;
      while attempt < 16
        invariant Valid() && Evolves(ttl, lag, old(entries), old(clock), entries, clock) && old(clock) <= clock
      {
        ghost var start, since := entries, clock;
        OtherClients();
        EvolvesTrans(ttl, lag, old(entries), old(clock), start, since, entries, clock);
        start, at := entries, clock;
        if t.id !in entries { return Err(NotFound), entries, at, read; }
        var record := entries[t.id].record;
        read := Some(record);
        var next := ApplyTransition(client, record, t, clock, ttl);
        if next.Err? { return Err(next.error), entries, at, read; }
        hide ApplyTransition;
        var written;
        written, before := TryWrite(t.id, next.value, LiveMode(t.fence, t.owner), 0, t.intents);
        EvolvesTrans(ttl, lag, old(entries), old(clock), start, at, before, clock);
        if written.Ok? {
          TransitionOpen(client, record, t, at, ttl);
          TransitionWrites(client, ttl, before, record, t, at, clock, entries);
          if (t.next.Some? ==> t.state == RetryWait) && Prompt(at) {
            TransitionCommits(client, ttl, start, before, record, t, at, clock, entries);
          }
          return Ok(()), before, at, read;
        }
        if written.error != Conflict { return written, before, at, read; }
        attempt := attempt + 1;
      }
      return Err(Busy), entries, clock, read;
    }

    method RequestCancel(id: Id, scope: string) returns (r: Result<()>, ghost before: map<Id, Entry>, ghost at: nat)
      requires Valid()
      modifies this
      ensures Valid() && Evolves(ttl, lag, old(entries), old(clock), before, clock) && old(clock) <= at <= clock
      ensures r.Ok? ==> OnlyEntry(before, id, entries)
      ensures r.Ok? && Prompt(at) ==>
                Committed(client, ttl, before, id, TaskLife.RequestCancel(scope), clock, entries)
      ensures r.Err? ==> entries == before
    {
      EvolvesRefl(ttl, lag, entries, clock);
      hide Evolves, Committed, Cas, CancellationIntents;
      before, at := entries, clock;
      var attempt := 0;
      while attempt < 16
        invariant Valid() && Evolves(ttl, lag, old(entries), old(clock), entries, clock) && old(clock) <= clock
      {
        ghost var start, since := entries, clock;
        OtherClients();
        EvolvesTrans(ttl, lag, old(entries), old(clock), start, since, entries, clock);
        start, at := entries, clock;
        if id !in entries { return Err(NotFound), entries, at; }
        var record := entries[id].record;
        if record.envelope.scope != scope { return Err(Denied), entries, at; }
        if record.state.Terminal() {
          AlreadyCommitted(client, ttl, entries, id, scope, clock);
          return Ok(()), entries, at;
        }
        var next := record.(cancelRequested := true, revision := record.revision + 1);
        var written;
        written, before := TryWrite(id, next, UpdateMode, 0, CancellationIntents(next));
        EvolvesTrans(ttl, lag, old(entries), old(clock), start, at, before, clock);
        if written.Ok? {
          if Prompt(at) { CancelCommits(client, ttl, before, id, record, scope, clock); }
          return Ok(()), before, at;
        }
        if written.error != Conflict { return written, before, at; }
        attempt := attempt + 1;
      }
      return Err(Busy), entries, clock;
    }

    /** `finalize` may run again after a conflict; its last result is the one that commits. */
    method ResolveReplacement(id: Id, workflow: Id, finalize: Record -> Result<Transition>)
      returns (r: Result<bool>, ghost before: map<Id, Entry>, ghost t: Option<Transition>, ghost at: nat)
      requires Valid()
      modifies this
      ensures Valid() && Evolves(ttl, lag, old(entries), old(clock), before, clock) && old(clock) <= at <= clock
      ensures r == Ok(true) ==> t.Some? && OnlyEntry(before, id, entries)
      ensures r == Ok(true) && Prompt(at) ==>
                id in before && !before[id].record.state.Terminal() &&
                finalize(before[id].record) == Ok(t.value) &&
                Committed(client, ttl, before, id, Resolve(workflow, t.value, at), clock, entries)
      ensures r == Ok(false) ==>
                id in entries && entries[id].record.state.Terminal() && entries[id].record.replacement == Some(workflow)
      ensures r != Ok(true) ==> entries == before
    {
      EvolvesRefl(ttl, lag, entries, clock);
      hide Evolves, Committed, Cas;
      before, at, t := entries, clock, None;
      var attempt := 0;
      while attempt < 16
        invariant Valid() && Evolves(ttl, lag, old(entries), old(clock), entries, clock) && old(clock) <= clock
      {
        ghost var start, since := entries, clock;
        OtherClients();
        EvolvesTrans(ttl, lag, old(entries), old(clock), start, since, entries, clock);
        start, at := entries, clock;
        if id !in entries { return Err(NotFound), entries, t, at; }
        var record := entries[id].record;
        if record.replacement != Some(workflow) { return Err(Conflict), entries, t, at; }
        if record.state.Terminal() { return Ok(false), entries, t, at; }
        var transition := finalize(record);
        if transition.Err? { return Err(transition.error), entries, t, at; }
        t := Some(transition.value);
        var next := ApplyReplacementOutcome(client, record, workflow, transition.value, clock, ttl);
        if next.Err? { return Err(next.error), entries, t, at; }
        ResolvedShape(client, record, workflow, transition.value, at, ttl);
        hide ApplyReplacementOutcome;
        var written;
        written, before := TryWrite(id, next.value, UpdateMode, 0, transition.value.intents);
        EvolvesTrans(ttl, lag, old(entries), old(clock), start, at, before, clock);
        if written.Ok? {
          if Prompt(at) {
            ResolveCommits(client, ttl, before, id, record, workflow, transition.value, at, clock);
          }
          return Ok(true), before, t, at;
        }
        if written.error != Conflict { return Err(written.error), before, t, at; }
        attempt := attempt + 1;
      }
      return Err(Busy), entries, t, clock;
    }

    /** Forget and ReleasePin share one loop: an update of a terminal record, which is the record that
        was read as long as the tombstone of that one has not run out. */
    method UpdateTerminal(id: Id, forget: bool)
      returns (r: Result<()>, ghost before: map<Id, Entry>, ghost read: Option<Record>)
      requires Valid()
      modifies this
      ensures Valid() && Evolves(ttl, lag, old(entries), old(clock), before, clock)
      ensures r.Ok? ==> read.Some? && Updated(before, id, read.value, forget, clock, entries)
      ensures r.Ok? && clock < read.value.tombstoneUntil ==>
                Committed(client, ttl, before, id, if forget then Forget else ReleasePin, clock, entries)
      ensures r.Err? ==> entries == before
    {
      EvolvesRefl(ttl, lag, entries, clock);
      hide Evolves, Committed, Cas;
      before, read := entries, None;
      var attempt := 0;
      while attempt < 16
        invariant Valid() && Evolves(ttl, lag, old(entries), old(clock), entries, clock)
      {
        ghost var start, since := entries, clock;
        OtherClients();
        EvolvesTrans(ttl, lag, old(entries), old(clock), start, since, entries, clock);
        start, since := entries, clock;
        if id !in entries { return Err(NotFound), entries, read; }
        var record := entries[id].record;
        if !record.state.Terminal() || (forget && record.pinned) { return Err(Pinned), entries, read; }
        read := Some(record);
        var next := Released(record, forget).(revision := record.revision + 1);
        var written;
        written, before := TryWrite(id, next, UpdateMode, 0, []);
        EvolvesTrans(ttl, lag, old(entries), old(clock), start, since, before, clock);
        if written.Ok? {
          if clock < record.tombstoneUntil { UpdateCommits(client, ttl, before, id, record, forget, clock); }
          return Ok(()), before, read;
        }
        if written.error != Conflict { return written, before, read; }
        attempt := attempt + 1;
      }
      return Err(Busy), entries, read;
    }
  }

  /** What Forget and ReleasePin write: the record that was read, released, over whatever has its revision. */
  predicate Updated(before: map<Id, Entry>, id: Id, read: Record, forget: bool, now: nat, entries: map<Id, Entry>) {
    var y := Cas(Find(before, id), read.revision, Released(read, forget).(revision := read.revision + 1), UpdateMode, 0,
               [], now);
    read.state.Terminal() && y.Ok? && entries == before[id := y.value]
  }

  /** The operation took effect on `before`, at server time `now`, and did nothing else. */
  predicate Committed(c: Client, ttl: Ttl, before: map<Id, Entry>, id: Id, op: Op, now: nat, entries: map<Id, Entry>) {
    var y := Commit(c, ttl, Find(before, id), op, now);
    y.Ok? && y.value.Some? && entries == before[id := y.value.value]
  }

  /** What a transition commits: the new record replaces the entry under its own key. */
  predicate Transitioned(c: Client, ttl: Ttl, before: map<Id, Entry>, read: Record, t: Transition, at: nat, now: nat,
      entries: map<Id, Entry>)
  {
    var next := ApplyTransition(c, read, t, at, ttl);
    next.Ok? &&
    var key := next.value.envelope.id;
    var y := Cas(Find(before, key), read.revision, next.value, LiveMode(t.fence, t.owner), 0, t.intents, now);
    y.Ok? && entries == before[key := y.value]
  }

  lemma TransitionWrites(c: Client, ttl: Ttl, before: map<Id, Entry>, r: Record, t: Transition, at: nat, now: nat,
      entries: map<Id, Entry>)
    requires ApplyTransition(c, r, t, at, ttl).Ok?
    requires var next := ApplyTransition(c, r, t, at, ttl).value;
             var y := Cas(Find(before, next.envelope.id), r.revision, next, LiveMode(t.fence, t.owner), 0, t.intents,
                        now);
             y.Ok? && entries == before[next.envelope.id := y.value]
    ensures Transitioned(c, ttl, before, r, t, at, now, entries)
  {
    hide Cas, ApplyTransition;
  }

  lemma TransitionCommits(c: Client, ttl: Ttl, start: map<Id, Entry>, before: map<Id, Entry>, r: Record, t: Transition,
      at: nat, now: nat, entries: map<Id, Entry>)
    requires t.id in start && start[t.id].record == r && Transitioned(c, ttl, before, r, t, at, now, entries)
    requires ApplyTransition(c, r, t, at, ttl).value.envelope.id == t.id ==>
               SameRecord(Find(start, t.id), Find(before, t.id))
    requires t.next.Some? ==> t.state == RetryWait
    ensures Committed(c, ttl, before, t.id, TaskLife.Finish(t, at), now, entries)
  {
    TransitionEnvelope(c, r, t, at, ttl);
    hide Cas, ApplyTransition;
  }

  /** A record that is being written has not ended. */
  lemma TransitionOpen(c: Client, r: Record, t: Transition, at: nat, ttl: Ttl)
    requires ApplyTransition(c, r, t, at, ttl).Ok?
    ensures !r.state.Terminal()
  {
    hide ApplyOutcome, YieldOk, ReplayBound;
  }

  lemma ClaimedIsOpen(r: Record, e: Envelope, owner: string, at: nat, lease: nat)
    requires ClaimRecord(r, e, owner, at, lease).Ok? && ClaimRecord(r, e, owner, at, lease).value.Acquired?
    ensures !r.state.Terminal()
  {
  }

  lemma CancelCommits(c: Client, ttl: Ttl, before: map<Id, Entry>, id: Id, r: Record, scope: string, now: nat)
    requires id in before && before[id].record == r && r.envelope.scope == scope && !r.state.Terminal()
    requires var next := r.(cancelRequested := true, revision := r.revision + 1);
             Cas(Find(before, id), r.revision, next, UpdateMode, 0, CancellationIntents(next), now).Ok?
    ensures var next := r.(cancelRequested := true, revision := r.revision + 1);
            var y := Cas(Find(before, id), r.revision, next, UpdateMode, 0, CancellationIntents(next), now).value;
            Committed(c, ttl, before, id, TaskLife.RequestCancel(scope), now, before[id := y])
  {
    assert CancellationIntents(r.(cancelRequested := true, revision := r.revision + 1)) ==
           CancellationIntents(r.(cancelRequested := true));
    hide Cas, CancellationIntents;
  }

  lemma AlreadyCommitted(c: Client, ttl: Ttl, entries: map<Id, Entry>, id: Id, scope: string, now: nat)
    requires id in entries && entries[id].record.envelope.scope == scope && entries[id].record.state.Terminal()
    ensures Committed(c, ttl, entries, id, TaskLife.RequestCancel(scope), now, entries)
  {
    assert entries[id := entries[id]] == entries;
  }

  // ---- the pending index ----

  lemma SamePending(a: map<Id, Entry>, b: map<Id, Entry>, id: Id, stored: map<Id, Stored>)
    requires b.Keys == a.Keys + {id} && stored == (if id in a then a[id].intents else map[]) && b[id].intents == stored
    requires forall k | k in a && k != id :: b[k] == a[k]
    ensures PendingOf(b) == PendingOf(a)
  {
  }

  lemma AddedPending(a: map<Id, Entry>, b: map<Id, Entry>, id: Id, x: Intent)
    requires id in a && id in b && b == a[id := b[id]] && x.id !in a[id].intents &&
             b[id].intents == a[id].intents[x.id := Stored(x, false, 0, "", 0)]
    ensures PendingOf(b) == PendingOf(a) + {(id, x.id)}
  {
  }

  lemma SamePendingAfterClaim(a: map<Id, Entry>, id: Id, k: Id, y: Entry)
    requires id in a && k in a[id].intents && y.intents.Keys == a[id].intents.Keys
    requires forall j | j in a[id].intents :: y.intents[j].delivered == a[id].intents[j].delivered
    ensures PendingOf(a[id := y]) == PendingOf(a)
  {
  }

  lemma MarkedPending(a: map<Id, Entry>, id: Id, k: Id, y: Entry)
    requires id in a && k in a[id].intents && !a[id].intents[k].delivered
    requires y.intents == a[id].intents[k := a[id].intents[k].(delivered := true)]
    ensures PendingOf(a[id := y]) == PendingOf(a) - {(id, k)}
  {
  }

  lemma DeletedPending(a: map<Id, Entry>, id: Id)
    requires id in a && forall k | k in a[id].intents :: a[id].intents[k].delivered
    ensures PendingOf(a - {id}) == PendingOf(a)
  {
  }

  // ---- shapes the operations rely on ----

  function Released(r: Record, forget: bool): Record {
    if forget then r.(output := None, progress := None) else r.(pinned := false)
  }

  lemma RenewCommits(c: Client, ttl: Ttl, before: map<Id, Entry>, id: Id, r: Record, fence: nat, owner: string,
      lease: nat, at: nat, now: nat)
    requires id in before && before[id].record == r && Holds(r, fence, owner, at)
    requires Cas(Find(before, id), r.revision, r.(revision := r.revision + 1, leaseUntil := at + lease),
               LiveMode(fence, owner), lease, [], now).Ok?
    ensures Committed(c, ttl, before, id, TaskLife.Renew(fence, owner, lease, at), now,
              before[id := Cas(Find(before, id), r.revision, r.(revision := r.revision + 1, leaseUntil := at + lease),
                LiveMode(fence, owner), lease, [], now).value])
  {
    hide Cas;
  }

  lemma ProgressCommits(c: Client, ttl: Ttl, before: map<Id, Entry>, id: Id, r: Record, fence: nat, owner: string,
      value: Value, at: nat, now: nat)
    requires id in before && before[id].record == r && Holds(r, fence, owner, at)
    requires Cas(Find(before, id), r.revision, r.(revision := r.revision + 1, progress := Some(value)),
               LiveMode(fence, owner), 0, [], now).Ok?
    ensures Committed(c, ttl, before, id, Progress(fence, owner, value, at), now,
              before[id := Cas(Find(before, id), r.revision, r.(revision := r.revision + 1, progress := Some(value)),
                LiveMode(fence, owner), 0, [], now).value])
  {
    hide Cas;
  }

  lemma ResolveCommits(c: Client, ttl: Ttl, before: map<Id, Entry>, id: Id, r: Record, workflow: Id, t: Transition,
      at: nat, now: nat)
    requires id in before && before[id].record == r && r.replacement == Some(workflow) && !r.state.Terminal()
    requires ApplyReplacementOutcome(c, r, workflow, t, at, ttl).Ok?
    requires Cas(Find(before, id), r.revision, ApplyReplacementOutcome(c, r, workflow, t, at, ttl).value, UpdateMode,
               0, t.intents, now).Ok?
    ensures Committed(c, ttl, before, id, Resolve(workflow, t, at), now,
              before[id := Cas(Find(before, id), r.revision, ApplyReplacementOutcome(c, r, workflow, t, at, ttl).value,
                UpdateMode, 0, t.intents, now).value])
  {
    ResolvedShape(c, r, workflow, t, at, ttl);
    hide Cas, ApplyReplacementOutcome;
    var next := ApplyReplacementOutcome(c, r, workflow, t, at, ttl).value;
    assert next.(revision := r.revision + 1) == next;
  }

  lemma UpdateCommits(c: Client, ttl: Ttl, before: map<Id, Entry>, id: Id, r: Record, forget: bool, now: nat)
    requires id in before && before[id].record == r && r.state.Terminal() && !(forget && r.pinned)
    requires Cas(Find(before, id), r.revision, Released(r, forget).(revision := r.revision + 1), UpdateMode, 0, [],
               now).Ok?
    ensures Committed(c, ttl, before, id, if forget then Forget else ReleasePin, now,
              before[id := Cas(Find(before, id), r.revision, Released(r, forget).(revision := r.revision + 1),
                UpdateMode, 0, [], now).value])
  {
    hide Cas;
  }

  lemma NewRecord(entries: map<Id, Entry>, r: Record, mode: Mode, lease: nat, now: nat)
    requires Keyed(entries) && Cas(Find(entries, r.envelope.id), 0, r, mode, lease, [], now).Ok?
    ensures Find(entries, r.envelope.id).None?
  {
  }

  lemma TransitionEnvelope(c: Client, r: Record, t: Transition, at: nat, ttl: Ttl)
    requires ApplyTransition(c, r, t, at, ttl).Ok? && (t.next.Some? ==> t.state == RetryWait)
    ensures t.id == r.envelope.id && ApplyTransition(c, r, t, at, ttl).value.envelope.id == t.id
  {
  }

  lemma ResolvedShape(c: Client, r: Record, workflow: Id, t: Transition, at: nat, ttl: Ttl)
    requires ApplyReplacementOutcome(c, r, workflow, t, at, ttl).Ok?
    ensures var next := ApplyReplacementOutcome(c, r, workflow, t, at, ttl).value;
            next.envelope.id == r.envelope.id && next.revision == r.revision + 1
  {
  }

  lemma ClaimCommits(c: Client, ttl: Ttl, read: Option<Entry>, x: Option<Entry>, e: Envelope, owner: string,
      lease: nat, at: nat, now: nat)
    requires SameRecord(read, x)
    requires var first := if read.Some? then Ok(read.value.record) else InitialRecord(c, e, Queued);
             first.Ok? && var claim := ClaimRecord(first.value, e, owner, at, lease);
             claim.Ok? && claim.value.Acquired? &&
             Cas(x, RevisionAt(read), claim.value.record, ClaimMode, lease, [], now).Ok?
    ensures var first := if read.Some? then Ok(read.value.record) else InitialRecord(c, e, Queued);
            var y := Commit(c, ttl, x, TaskLife.Claim(e, owner, lease, at), now);
            y.Ok? && y.value != x &&
            y.value ==
              Some(Cas(x, RevisionAt(read), ClaimRecord(first.value, e, owner, at, lease).value.record, ClaimMode,
                lease, [], now).value)
  {
  }
}
