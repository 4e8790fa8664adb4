/** async/redis/results.go: what one committed operation of the result store does to one task's
    entry, and what holds over every life of an entry. Each operation is the read, the record
    function and the compare-and-set script at the moment the script commits. */
module TaskLife {
  import opened Protocol
  import opened Records

  /** An intent with the metadata the scripts keep beside it. */
  datatype Stored = Stored(intent: Intent, delivered: bool, fence: nat, owner: string, lease: nat)

  datatype Entry = Entry(record: Record, intents: map<Id, Stored>)

  datatype Mode = CreateMode | ClaimMode | LiveMode(fence: nat, owner: string) | UpdateMode

  const MaxSafeInteger: nat := 9007199254740991

  function AddIntents(stored: map<Id, Stored>, batch: seq<Intent>): map<Id, Stored>
    decreases |batch|
  {
    if batch == [] then stored else
      var m := AddIntents(stored, batch[..|batch| - 1]);
      var last := batch[|batch| - 1];
      if last.id in m then m else m[last.id := Stored(last, false, 0, "", 0)]
  }

  function RevisionAt(x: Option<Entry>): nat { if x.Some? then x.value.record.revision else 0 }

  function LeaseAt(x: Option<Entry>): nat { if x.Some? then x.value.record.leaseUntil else 0 }

  predicate LiveFor(x: Option<Entry>, fence: nat, owner: string, now: nat) {
    x.Some? && x.value.record.leaseUntil > now && x.value.record.owner == owner && x.value.record.fence == fence
  }

  /** Results.cas with its script, run at server time `now`. */
  function Cas(x: Option<Entry>, expected: nat, next: Record, mode: Mode, lease: nat, batch: seq<Intent>,
      now: nat): Result<Entry> {
    if expected >= MaxUint64 || next.revision == 0 then Err(Unavailable)
    else if !BatchOk(next.envelope.id, batch) then Err(Invalid)
    else if RevisionAt(x) != expected then Err(Conflict)
    else if mode.ClaimMode? && LeaseAt(x) > now then Err(LeaseLost)
    else if mode.LiveMode? && !LiveFor(x, mode.fence, mode.owner, now) then Err(LeaseLost)
    else
      var until := if lease != 0 then now + lease else next.leaseUntil;
      if until > MaxSafeInteger then Err(Unavailable)
      else Ok(Entry(next.(leaseUntil := until), AddIntents(if x.Some? then x.value.intents else map[], batch)))
  }

  /** The operations that change an entry; `at` is the server time read before the script ran. */
  datatype Op =
    | Register(e: Envelope, state: State)
    | Claim(e: Envelope, owner: string, lease: nat, at: nat)
    | Renew(fence: nat, owner: string, lease: nat, at: nat)
    | Progress(fence: nat, owner: string, value: Value, at: nat)
    | Finish(t: Transition, at: nat)
    | RequestCancel(scope: string)
    | Resolve(workflow: Id, t: Transition, at: nat)
    | Forget
    | ReleasePin
    | ClaimIntent(intent: Id, owner: string, lease: nat)
    | MarkIntent(intent: Id, fence: nat, owner: string)
    | ClearPayload(at: nat)
    | Delete(at: nat)

  function Written(r: Result<Entry>): Result<Option<Entry>> {
    match r case Ok(entry) => Ok(Some(entry)) case Err(e) => Err(e)
  }

  predicate Deletable(entry: Entry, at: nat) {
    entry.record.state.Terminal() && !entry.record.pinned && entry.record.tombstoneUntil <= at &&
    |entry.intents| <= 1000 && forall k | k in entry.intents :: entry.intents[k].delivered
  }

  function ClaimStep(c: Client, x: Option<Entry>, e: Envelope, owner: string, lease: nat, at: nat,
      now: nat): Result<Option<Entry>> {
    var start := if x.Some? then Ok(x.value.record) else InitialRecord(c, e, Queued);
    if start.Err? then Err(start.error) else
      match ClaimRecord(start.value, e, owner, at, lease)
      case Err(err) => Err(err)
      case Ok(Acquired(r)) => Written(Cas(x, RevisionAt(x), r, ClaimMode, lease, [], now))
      case Ok(_) => Ok(x)
  }

  /** Results.Renew and RecordProgress. */
  function LiveStep(entry: Entry, next: Record, fence: nat, owner: string, lease: nat, at: nat,
      now: nat): Result<Option<Entry>> {
    if !Holds(entry.record, fence, owner, at) then Err(LeaseLost)
    else Written(Cas(Some(entry), entry.record.revision, next, LiveMode(fence, owner), lease, [], now))
  }

  function UpdateStep(entry: Entry, next: Record, batch: seq<Intent>, now: nat): Result<Option<Entry>> {
    Written(Cas(Some(entry), entry.record.revision, next.(revision := entry.record.revision + 1), UpdateMode, 0, batch,
      now))
  }

  function ClaimIntentStep(entry: Entry, k: Id, owner: string, lease: nat, now: nat): Result<Option<Entry>> {
    if k !in entry.intents then Err(NotFound) else
      var item := entry.intents[k];
      if item.delivered then Ok(Some(entry))
      else if item.lease > now then Err(Busy)
      else if item.fence >= MaxUint64 || lease == 0 || now + lease > MaxSafeInteger then Err(Unavailable)
      else Ok(Some(entry.(intents := entry.intents[k := item.(lease := now + lease, fence := item.fence + 1,
             owner := owner)])))
  }

  function MarkIntentStep(entry: Entry, k: Id, fence: nat, owner: string, now: nat): Result<Option<Entry>> {
    if k !in entry.intents then Err(NotFound) else
      var item := entry.intents[k];
      if item.delivered then Ok(Some(entry))
      else if item.owner != owner || item.fence != fence || item.lease <= now then Err(LeaseLost)
      else Ok(Some(entry.(intents := entry.intents[k := item.(delivered := true)])))
  }

  /** One operation on an entry that exists. */
  function OnEntry(c: Client, ttl: Ttl, entry: Entry, op: Op, now: nat): Result<Option<Entry>>
    requires !op.Register? && !op.Claim?
  {
    var r := entry.record;
    match op
    case Renew(fence, owner, lease, at) =>
      LiveStep(entry, r.(revision := r.revision + 1, leaseUntil := at + lease), fence, owner, lease, at, now)
    case Progress(fence, owner, value, at) =>
      LiveStep(entry, r.(revision := r.revision + 1, progress := Some(value)), fence, owner, 0, at, now)
    case Finish(t, at) =>
      (match ApplyTransition(c, r, t, at, ttl)
       case Err(e) => Err(e)
       case Ok(next) => Written(Cas(Some(entry), r.revision, next, LiveMode(t.fence, t.owner), 0, t.intents, now)))
    case RequestCancel(scope) =>
      if r.envelope.scope != scope then Err(Denied)
      else if r.state.Terminal() then Ok(Some(entry))
      else UpdateStep(entry, r.(cancelRequested := true), CancellationIntents(r.(cancelRequested := true)), now)
    case Resolve(workflow, t, at) =>
      if r.replacement != Some(workflow) then Err(Conflict)
      else if r.state.Terminal() then Ok(Some(entry))
      else
        (match ApplyReplacementOutcome(c, r, workflow, t, at, ttl)
         case Err(e) => Err(e)
         case Ok(next) => UpdateStep(entry, next, t.intents, now))
    case Forget =>
      if r.pinned ||
         !r.state.Terminal() then Err(Pinned) else UpdateStep(entry, r.(output := None, progress := None), [], now)
    case ReleasePin =>
      if !r.state.Terminal() then Err(Pinned) else UpdateStep(entry, r.(pinned := false), [], now)
    case ClaimIntent(k, owner, lease) => ClaimIntentStep(entry, k, owner, lease, now)
    case MarkIntent(k, fence, owner) => MarkIntentStep(entry, k, fence, owner, now)
    case ClearPayload(at) =>
      if !r.state.Terminal() || r.pinned || r.tombstoneUntil <= at || r.payloadExpiresAt > at ||
         r.revision >= MaxUint64 then Ok(Some(entry))
      else Ok(Some(entry.(record := r.(output := None, progress := None, revision := r.revision + 1))))
    case Delete(at) => if Deletable(entry, at) then Ok(None) else Err(Pinned)
  }

  /** One operation of the result store on one task, at server time `now`. */
  function Commit(c: Client, ttl: Ttl, x: Option<Entry>, op: Op, now: nat): Result<Option<Entry>> {
    match op
    case Register(e, state) =>
      (match InitialRecord(c, e, state)
       case Err(err) => Err(err)
       case Ok(r) =>
         if x.Some? then (if x.value.record.digest == r.digest then Ok(x) else Err(Conflict))
         else Written(Cas(None, 0, r, CreateMode, 0, [], now)))
    case Claim(e, owner, lease, at) => ClaimStep(c, x, e, owner, lease, at, now)
    case _ => if x.None? then Err(NotFound) else OnEntry(c, ttl, x.value, op, now)
  }

  // ---- lives ----

  datatype Step = Step(op: Op, now: nat)

  function ReadAt(s: Step): nat {
    match s.op
    case Claim(_, _, _, at) => at
    case Renew(_, _, _, at) => at
    case Progress(_, _, _, at) => at
    case Finish(_, at) => at
    case Resolve(_, _, at) => at
    case ClearPayload(at) => at
    case Delete(at) => at
    case _ => s.now
  }

  /** An operation that fails writes nothing. */
  function After(c: Client, ttl: Ttl, x: Option<Entry>, s: Step): Option<Entry> {
    var r := Commit(c, ttl, x, s.op, s.now);
    if r.Ok? then r.value else x
  }

  /** The entry after the first `n` steps of its life. */
  function At(c: Client, ttl: Ttl, steps: seq<Step>, n: nat): Option<Entry>
    requires n <= |steps|
  {
    if n == 0 then None else After(c, ttl, At(c, ttl, steps, n - 1), steps[n - 1])
  }

  /** From step `i` to step `j` the record exists: one record's life. */
  predicate Alive(c: Client, ttl: Ttl, steps: seq<Step>, i: nat, j: nat)
    requires i <= j <= |steps|
  {
    forall k | i <= k <= j :: At(c, ttl, steps, k).Some?
  }

  predicate Acquires(c: Client, ttl: Ttl, x: Option<Entry>, s: Step) {
    s.op.Claim? && Commit(c, ttl, x, s.op, s.now).Ok? && After(c, ttl, x, s) != x
  }

  // ---- one step ----

  /** What every operation keeps of a record that goes on existing. */
  predicate RecordStep(a: Record, b: Record) {
    b.digest == a.digest && a.fence <= b.fence && a.revision <= b.revision &&
    (b.revision == a.revision ==> b == a) &&
    b.envelope.id == a.envelope.id && b.envelope.scope == a.envelope.scope &&
    Digest(b.envelope) == Digest(a.envelope) &&
    (b.fence == a.fence ==> b.owner == a.owner || b.owner == "") &&
    (a.cancelRequested ==> b.cancelRequested) && (!a.pinned ==> !b.pinned) &&
    (a.state.Terminal() ==>
      b.state == a.state && b.failure == a.failure && (b.output == a.output || (b.output.None? && !a.pinned)) &&
      b.envelope == a.envelope) &&
    a.envelope.retries <= b.envelope.retries <= a.envelope.retries + 1 &&
    (a.replacement.Some? ==>
      b.replacement == a.replacement && b.fence == a.fence && b.owner == "" && b.leaseUntil == 0 &&
      b.envelope == a.envelope) &&
    (b.fence == a.fence && b.state == Running ==> a.state == Running && b.envelope.retries == a.envelope.retries) &&
    a.replayUntil <= b.replayUntil
  }

  /** The shape of every stored record. */
  predicate Sound(c: Client, r: Record) {
    r.digest == Digest(r.envelope) && c.admits(r.envelope) && r.revision > 0 &&
    r.envelope.eta <= r.replayUntil && r.envelope.expires <= r.replayUntil &&
    (r.replacement.Some? ==> (r.state == Running || r.state.Terminal()) && r.owner == "" && r.leaseUntil == 0) &&
    (r.leaseUntil > 0 ==> r.state == Running) &&
    (r.state.Terminal() ==> r.owner == "" && r.replayUntil <= r.tombstoneUntil)
  }

  predicate SoundEntry(c: Client, x: Option<Entry>) { x.Some? ==> Sound(c, x.value.record) }

  lemma {:induction false} ReplayGrows(bound: nat, children: seq<Envelope>)
    ensures bound <= ReplayBound(bound, children)
    decreases |children|
  {
    if children != [] { ReplayGrows(bound, children[..|children| - 1]); }
  }

  lemma TransitionKeeps(c: Client, ttl: Ttl, r: Record, t: Transition, at: nat)
    requires Sound(c, r) && ApplyTransition(c, r, t, at, ttl).Ok? && (t.next.Some? ==> t.state == RetryWait)
    ensures var b := ApplyTransition(c, r, t, at, ttl).value;
            RecordStep(r, b) && Sound(c, b) && !r.state.Terminal() && r.replacement.None? && b.leaseUntil == 0
  {
    if t.replacement.Some? { ReplayGrows(r.replayUntil, t.intents[0].payload.graph.children); }
  }

  /** Callers of Transition give a next envelope only to a retry. */
  predicate WellFormed(op: Op) {
    op.Finish? ==> op.t.next.Some? ==> op.t.state == RetryWait
  }

  /** Only a retry has its next envelope checked: a transition keeps the task's identity and counts
      its retries right exactly when it carries no unchecked envelope, or one that agrees. */
  lemma IdentityKept(c: Client, ttl: Ttl, r: Record, t: Transition, at: nat)
    requires r.digest == Digest(r.envelope) && ApplyTransition(c, r, t, at, ttl).Ok?
    ensures var b := ApplyTransition(c, r, t, at, ttl).value;
            (Digest(b.envelope) == r.digest &&
            b.envelope.retries == r.envelope.retries + if t.state == RetryWait then 1 else 0) <==>
            (t.state != RetryWait && t.next.Some? ==>
              Digest(t.next.value) == r.digest && t.next.value.retries == r.envelope.retries)
  {
    hide ReplayBound;
  }

  /** A failure that names another task as its next attempt is accepted, and the new record is then
      that task's. */
  lemma UncheckedNextIsStored(c: Client, ttl: Ttl, r: Record, next: Envelope, at: nat)
    requires Holds(r, r.fence, r.owner, at) && r.revision < MaxUint64 && next.id != r.envelope.id
    ensures var t := Transition(r.envelope.id, r.fence, r.owner, Failed, None, None, Some(next), [], None);
            ApplyTransition(c, r, t, at, ttl).Ok? &&
            ApplyTransition(c, r, t, at, ttl).value.envelope.id != r.envelope.id
  {
  }

  lemma FinishKeeps(c: Client, ttl: Ttl, entry: Entry, t: Transition, at: nat, now: nat)
    requires Sound(c, entry.record) && (t.next.Some? ==> t.state == RetryWait) &&
             OnEntry(c, ttl, entry, Finish(t, at), now).Ok?
    ensures var y := OnEntry(c, ttl, entry, Finish(t, at), now).value;
            y.Some? && RecordStep(entry.record, y.value.record) && Sound(c, y.value.record)
  {
    hide AddIntents, BatchOk, ApplyTransition;
    TransitionKeeps(c, ttl, entry.record, t, at);
  }

  lemma ResolveKeeps(c: Client, ttl: Ttl, entry: Entry, w: Id, t: Transition, at: nat, now: nat)
    requires Sound(c, entry.record) && OnEntry(c, ttl, entry, Resolve(w, t, at), now).Ok?
    ensures var y := OnEntry(c, ttl, entry, Resolve(w, t, at), now).value;
            y.Some? && RecordStep(entry.record, y.value.record) && Sound(c, y.value.record)
  {
    hide AddIntents, BatchOk;
  }

  lemma OnEntryKeeps(c: Client, ttl: Ttl, entry: Entry, op: Op, now: nat)
    requires Sound(c, entry.record) && !op.Register? && !op.Claim? && WellFormed(op) &&
             OnEntry(c, ttl, entry, op, now).Ok?
    ensures var y := OnEntry(c, ttl, entry, op, now).value;
            y.Some? ==> RecordStep(entry.record, y.value.record) && Sound(c, y.value.record)
  {
    hide AddIntents, BatchOk, CancellationIntents, ApplyTransition, ApplyReplacementOutcome;
    if op.Finish? {
      FinishKeeps(c, ttl, entry, op.t, op.at, now);
    } else if op.Resolve? {
      ResolveKeeps(c, ttl, entry, op.workflow, op.t, op.at, now);
    }
  }

  lemma EnterKeeps(c: Client, ttl: Ttl, x: Option<Entry>, op: Op, now: nat)
    requires SoundEntry(c, x) && (op.Register? || op.Claim?) && Commit(c, ttl, x, op, now).Ok?
    ensures var y := Commit(c, ttl, x, op, now).value;
            SoundEntry(c, y) && (x.Some? && y.Some? ==> RecordStep(x.value.record, y.value.record))
  {
    hide OnEntry, AddIntents, BatchOk;
  }

  lemma CommitKeeps(c: Client, ttl: Ttl, x: Option<Entry>, op: Op, now: nat)
    requires SoundEntry(c, x) && WellFormed(op) && Commit(c, ttl, x, op, now).Ok?
    ensures var y := Commit(c, ttl, x, op, now).value;
            SoundEntry(c, y) && (x.Some? && y.Some? ==> RecordStep(x.value.record, y.value.record))
  {
    hide OnEntry, RecordStep, AddIntents, BatchOk;
    if x.Some? && !op.Register? && !op.Claim? {
      OnEntryKeeps(c, ttl, x.value, op, now);
    } else {
      EnterKeeps(c, ttl, x, op, now);
    }
  }

  // ---- whole lives ----

  /** Everything that lasts between two moments of one record's life. */
  predicate RecordLater(a: Record, b: Record) {
    b.digest == a.digest && a.fence <= b.fence && a.revision <= b.revision &&
    (b.revision == a.revision ==> b == a) &&
    b.envelope.id == a.envelope.id && b.envelope.scope == a.envelope.scope &&
    Digest(b.envelope) == Digest(a.envelope) &&
    (a.cancelRequested ==> b.cancelRequested) && (!a.pinned ==> !b.pinned) &&
    (a.state.Terminal() ==>
      b.state == a.state && b.failure == a.failure && (b.output == a.output || (b.output.None? && !b.pinned)) &&
      b.envelope == a.envelope) &&
    a.envelope.retries <= b.envelope.retries &&
    (a.replacement.Some? ==>
      b.replacement == a.replacement && b.fence == a.fence && b.owner == "" && b.leaseUntil == 0 &&
      b.envelope == a.envelope) &&
    (b.fence == a.fence && b.state == Running ==> a.state == Running && b.envelope.retries == a.envelope.retries) &&
    a.replayUntil <= b.replayUntil
  }

  predicate WellFormedLife(steps: seq<Step>) { forall i | 0 <= i < |steps| :: WellFormed(steps[i].op) }

  lemma {:induction false} LifeIsSound(c: Client, ttl: Ttl, steps: seq<Step>, n: nat)
    requires n <= |steps| && WellFormedLife(steps)
    ensures SoundEntry(c, At(c, ttl, steps, n))
    decreases n
  {
    if n > 0 {
      LifeIsSound(c, ttl, steps, n - 1);
      var x, s := At(c, ttl, steps, n - 1), steps[n - 1];
      hide Commit;
      if Commit(c, ttl, x, s.op, s.now).Ok? { CommitKeeps(c, ttl, x, s.op, s.now); }
    }
  }

  lemma LifeStep(c: Client, ttl: Ttl, steps: seq<Step>, n: nat)
    requires n < |steps| && WellFormedLife(steps) && At(c, ttl, steps, n).Some? && At(c, ttl, steps, n + 1).Some?
    ensures RecordStep(At(c, ttl, steps, n).value.record, At(c, ttl, steps, n + 1).value.record)
  {
    LifeIsSound(c, ttl, steps, n);
    var x, s := At(c, ttl, steps, n), steps[n];
    hide Commit;
    if Commit(c, ttl, x, s.op, s.now).Ok? { CommitKeeps(c, ttl, x, s.op, s.now); }
  }

  /** Outcome permanence and the other lasting facts, between any two moments of one life. */
  lemma {:induction false} LifeLasts(c: Client, ttl: Ttl, steps: seq<Step>, i: nat, j: nat)
    requires i <= j <= |steps| && WellFormedLife(steps) && Alive(c, ttl, steps, i, j)
    ensures RecordLater(At(c, ttl, steps, i).value.record, At(c, ttl, steps, j).value.record)
    decreases j
  {
    hide After, RecordLater, RecordStep, Sound;
    if i < j {
      assert At(c, ttl, steps, j - 1).Some? && At(c, ttl, steps, j).Some?;
      LifeLasts(c, ttl, steps, i, j - 1);
      LifeStep(c, ttl, steps, j - 1);
      LaterStep(At(c, ttl, steps, i).value.record, At(c, ttl, steps, j - 1).value.record,
        At(c, ttl, steps, j).value.record);
    } else {
      assert At(c, ttl, steps, i).Some?;
      LifeIsSound(c, ttl, steps, i);
      LaterSame(c, At(c, ttl, steps, i).value.record);
    }
  }

  lemma LaterSame(c: Client, r: Record)
    requires Sound(c, r)
    ensures RecordLater(r, r)
  {
  }

  lemma LaterStep(a: Record, mid: Record, b: Record)
    requires RecordLater(a, mid) && RecordStep(mid, b)
    ensures RecordLater(a, b)
  {
  }

  /** An acquired claim raises the fence, and only once the stored lease has run out. */
  lemma AcquireStep(c: Client, ttl: Ttl, x: Option<Entry>, s: Step)
    requires Acquires(c, ttl, x, s)
    ensures After(c, ttl, x, s).Some? && LeaseAt(x) <= s.now
    ensures var r := After(c, ttl, x, s).value.record;
            r.state == Running && r.owner == s.op.owner && r.leaseUntil == s.now + s.op.lease > s.now &&
            r.fence == (if x.Some? then x.value.record.fence else 0) + 1
  {
  }

  /** Fencing, part one: within one life every acquired claim gets a larger fence than all before
      it, the earlier holder's lease had run out, and the earlier pair never holds the task again. */
  lemma FencesGrow(c: Client, ttl: Ttl, steps: seq<Step>, i: nat, j: nat, k: nat)
    requires i < j < |steps| && WellFormedLife(steps) && j < k <= |steps| && Alive(c, ttl, steps, i + 1, k)
    requires Acquires(c, ttl, At(c, ttl, steps, i), steps[i]) && Acquires(c, ttl, At(c, ttl, steps, j), steps[j])
    ensures var mine, next := At(c, ttl, steps, i + 1).value.record, At(c, ttl, steps, j + 1).value.record;
            mine.fence < next.fence && At(c, ttl, steps, j).value.record.leaseUntil <= steps[j].now &&
            forall now :: !Holds(At(c, ttl, steps, k).value.record, mine.fence, mine.owner, now)
  {
    hide Acquires, Commit, After;
    assert At(c, ttl, steps, j).Some? && At(c, ttl, steps, i + 1).Some? && At(c, ttl, steps, k).Some?;
    AcquireAt(c, ttl, steps, j);
    LifeLasts(c, ttl, steps, i + 1, j);
    LifeLasts(c, ttl, steps, j + 1, k);
  }

  lemma AcquireAt(c: Client, ttl: Ttl, steps: seq<Step>, j: nat)
    requires j < |steps| && Acquires(c, ttl, At(c, ttl, steps, j), steps[j])
    ensures At(c, ttl, steps, j + 1).Some? && LeaseAt(At(c, ttl, steps, j)) <= steps[j].now
    ensures At(c, ttl, steps, j).Some? ==>
              At(c, ttl, steps, j + 1).value.record.fence == At(c, ttl, steps, j).value.record.fence + 1
  {
    AcquireStep(c, ttl, At(c, ttl, steps, j), steps[j]);
    hide Acquires, After;
  }

  predicate CarriesFence(op: Op, fence: nat) {
    match op
    case Renew(f, _, _, _) => f == fence
    case Progress(f, _, _, _) => f == fence
    case Finish(t, _) => t.fence == fence
    case _ => false
  }

  /** Fencing, part two: once a newer claim was acquired, nothing carrying an older fence commits. */
  lemma StaleFenceNeverCommits(c: Client, ttl: Ttl, steps: seq<Step>, i: nat, j: nat, fence: nat)
    requires i < j < |steps| && WellFormedLife(steps) && Alive(c, ttl, steps, i + 1, j)
    requires Acquires(c, ttl, At(c, ttl, steps, i), steps[i]) && fence < At(c, ttl, steps, i + 1).value.record.fence
    requires CarriesFence(steps[j].op, fence)
    ensures Commit(c, ttl, At(c, ttl, steps, j), steps[j].op, steps[j].now).Err?
  {
    hide At, Acquires;
    LifeLasts(c, ttl, steps, i + 1, j);
    assert At(c, ttl, steps, j).Some?;
  }

  /** A retry that commits is the only step that changes the retry count, and adds one. */
  predicate RetryCommits(c: Client, ttl: Ttl, x: Option<Entry>, s: Step) {
    s.op.Finish? && s.op.t.replacement.None? && s.op.t.state == RetryWait && Commit(c, ttl, x, s.op, s.now).Ok?
  }

  function RetryCount(c: Client, ttl: Ttl, steps: seq<Step>, i: nat, j: nat): nat
    requires i <= j <= |steps|
    decreases j
  {
    if i == j then 0 else
      RetryCount(c, ttl, steps, i, j - 1) +
      (if RetryCommits(c, ttl, At(c, ttl, steps, j - 1), steps[j - 1]) then 1 else 0)
  }

  lemma RetryStep(c: Client, ttl: Ttl, x: Option<Entry>, s: Step)
    requires SoundEntry(c, x) && WellFormed(s.op) && x.Some? && After(c, ttl, x, s).Some?
    ensures After(c, ttl, x, s).value.record.envelope.retries ==
              x.value.record.envelope.retries + if RetryCommits(c, ttl, x, s) then 1 else 0
  {
    hide AddIntents, BatchOk, ReplayBound, YieldOk;
    match s.op
    case Finish(t, at) =>
    case Claim(_, _, _, _) =>
    case _ => hide RetryOk;
  }

  /** Retry accounting: the retry count rises by exactly one per committed retry. */
  lemma {:induction false} RetryAccounting(c: Client, ttl: Ttl, steps: seq<Step>, i: nat, j: nat)
    requires i <= j <= |steps| && WellFormedLife(steps) && Alive(c, ttl, steps, i, j)
    ensures At(c, ttl, steps, j).value.record.envelope.retries ==
            At(c, ttl, steps, i).value.record.envelope.retries + RetryCount(c, ttl, steps, i, j)
    decreases j
  {
    hide After, Commit, RetryCommits;
    if i < j {
      RetryAccounting(c, ttl, steps, i, j - 1);
      LifeIsSound(c, ttl, steps, j - 1);
      assert At(c, ttl, steps, j - 1).Some? && At(c, ttl, steps, j).Some?;
      RetryStep(c, ttl, At(c, ttl, steps, j - 1), steps[j - 1]);
    }
  }

  /** The part of Envelope.Validate that the protocol's bounds rest on. */
  ghost predicate Validating(c: Client) {
    forall e ::
      c.admits(e) ==> e.depth <= MaxReplacementDepth && (e.maxRetries.Some? ==> e.retries <= e.maxRetries.value)
  }

  /** No record ever exceeds its retry limit or the replacement depth, and the limit never changes. */
  lemma RetriesBounded(c: Client, ttl: Ttl, steps: seq<Step>, i: nat, j: nat)
    requires i <= j <= |steps| && WellFormedLife(steps) && Alive(c, ttl, steps, i, j) && Validating(c)
    ensures var a, b := At(c, ttl, steps, i).value.record.envelope, At(c, ttl, steps, j).value.record.envelope;
            b.maxRetries == a.maxRetries && (a.maxRetries.Some? ==> b.retries <= a.maxRetries.value) &&
            b.depth <= MaxReplacementDepth
  {
    LifeIsSound(c, ttl, steps, j);
    LifeLasts(c, ttl, steps, i, j);
    hide At;
    assert c.admits(At(c, ttl, steps, j).value.record.envelope);
  }

  /** ReplayUntil bounds every ETA and expiry the record ever held. */
  lemma ReplayBoundsHistory(c: Client, ttl: Ttl, steps: seq<Step>, i: nat, j: nat)
    requires i <= j <= |steps| && WellFormedLife(steps) && Alive(c, ttl, steps, i, j)
    ensures var held := At(c, ttl, steps, i).value.record.envelope;
            held.eta <= At(c, ttl, steps, j).value.record.replayUntil &&
            held.expires <= At(c, ttl, steps, j).value.record.replayUntil
  {
    LifeIsSound(c, ttl, steps, i);
    LifeLasts(c, ttl, steps, i, j);
  }

  // ---- yielded tasks ----

  /** A yielded task ends only by resolving its replacement, and as revoked once a cancel is stored. */
  lemma YieldedEndsByResolving(c: Client, ttl: Ttl, x: Option<Entry>, s: Step)
    requires SoundEntry(c, x) && x.Some? && x.value.record.replacement.Some? && !x.value.record.state.Terminal() &&
             WellFormed(s.op)
    requires After(c, ttl, x, s).Some? && After(c, ttl, x, s).value.record.state.Terminal()
    ensures s.op.Resolve? && Some(s.op.workflow) == x.value.record.replacement
    ensures x.value.record.cancelRequested ==> After(c, ttl, x, s).value.record.state == Revoked
  {
  }

  /** A yielded task never regains an owner or a lease, keeps its one replacement, and ends at
      most once: whatever ended it is what it shows at every later moment. */
  lemma YieldedStaysYielded(c: Client, ttl: Ttl, steps: seq<Step>, i: nat, j: nat)
    requires i <= j <= |steps| && WellFormedLife(steps) && Alive(c, ttl, steps, i, j)
    requires At(c, ttl, steps, i).value.record.replacement.Some?
    ensures var a, b := At(c, ttl, steps, i).value.record, At(c, ttl, steps, j).value.record;
            b.replacement == a.replacement && b.owner == "" && b.leaseUntil == 0 && b.fence == a.fence &&
            (a.state.Terminal() ==> b.state == a.state && b.failure == a.failure)
  {
    LifeLasts(c, ttl, steps, i, j);
  }

  predicate YieldedAndCanceled(r: Record) {
    r.replacement.Some? && r.cancelRequested && (r.state.Terminal() ==> r.state == Revoked)
  }

  lemma CanceledStep(c: Client, ttl: Ttl, steps: seq<Step>, n: nat)
    requires n < |steps| && WellFormedLife(steps) && At(c, ttl, steps, n).Some? && At(c, ttl, steps, n + 1).Some?
    requires YieldedAndCanceled(At(c, ttl, steps, n).value.record)
    ensures YieldedAndCanceled(At(c, ttl, steps, n + 1).value.record)
  {
    LifeIsSound(c, ttl, steps, n);
    LifeStep(c, ttl, steps, n);
    var x := At(c, ttl, steps, n);
    hide Commit;
    if !x.value.record.state.Terminal() && At(c, ttl, steps, n + 1).value.record.state.Terminal() {
      YieldedEndsByResolving(c, ttl, x, steps[n]);
    }
  }

  /** A cancel stored before a yielded task ended forces the revoked state. */
  lemma {:induction false} StoredCancelRevokes(c: Client, ttl: Ttl, steps: seq<Step>, i: nat, j: nat)
    requires i <= j <= |steps| && WellFormedLife(steps) && Alive(c, ttl, steps, i, j)
    requires YieldedAndCanceled(At(c, ttl, steps, i).value.record)
    ensures YieldedAndCanceled(At(c, ttl, steps, j).value.record)
    decreases j
  {
    hide After, Commit;
    if i < j {
      StoredCancelRevokes(c, ttl, steps, i, j - 1);
      assert At(c, ttl, steps, j - 1).Some? && At(c, ttl, steps, j).Some?;
      CanceledStep(c, ttl, steps, j - 1);
    }
  }

  // ---- intents ----

  /** Stored intents never change or vanish, and delivered is never undone. */
  predicate IntentsLater(a: map<Id, Stored>, b: map<Id, Stored>) {
    forall k | k in a ::
      k in b && b[k].intent == a[k].intent && a[k].fence <= b[k].fence && (a[k].delivered ==> b[k] == a[k])
  }

  lemma {:induction false} AddKeeps(stored: map<Id, Stored>, batch: seq<Intent>)
    ensures IntentsLater(stored, AddIntents(stored, batch))
    decreases |batch|
  {
    if batch != [] { AddKeeps(stored, batch[..|batch| - 1]); }
  }

  lemma IntentStep(c: Client, ttl: Ttl, x: Option<Entry>, s: Step)
    requires x.Some? && After(c, ttl, x, s).Some?
    ensures IntentsLater(x.value.intents, After(c, ttl, x, s).value.intents)
  {
    hide ApplyTransition, ApplyReplacementOutcome, ClaimRecord, InitialRecord, IntentsLater;
    var stored := x.value.intents;
    IntentsRefl(stored);
    AddKeeps(stored, []);
    match s.op
    case Finish(t, at) => AddKeeps(stored, t.intents);
    case Resolve(wf, t, at) => AddKeeps(stored, t.intents);
    case RequestCancel(scope) => AddKeeps(stored, CancellationIntents(x.value.record.(cancelRequested := true)));
    case ClaimIntent(k, owner, lease) => IntentUpdate(stored, After(c, ttl, x, s).value.intents, k);
    case MarkIntent(k, fence, owner) => IntentUpdate(stored, After(c, ttl, x, s).value.intents, k);
    case _ =>
  }

  lemma IntentsRefl(a: map<Id, Stored>)
    ensures IntentsLater(a, a)
  {
  }

  lemma IntentUpdate(a: map<Id, Stored>, b: map<Id, Stored>, k: Id)
    requires b == a ||
             (k in a && k in b && b == a[k := b[k]] && b[k].intent == a[k].intent && a[k].fence <= b[k].fence &&
             !a[k].delivered)
    ensures IntentsLater(a, b)
  {
  }

  lemma {:induction false} IntentsLast(c: Client, ttl: Ttl, steps: seq<Step>, i: nat, j: nat)
    requires i <= j <= |steps| && Alive(c, ttl, steps, i, j)
    ensures IntentsLater(At(c, ttl, steps, i).value.intents, At(c, ttl, steps, j).value.intents)
    decreases j
  {
    if i < j {
      IntentsLast(c, ttl, steps, i, j - 1);
      assert At(c, ttl, steps, j - 1).Some? && At(c, ttl, steps, j).Some?;
      hide Commit;
      IntentStep(c, ttl, At(c, ttl, steps, j - 1), steps[j - 1]);
    }
  }

  /** An intent is marked delivered only by its latest claimant. */
  lemma MarkNeedsLatestClaim(c: Client, ttl: Ttl, x: Option<Entry>, s: Step, k: Id)
    requires x.Some? && k in x.value.intents && !x.value.intents[k].delivered
    requires After(c, ttl, x, s).Some? && k in After(c, ttl, x, s).value.intents &&
             After(c, ttl, x, s).value.intents[k].delivered
    ensures s.op.MarkIntent? && s.op.intent == k && s.op.fence == x.value.intents[k].fence &&
            s.op.owner == x.value.intents[k].owner
  {
    AddKeepsPending(x.value.intents, [], k);
    match s.op
    case Finish(t, at) => AddKeepsPending(x.value.intents, t.intents, k);
    case Resolve(wf, t, at) => AddKeepsPending(x.value.intents, t.intents, k);
    case RequestCancel(scope) => AddKeepsPending(x.value.intents,
                                   CancellationIntents(x.value.record.(cancelRequested := true)), k);
    case _ =>
  }

  lemma {:induction false} AddKeepsPending(stored: map<Id, Stored>, batch: seq<Intent>, k: Id)
    requires k in stored
    ensures k in AddIntents(stored, batch) && AddIntents(stored, batch)[k] == stored[k]
    decreases |batch|
  {
    if batch != [] { AddKeepsPending(stored, batch[..|batch| - 1], k); }
  }

  /** A record disappears only when it is terminal, unpinned, past its tombstone, and every intent
      it stored was delivered; the tombstone lies beyond every ETA and expiry it ever held. */
  lemma DeletionIsSafe(c: Client, ttl: Ttl, steps: seq<Step>, i: nat, j: nat)
    requires i <= j < |steps| && WellFormedLife(steps) && Alive(c, ttl, steps, i, j) && At(c, ttl, steps, j + 1).None?
    ensures steps[j].op.Delete? && Deletable(At(c, ttl, steps, j).value, steps[j].op.at)
    ensures var held := At(c, ttl, steps, i).value.record.envelope;
            held.eta <= steps[j].op.at && held.expires <= steps[j].op.at
  {
    LifeIsSound(c, ttl, steps, j);
    ReplayBoundsHistory(c, ttl, steps, i, j);
    assert At(c, ttl, steps, j).Some?;
    DeleteStep(c, ttl, At(c, ttl, steps, j), steps[j]);
  }

  lemma DeleteStep(c: Client, ttl: Ttl, x: Option<Entry>, s: Step)
    requires x.Some? && After(c, ttl, x, s).None?
    ensures s.op.Delete? && Deletable(x.value, s.op.at)
  {
  }
}
