/** async/beat.go and async/redis/periodic.go: several Beat instances lease one periodic schedule
    and commit its occurrences, with catch-up misfire, overlap allowed and no fixed delay. */
module Beat {
  import opened Protocol

  /** One schedule row: `rule` is the checked next-occurrence function of its rule or calendar. */
  datatype Schedule = Schedule(
    nextDue: nat, endAt: nat, limit: nat, enabled: bool, revision: nat, fence: nat, owner: string, leaseUntil: nat,
      observed: nat)

  type Rule = nat -> Option<nat>

  /** checkedOccurrence: an occurrence that is not later is an error. */
  function NextOf(rule: Rule, after: nat): Option<nat> {
    match rule(after)
    case None => None
    case Some(n) => if n > after then Some(n) else None
  }

  /** The `n`-th occurrence after `due`, as long as the rule yields one. */
  function Orbit(rule: Rule, due: nat, n: nat): Option<nat> {
    if n == 0 then Some(due) else
      match Orbit(rule, due, n - 1)
      case None => None
      case Some(d) => NextOf(rule, d)
  }

  predicate Ended(endAt: nat, due: nat) { endAt != 0 && due >= endAt }

  /** Occurrence `i` of the orbit is `x`, which is before the end. */
  predicate Emitted(rule: Rule, due: nat, endAt: nat, i: nat,
      x: nat) { Orbit(rule, due, i) == Some(x) && !Ended(endAt, x) }

  /** What one tick commits for a leased schedule: the occurrences it emits and the next due time. */
  datatype Plan = Plan(dues: seq<nat>, next: nat)

  /** The dues are the orbit from `due`, all before the end and, after the first, none later than
      the time observed; the next due time follows on it, past an occurrence that already lies at
      or after the end. */
  predicate PlanOk(rule: Rule, p: Schedule, plan: Plan) {
    |plan.dues| <= p.limit && p.nextDue < plan.next &&
    (forall i | 0 < i < |plan.dues| :: plan.dues[i] <= p.observed) &&
    (forall i | 0 <= i < |plan.dues| :: Emitted(rule, p.nextDue, p.endAt, i, plan.dues[i])) &&
    (Orbit(rule, p.nextDue, |plan.dues|) == Some(plan.next) ||
     (Orbit(rule, p.nextDue, |plan.dues| + 1) == Some(plan.next) &&
      Orbit(rule, p.nextDue, |plan.dues|).Some? && Ended(p.endAt, Orbit(rule, p.nextDue, |plan.dues|).value)))
  }

  lemma {:induction false} OrbitIncreases(rule: Rule, due: nat, i: nat, j: nat)
    requires i < j && Orbit(rule, due, j).Some?
    ensures Orbit(rule, due, i).Some? && Orbit(rule, due, i).value < Orbit(rule, due, j).value
    decreases j
  {
    if i < j - 1 { OrbitIncreases(rule, due, i, j - 1); }
  }

  lemma {:induction false} OrbitShifts(rule: Rule, due: nat, i: nat, j: nat)
    requires Orbit(rule, due, i).Some?
    ensures Orbit(rule, Orbit(rule, due, i).value, j) == Orbit(rule, due, i + j)
    decreases j
  {
    if j > 0 { OrbitShifts(rule, due, i, j - 1); }
  }

  lemma EmitsNow(rule: Rule, p: Schedule, n: nat, due: nat)
    requires Orbit(rule, p.nextDue, n) == Some(due) && !Ended(p.endAt, due)
    ensures Emitted(rule, p.nextDue, p.endAt, n, due)
  {
  }

  /** A tick stops only at its limit, past the present, or at the end of the schedule. */
  predicate CaughtUp(rule: Rule, p: Schedule, plan: Plan) {
    |plan.dues| == p.limit || plan.next > p.observed ||
    (Orbit(rule, p.nextDue, |plan.dues|).Some? && Ended(p.endAt, Orbit(rule, p.nextDue, |plan.dues|).value))
  }

  /** Beat.Tick's inner loop for one schedule. */
  method CatchUp(rule: Rule, p: Schedule) returns (r: Result<Plan>)
    requires p.limit >= 1
    ensures r.Ok? ==> PlanOk(rule, p, r.value)
    ensures r.Ok? && r.value.dues == [] ==> Ended(p.endAt, p.nextDue)
    ensures r.Ok? ==> CaughtUp(rule, p, r.value)
    ensures r.Err? ==> exists k: nat | k <= p.limit :: Orbit(rule, p.nextDue, k).None?
  {
    hide Emitted;
    var now, due := p.observed, p.nextDue;
    var first := NextOf(rule, due);
    if first.None? {
      assert Orbit(rule, p.nextDue, 1).None?;
      return Err(Invalid);
    }
    var next := first.value;
    var dues: seq<nat> := [];
    while true
      invariant |dues| < p.limit && due < next && p.nextDue <= due
      invariant Orbit(rule, p.nextDue, |dues|) == Some(due) && Orbit(rule, p.nextDue, |dues| + 1) == Some(next)
      invariant forall i | 0 <= i < |dues| :: Emitted(rule, p.nextDue, p.endAt, i, dues[i])
      invariant (dues == [] ==> due == p.nextDue) && (dues != [] ==> due <= now)
      invariant forall i | 0 < i < |dues| :: dues[i] <= now
      decreases p.limit - |dues|
    {
      if Ended(p.endAt, due) { return Ok(Plan(dues, next)); }
      EmitsNow(rule, p, |dues|, due);
      dues := dues + [due];
      if next > now || |dues| >= p.limit { return Ok(Plan(dues, next)); }
      due := next;
      var following := NextOf(rule, due);
      if following.None? {
        assert Orbit(rule, p.nextDue, |dues| + 1).None?;
        return Err(Invalid);
      }
      next := following.value;
    }
  }

  // ---- the store ----

  /** The schedule row, the copies Beat instances hold, the occurrences stored so far, server time. */
  datatype Beats = Beats(row: Schedule, copies: seq<Schedule>, stored: seq<nat>, clock: nat)

  function AddDue(stored: seq<nat>, due: nat): seq<nat> { if due in stored then stored else stored + [due] }

  function AddDues(stored: seq<nat>, dues: seq<nat>): seq<nat>
    decreases |dues|
  {
    if dues == [] then stored else AddDue(AddDues(stored, dues[..|dues| - 1]), dues[|dues| - 1])
  }

  datatype Event = LeaseBy(owner: string, lease: nat) | CommitCopy(i: nat, plan: Plan) | Wait(now: nat)

  /** periodicLease on one schedule, which finds it only when it is due and not leased. */
  function Leased(row: Schedule, owner: string, lease: nat, now: nat): Schedule {
    row.(owner := owner, fence := row.fence + 1, revision := row.revision + 1, leaseUntil := now + lease,
      observed := now)
  }

  /** CommitOccurrence: the schedule after its occurrences are stored. */
  function Committed(p: Schedule, plan: Plan): Schedule {
    p.(nextDue := plan.next, revision := p.revision + 1, owner := "", leaseUntil := 0, enabled := p.enabled &&
    !Ended(p.endAt, plan.next))
  }

  /** A tick commits only what CatchUp planned for the copy it leased. */
  ghost predicate Next(rule: Rule, s: Beats, e: Event, s': Beats) {
    match e
    case LeaseBy(owner, lease) =>
      owner != "" && lease >= 1 && s.row.enabled && s.row.nextDue <= s.clock && s.row.leaseUntil <= s.clock &&
      s.row.fence < MaxUint64 && s.row.revision < MaxUint64 &&
      var row := Leased(s.row, owner, lease, s.clock);
      s' == s.(row := row, copies := s.copies + [row])
    case CommitCopy(i, plan) =>
      i < |s.copies| && PlanOk(rule, s.copies[i], plan) &&
      var p := s.copies[i];
      if s.row.revision != p.revision || s.row.fence != p.fence || s.row.owner != p.owner ||
         s.row.leaseUntil <= s.clock || p.revision == MaxUint64
      then s' == s
      else s' == s.(row := Committed(p, plan), stored := AddDues(s.stored, plan.dues))
    case Wait(now) => s.clock <= now && s' == s.(clock := now)
  }

  ghost predicate Run(rule: Rule, states: seq<Beats>, events: seq<Event>) {
    |states| == |events| + 1 && forall i | 0 <= i < |events| :: Next(rule, states[i], events[i], states[i + 1])
  }

  predicate Initial(s: Beats) {
    s.copies == [] && s.stored == [] && s.row.owner == "" && s.row.limit >= 1
  }

  /** The stored occurrences are the first `n` of the orbit, all before the end, and the schedule
      continues right after them, or stopped past an occurrence beyond the end. */
  ghost predicate OnOrbit(rule: Rule, due: nat, s: Beats, n: nat) {
    |s.stored| == n && (forall i | 0 <= i < n :: Emitted(rule, due, s.row.endAt, i, s.stored[i])) &&
    (Orbit(rule, due, n) == Some(s.row.nextDue) ||
     (!s.row.enabled && Orbit(rule, due, n + 1) == Some(s.row.nextDue) && Orbit(rule, due, n).Some? &&
     Ended(s.row.endAt, Orbit(rule, due, n).value)))
  }

  /** A copy with the row's revision is the row: a lease or a commit always changes the revision. */
  predicate CopiesOk(s: Beats) {
    forall i | 0 <= i < |s.copies| ::
      s.copies[i].revision <= s.row.revision && s.copies[i].limit == s.row.limit && s.copies[i].endAt == s.row.endAt &&
      s.copies[i].enabled &&
      (s.copies[i].revision == s.row.revision ==> s.copies[i] == s.row || s.row.owner == "")
  }

  /** Only due schedules are leased, and nothing is emitted before its time. */
  predicate OnTime(s: Beats) {
    (forall i | 0 <= i < |s.copies| :: s.copies[i].nextDue <= s.copies[i].observed <= s.clock) &&
    (forall i | 0 <= i < |s.stored| :: s.stored[i] <= s.clock)
  }

  ghost predicate BeatsOk(rule: Rule, due: nat, s: Beats) {
    s.row.limit >= 1 && CopiesOk(s) && OnTime(s) && (forall i | 0 <= i < |s.copies| :: s.copies[i].owner != "") &&
    OnOrbit(rule, due, s, |s.stored|)
  }

  /** Later orbit elements are new to a store that holds the earlier ones. */
  lemma {:induction false} AddOrbit(rule: Rule, due: nat, endAt: nat, stored: seq<nat>, dues: seq<nat>)
    requires forall i | 0 <= i < |stored + dues| :: Emitted(rule, due, endAt, i, (stored + dues)[i])
    ensures AddDues(stored, dues) == stored + dues
    decreases |dues|
  {
    if dues != [] {
      var front, last := dues[..|dues| - 1], dues[|dues| - 1];
      var m := |stored + front|;
      assert stored + dues == (stored + front) + [last];
      forall i | 0 <= i < m ensures Emitted(rule, due, endAt, i, (stored + front)[i]) {
        assert (stored + dues)[i] == (stored + front)[i];
      }
      AddOrbit(rule, due, endAt, stored, front);
      assert Emitted(rule, due, endAt, m, (stored + dues)[m]);
      hide Emitted;
      forall i | 0 <= i < m ensures (stored + front)[i] != last {
        EmittedDistinct(rule, due, endAt, i, m, (stored + front)[i], last);
      }
    } else {
      assert stored + dues == stored;
    }
  }

  lemma EmittedDistinct(rule: Rule, due: nat, endAt: nat, i: nat, j: nat, x: nat, y: nat)
    requires i < j && Emitted(rule, due, endAt, i, x) && Emitted(rule, due, endAt, j, y)
    ensures x != y
  {
    OrbitIncreases(rule, due, i, j);
  }

  /** The plan's occurrences continue the stored ones on the orbit. */
  lemma PlanContinues(rule: Rule, due: nat, row: Schedule, n: nat, plan: Plan, i: nat)
    requires Orbit(rule, due, n) == Some(row.nextDue) && PlanOk(rule, row, plan) && i < |plan.dues|
    ensures Emitted(rule, due, row.endAt, n + i, plan.dues[i])
  {
    OrbitShifts(rule, due, n, i);
  }

  /** Where the schedule continues after a plan. */
  lemma PlanEnds(rule: Rule, due: nat, row: Schedule, n: nat, plan: Plan)
    requires Orbit(rule, due, n) == Some(row.nextDue) && PlanOk(rule, row, plan)
    ensures var m := n + |plan.dues|;
            Orbit(rule, due, m) == Some(plan.next) ||
            (Ended(row.endAt, plan.next) && Orbit(rule, due, m + 1) == Some(plan.next) && Orbit(rule, due, m).Some? &&
            Ended(row.endAt, Orbit(rule, due, m).value))
  {
    OrbitShifts(rule, due, n, |plan.dues|);
    OrbitShifts(rule, due, n, |plan.dues| + 1);
    if Orbit(rule, row.nextDue, |plan.dues|) != Some(plan.next) {
      OrbitIncreases(rule, row.nextDue, |plan.dues|, |plan.dues| + 1);
    }
  }

  lemma CommitKeeps(rule: Rule, due: nat, s: Beats, plan: Plan)
    requires BeatsOk(rule, due, s) && s.row.enabled && PlanOk(rule, s.row, plan)
    ensures OnOrbit(rule, due, s.(row := Committed(s.row, plan), stored := AddDues(s.stored, plan.dues)),
              |s.stored| + |plan.dues|)
    ensures AddDues(s.stored, plan.dues) == s.stored + plan.dues
  {
    hide Emitted, PlanOk, CopiesOk, AddDues;
    PlanEnds(rule, due, s.row, |s.stored|, plan);
    var stored := s.stored + plan.dues;
    forall i | 0 <= i < |stored| ensures Emitted(rule, due, s.row.endAt, i, stored[i]) {
      CommitEmits(rule, due, s, plan, i);
    }
    AddOrbit(rule, due, s.row.endAt, s.stored, plan.dues);
  }

  lemma CommitEmits(rule: Rule, due: nat, s: Beats, plan: Plan, i: nat)
    requires OnOrbit(rule, due, s, |s.stored|) && s.row.enabled && PlanOk(rule, s.row, plan) &&
             i < |s.stored + plan.dues|
    ensures Emitted(rule, due, s.row.endAt, i, (s.stored + plan.dues)[i])
  {
    if i >= |s.stored| { PlanContinues(rule, due, s.row, |s.stored|, plan, i - |s.stored|); }
    hide Emitted, PlanOk;
  }

  /** Everything a plan emits for a due schedule is due. */
  lemma PlanOnTime(rule: Rule, p: Schedule, plan: Plan, i: nat)
    requires PlanOk(rule, p, plan) && p.nextDue <= p.observed && i < |plan.dues|
    ensures plan.dues[i] <= p.observed
  {
    if i == 0 { assert Emitted(rule, p.nextDue, p.endAt, 0, plan.dues[0]); }
  }

  lemma CommitOnTime(rule: Rule, due: nat, s: Beats, plan: Plan, copy: nat)
    requires BeatsOk(rule, due, s) && copy < |s.copies| && PlanOk(rule, s.copies[copy], plan)
    ensures OnTime(s.(row := Committed(s.copies[copy], plan), stored := s.stored + plan.dues))
    ensures forall i | 0 <= i < |plan.dues| :: plan.dues[i] <= s.copies[copy].observed
  {
    forall i | 0 <= i < |plan.dues| ensures plan.dues[i] <= s.copies[copy].observed {
      PlanOnTime(rule, s.copies[copy], plan, i);
    }
    hide PlanOk, OnOrbit, CopiesOk;
  }

  lemma StepKeeps(rule: Rule, due: nat, s: Beats, e: Event, s': Beats)
    requires BeatsOk(rule, due, s) && Next(rule, s, e, s')
    ensures BeatsOk(rule, due, s')
    ensures s.row.nextDue <= s'.row.nextDue && s.stored <= s'.stored && |s'.stored| <= |s.stored| + s.row.limit
    ensures e.CommitCopy? && s' != s ==> s.row.nextDue < s'.row.nextDue
    ensures e.CommitCopy? ==> forall j | |s.stored| <= j < |s'.stored| :: s'.stored[j] <= s.copies[e.i].observed
  {
    if e.CommitCopy? && s' != s {
      CommitKeeps(rule, due, s, e.plan);
      CommitOnTime(rule, due, s, e.plan, e.i);
    }
  }

  /** Beat emits the exact orbit: over any run, however many instances lease and commit, the
      stored occurrences are a gap-free, duplicate-free prefix of the rule's orbit, each of them
      before the end and none before its time, and the schedule continues where they stop. */
  lemma {:induction false} EmitsOrbit(rule: Rule, states: seq<Beats>, events: seq<Event>, i: nat)
    requires Run(rule, states, events) && Initial(states[0]) && i < |states|
    ensures BeatsOk(rule, states[0].row.nextDue, states[i])
    decreases i
  {
    if i > 0 {
      EmitsOrbit(rule, states, events, i - 1);
      StepKeeps(rule, states[0].row.nextDue, states[i - 1], events[i - 1], states[i]);
    }
  }

  /** Each commit stores at most `limit` occurrences and moves the schedule strictly forward; no
      step takes a stored occurrence back. */
  lemma CommitsMoveForward(rule: Rule, states: seq<Beats>, events: seq<Event>, i: nat)
    requires Run(rule, states, events) && Initial(states[0]) && i < |events|
    ensures states[i].stored <= states[i + 1].stored &&
            |states[i + 1].stored| <= |states[i].stored| + states[i].row.limit
    ensures states[i + 1].stored != states[i].stored ==> states[i].row.nextDue < states[i + 1].row.nextDue
    ensures var s, s' := states[i], states[i + 1];
            events[i].CommitCopy? ==>
              forall j | |s.stored| <= j < |s'.stored| :: s'.stored[j] <= s.copies[events[i].i].observed
  {
    EmitsOrbit(rule, states, events, i);
    hide BeatsOk;
    StepKeeps(rule, states[0].row.nextDue, states[i], events[i], states[i + 1]);
  }
}
