/** async/autoscale.go: the local reservation pool. Loops share one lock; a loop holds a worker slot
    while it reserves and executes. Every interleaving of the loops, of direct callers of the
    worker and of the controller's ticks is a sequence of the steps below. */
module Autoscale {
  import Protocol

  datatype Loop = Loop(busy: bool, retiring: bool, idleSince: nat)

  datatype Options = Options(min: nat, max: nat, idleTimeout: nat, slots: nat)

  datatype Holder = OfLoop(id: nat) | Direct(caller: nat)

  datatype Pool = Pool(loops: map<nat, Loop>, nextId: nat, open: bool, holders: set<Holder>)

  predicate OptionsOk(o: Options) { 1 <= o.min <= o.max <= 1024 }

  function Live(loops: map<nat, Loop>): set<nat> { set id | id in loops && !loops[id].retiring }

  function Busy(loops: map<nat, Loop>): set<nat> { set id | id in loops && !loops[id].retiring && loops[id].busy }

  predicate Idle(loops: map<nat, Loop>, id: nat)
    requires id in loops
  {
    !loops[id].retiring && !loops[id].busy
  }

  /** An idle loop that has been idle at least as long as every other. */
  predicate Oldest(loops: map<nat, Loop>, id: nat) {
    id in loops && Idle(loops, id) &&
    forall k | k in loops && Idle(loops, k) :: loops[id].idleSince <= loops[k].idleSince
  }

  predicate WantsMore(o: Options, loops: map<nat, Loop>) {
    |loops| < o.max && (|Live(loops)| < o.min || |Live(loops)| == |Busy(loops)|)
  }

  predicate MayRetire(o: Options, loops: map<nat, Loop>, id: nat, now: nat) {
    |Live(loops)| > o.min && Oldest(loops, id) && now >= loops[id].idleSince + o.idleTimeout
  }

  function Started(p: Pool, now: nat): Pool {
    p.(loops := p.loops[p.nextId := Loop(false, false, now)], nextId := p.nextId + 1)
  }

  function Retired(p: Pool, id: nat): Pool
    requires id in p.loops
  {
    p.(loops := p.loops[id := p.loops[id].(retiring := true)])
  }

  /** One tick of the controller: grow, or retire the loop that has been idle longest, or nothing. */
  predicate Ticked(o: Options, p: Pool, now: nat, p': Pool) {
    if p.open && WantsMore(o, p.loops) then p' == Started(p, now)
    else if p.open && exists id | id in p.loops :: MayRetire(o, p.loops, id, now)
    then exists id | id in p.loops :: MayRetire(o, p.loops, id, now) && p' == Retired(p, id)
    else p' == p
  }

  datatype Event =
    | Acquire(h: Holder) | Release(h: Holder)
    | Accept(id: nat) | Finish(id: nat, now: nat) | Exit(id: nat)
    | Tick(now: nat) | Close

  /** A loop's own context is cancelled when it retires or reservation closes. */
  predicate Canceled(p: Pool, id: nat)
    requires id in p.loops
  {
    p.loops[id].retiring || !p.open
  }

  predicate Next(o: Options, p: Pool, e: Event, p': Pool) {
    match e
    case Acquire(h) =>
      h !in p.holders && |p.holders| < o.slots && (h.OfLoop? ==> h.id in p.loops) &&
      p' == p.(holders := p.holders + {h})
    case Release(h) =>
      h in p.holders && (h.OfLoop? && h.id in p.loops ==> !p.loops[h.id].busy) && p' == p.(holders := p.holders - {h})
    case Accept(id) =>
      id in p.loops && OfLoop(id) in p.holders && !p.loops[id].busy &&
      p' == if Canceled(p, id) then p else p.(loops := p.loops[id := p.loops[id].(busy := true)])
    case Finish(id, now) =>
      id in p.loops && p.loops[id].busy &&
      p' == p.(loops := p.loops[id := p.loops[id].(busy := false, idleSince := now)])
    case Exit(id) =>
      id in p.loops && Canceled(p, id) && !p.loops[id].busy && OfLoop(id) !in p.holders &&
      p' == p.(loops := p.loops - {id})
    case Tick(now) => Ticked(o, p, now, p')
    case Close => p' == p.(open := false)
  }

  /** The pool's invariant. */
  predicate PoolOk(o: Options, p: Pool) {
    (p.open ==> o.min <= |Live(p.loops)|) && |p.loops| <= o.max && |p.holders| <= o.slots &&
    (forall id | id in p.loops :: id < p.nextId) &&
    (forall id | id in p.loops && p.loops[id].retiring :: !p.loops[id].busy) &&
    (forall id | id in p.loops && p.loops[id].busy :: OfLoop(id) in p.holders) &&
    (forall h | h in p.holders && h.OfLoop? :: h.id in p.loops)
  }

  lemma SameLive(loops: map<nat, Loop>, id: nat, loop: Loop)
    requires id in loops && loop.retiring == loops[id].retiring
    ensures Live(loops[id := loop]) == Live(loops) && |loops[id := loop]| == |loops|
  {
    assert loops[id := loop].Keys == loops.Keys;
    assert |loops[id := loop].Keys| == |loops[id := loop]| && |loops.Keys| == |loops|;
  }

  lemma StartSizes(p: Pool, now: nat)
    requires p.nextId !in p.loops
    ensures |Started(p, now).loops| == |p.loops| + 1 && |Live(Started(p, now).loops)| == |Live(p.loops)| + 1
  {
    var p' := Started(p, now);
    assert Live(p'.loops) == Live(p.loops) + {p.nextId};
    assert p'.loops.Keys == p.loops.Keys + {p.nextId};
    assert |p'.loops.Keys| == |p'.loops| && |p.loops.Keys| == |p.loops|;
  }

  lemma StartKeeps(o: Options, p: Pool, now: nat)
    requires PoolOk(o, p) && WantsMore(o, p.loops)
    ensures PoolOk(o, Started(p, now))
  {
    hide Live, Busy;
    StartSizes(p, now);
  }

  lemma RetireKeeps(o: Options, p: Pool, id: nat, now: nat)
    requires PoolOk(o, p) && id in p.loops && MayRetire(o, p.loops, id, now)
    ensures PoolOk(o, Retired(p, id))
  {
    var p' := Retired(p, id);
    assert Live(p'.loops) == Live(p.loops) - {id} && id in Live(p.loops);
    assert p'.loops.Keys == p.loops.Keys;
    assert |p'.loops.Keys| == |p'.loops| && |p.loops.Keys| == |p.loops|;
  }

  lemma ExitKeeps(o: Options, p: Pool, id: nat)
    requires PoolOk(o, p) && id in p.loops && Canceled(p, id) && !p.loops[id].busy && OfLoop(id) !in p.holders
    ensures PoolOk(o, p.(loops := p.loops - {id}))
  {
    var loops := p.loops - {id};
    if p.open { assert Live(loops) == Live(p.loops); }
    assert loops.Keys == p.loops.Keys - {id};
    assert |loops.Keys| == |loops| && |p.loops.Keys| == |p.loops|;
  }

  lemma StepKeeps(o: Options, p: Pool, e: Event, p': Pool)
    requires PoolOk(o, p) && Next(o, p, e, p')
    ensures PoolOk(o, p')
  {
    match e
    case Acquire(h) =>
    case Release(h) =>
    case Accept(id) => SameLive(p.loops, id, p.loops[id].(busy := true));
    case Finish(id, now) => SameLive(p.loops, id, p.loops[id].(busy := false, idleSince := now));
    case Exit(id) => ExitKeeps(o, p, id);
    case Tick(now) =>
      if p.open && WantsMore(o, p.loops) {
        StartKeeps(o, p, now);
      } else if p.open && exists id | id in p.loops :: MayRetire(o, p.loops, id, now) {
        var id :| id in p.loops && MayRetire(o, p.loops, id, now) && p' == Retired(p, id);
        RetireKeeps(o, p, id, now);
      }
    case Close =>
  }

  /** A run of the pool, starting with the minimum of idle loops. */
  predicate Run(o: Options, states: seq<Pool>, events: seq<Event>) {
    |states| == |events| + 1 && forall i | 0 <= i < |events| :: Next(o, states[i], events[i], states[i + 1])
  }

  function Initial(o: Options,
      now: nat): Pool { Pool(map id | id in Ids(o.min) :: Loop(false, false, now), o.min, true, {}) }

  lemma InitialOk(o: Options, now: nat)
    requires OptionsOk(o)
    ensures PoolOk(o, Initial(o, now))
  {
    var loops := Initial(o, now).loops;
    FirstIds(o.min);
    assert loops.Keys == Ids(o.min) && Live(loops) == Ids(o.min);
    assert |loops.Keys| == |loops|;
  }

  function Ids(n: nat): (r: set<nat>)
    ensures forall i: nat :: i in r <==> i < n
  {
    if n == 0 then {} else Ids(n - 1) + {n - 1}
  }

  lemma {:induction false} FirstIds(n: nat)
    ensures |Ids(n)| == n
    decreases n
  {
    if n > 0 { FirstIds(n - 1); }
  }

  /** Over every interleaving: while reservation is open at least `min` loops are not retiring, all
      loops together never exceed `max`, no retiring loop is busy, and the slots in use never
      exceed the cap, so neither do the busy loops. */
  lemma {:induction false} PoolIsSafe(o: Options, states: seq<Pool>, events: seq<Event>, now: nat, i: nat)
    requires OptionsOk(o) && Run(o, states, events) && states[0] == Initial(o, now) && i < |states|
    ensures PoolOk(o, states[i]) && |Busy(states[i].loops)| <= o.slots
    decreases i
  {
    if i == 0 {
      InitialOk(o, now);
    } else {
      PoolIsSafe(o, states, events, now, i - 1);
      StepKeeps(o, states[i - 1], events[i - 1], states[i]);
    }
    BusyHoldSlots(o, states[i]);
  }

  lemma BusyHoldSlots(o: Options, p: Pool)
    requires PoolOk(o, p)
    ensures |Busy(p.loops)| <= o.slots
  {
    CountHolders(Busy(p.loops), p.holders);
  }

  lemma {:induction false} CountHolders(ids: set<nat>, holders: set<Holder>)
    requires forall id | id in ids :: OfLoop(id) in holders
    ensures |ids| <= |holders|
    decreases |ids|
  {
    if ids != {} {
      var id :| id in ids;
      CountHolders(ids - {id}, holders - {OfLoop(id)});
    }
  }

  /** A busy loop is never retired, and a loop that retired never accepts a delivery again. */
  lemma {:induction false} RetiredNeverAccepts(o: Options, states: seq<Pool>, events: seq<Event>, now: nat, i: nat,
      j: nat, id: nat)
    requires OptionsOk(o) && Run(o, states, events) && states[0] == Initial(o, now) && i <= j < |states|
    requires id in states[i].loops && states[i].loops[id].retiring
    ensures id in states[j].loops ==> states[j].loops[id].retiring && !states[j].loops[id].busy
    ensures id < states[j].nextId
    decreases j
  {
    PoolIsSafe(o, states, events, now, j);
    if i < j {
      RetiredNeverAccepts(o, states, events, now, i, j - 1, id);
      PoolIsSafe(o, states, events, now, j - 1);
      assert Next(o, states[j - 1], events[j - 1], states[j]);
      StaysRetired(o, states[j - 1], events[j - 1], states[j], id);
    }
  }

  lemma StaysRetired(o: Options, p: Pool, e: Event, p': Pool, id: nat)
    requires PoolOk(o, p) && Next(o, p, e, p') && id < p.nextId && (id in p.loops ==> p.loops[id].retiring)
    ensures id < p'.nextId && (id in p'.loops ==> p'.loops[id].retiring)
  {
    if e.Tick? && p.open && !WantsMore(o, p.loops) && exists k | k in p.loops :: MayRetire(o, p.loops, k, e.now) {
      var k :| k in p.loops && MayRetire(o, p.loops, k, e.now) && p' == Retired(p, k);
    }
  }

  /** The locked pass over the loops: how many are live, how many of them busy, and the loop that
      has been idle longest. */
  method Scan(loops: map<nat, Loop>) returns (live: nat, busy: nat, oldest: Protocol.Option<nat>)
    ensures live == |Live(loops)| && busy == |Busy(loops)|
    ensures oldest.Some? ==> Oldest(loops, oldest.value)
    ensures oldest.None? ==> forall id :: !Oldest(loops, id)
  {
    var rest := loops.Keys;
    ghost var seen, working: set<nat> := {}, {};
    live, busy, oldest := 0, 0, Protocol.None;
    while rest != {}
      invariant rest <= loops.Keys && live == |seen| && busy == |working|
      invariant seen == set id | id in loops && id !in rest && !loops[id].retiring
      invariant working == set id | id in loops && id !in rest && !loops[id].retiring && loops[id].busy
      invariant oldest.None? ==> forall id | id in loops && id !in rest :: !Idle(loops, id)
      invariant oldest.Some? ==> oldest.value in loops && Idle(loops, oldest.value)
      invariant oldest.Some? ==>
                  forall id | id in loops && id !in rest && Idle(loops, id) ::
                    loops[oldest.value].idleSince <= loops[id].idleSince
      decreases |rest|
    {
      var id :| id in rest;
      rest := rest - {id};
      if loops[id].retiring { continue; }
      live, seen := live + 1, seen + {id};
      if loops[id].busy {
        busy, working := busy + 1, working + {id};
      } else if oldest.None? || loops[id].idleSince < loops[oldest.value].idleSince {
        oldest := Protocol.Some(id);
      }
    }
    assert seen == Live(loops) && working == Busy(loops);
  }

  lemma NoneRetires(o: Options, loops: map<nat, Loop>, live: nat, oldest: Protocol.Option<nat>, now: nat)
    requires live == |Live(loops)| && (oldest.Some? ==> Oldest(loops, oldest.value)) &&
             (oldest.None? ==> forall id :: !Oldest(loops, id))
    requires !(live > o.min && oldest.Some? && now >= loops[oldest.value].idleSince + o.idleTimeout)
    ensures !exists id | id in loops :: MayRetire(o, loops, id, now)
  {
    hide Live;
  }

  /** The controller's side of the shared state. */
  class Controller {
    const options: Options
    var pool: Pool

    constructor (options: Options, now: nat)
      requires OptionsOk(options)
      ensures this.options == options && pool == Initial(options, now) && PoolOk(options, pool)
    {
      this.options := options;
      this.pool := Initial(options, now);
      InitialOk(options, now);
    }

    /** The tick's scan: counts and the longest idle loop, then one decision. */
    method OnTick(now: nat)
      requires PoolOk(options, pool)
      modifies this
      ensures Ticked(options, old(pool), now, pool) && PoolOk(options, pool)
    {
      var live, busy, oldest := Scan(pool.loops);
      hide PoolOk, Live, Busy, Oldest;
      if pool.open {
        if |pool.loops| < options.max && (live < options.min || live == busy) {
          StartKeeps(options, pool, now);
          pool := Started(pool, now);
        } else if live > options.min && oldest.Some? &&
        now >= pool.loops[oldest.value].idleSince + options.idleTimeout {
          RetireKeeps(options, pool, oldest.value, now);
          pool := Retired(pool, oldest.value);
        } else {
          NoneRetires(options, pool.loops, live, oldest, now);
        }
      }
    }
  }
}
