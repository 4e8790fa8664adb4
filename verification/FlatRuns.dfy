/** Whole runs of a flat chain, group or chord: reachable rows, meaning, progress and dispatch safety. */
module FlatRuns {
  import opened Protocol
  import opened Plans
  import opened Meaning
  import opened Nested
  import opened Engine
  import opened IntentHash
  import opened WorkflowStore
  import opened Flat
  import opened DagInvariant
  import opened DagMeaning
  import opened FlatInvariant
  import opened FlatAdvance
  import opened FlatMeaning
  import DagRuns

  type Event = DagRuns.Event

  /** Completions come only from tasks that were durably handed out. */
  predicate FlatLegit(row: Row, e: Event) {
    e.Completed? ==>
      IsFlatTask(row.graph, e.m.id) && HandedOut(row.graph, row.intents, e.m.id) && e.m.outcome.state.Terminal()
  }

  /** While the workflow is normal they report what the world makes of the stored dispatch intent. */
  predicate FlatAllowed(w: World, row: Row, e: Event) {
    FlatLegit(row, e) && (e.Completed? && Normal(row.graph) ==> FlatFaithful(w, row.graph, row.intents, e.m))
  }

  predicate FlatRun(c: Client, w: World, row: Row, events: seq<Event>)
    decreases |events|
  {
    events == [] || (FlatAllowed(w, row, events[0]) && FlatRun(c, w, DagRuns.StepRow(c, row, events[0]), events[1..]))
  }

  predicate FlatReachable(c: Client, row: Row) {
    FlatCore(c, row.graph, row.intents) && FlatLive(row.graph, row.intents) && AllOut(row.graph, row.intents)
  }

  predicate FlatAgrees(c: Client, w: World, g0: Graph, row: Row) {
    Normal(row.graph) ==> FlatMeans(c, w, g0, row.graph, row.intents)
  }

  /** What an effective operation leaves behind: nothing recorded or stored is lost. */
  predicate FlatProgressed(c: Client, row: Row, row': Row) {
    FlatReachable(c, row') && SameFlat(row.graph, row'.graph) && MembersKept(row.graph.members, row'.graph.members) &&
    (row.graph.state.Terminal() ==> row'.graph.state.Terminal()) &&
    (row.graph.cancelRequested ==> row'.graph.cancelRequested) &&
    row.intents.Keys <= row'.intents.Keys && forall k | k in row.intents :: row'.intents[k] == row.intents[k]
  }

  // ---- creation ----

  lemma {:induction false} ChildrenAt(c: Client, id: Id, kind: GraphKind, sigs: seq<Signature>, n: nat, i: nat)
    requires n <= |sigs| && i < n && FlatChildren(c, id, kind, sigs, n).Ok?
    ensures var e := FlatChildren(c, id, kind, sigs, n).value[i];
            e.id == ChildId(id, i) && e.workflow == Some(id) && e.retries == 0 && e.args == sigs[i].args &&
            e.task == sigs[i].task &&
            e.scope == sigs[i].scope == FlatChildren(c, id, kind, sigs, n).value[0].scope && c.known(sigs[i].task) &&
            c.validate(sigs[i].task, sigs[i].args)
    decreases n
  {
    if i < n - 1 { ChildrenAt(c, id, kind, sigs, n - 1, i); }
  }

  /** A graph as ApplyCanvas builds it. */
  predicate FlatStart(c: Client, g: Graph) {
    FlatStatic(c, g) && g.members == map[] && g.state == Running && Normal(g) && g.next == 0 && !g.callbackClaimed &&
    g.originTask.None? &&
    forall n | 0 <= n < |g.children| ::
      g.children[n].args == g.signatures[n].args && c.validate(g.signatures[n].task, g.signatures[n].args)
  }

  lemma FlatGraphStarts(c: Client, id: Id, canvas: Canvas)
    requires FlatGraph(c, id, canvas).Ok?
    ensures FlatStart(c, FlatGraph(c, id, canvas).value)
  {
    var g := FlatGraph(c, id, canvas).value;
    var kind := GraphKindOf(canvas.kind);
    forall n | 0 <= n < |g.children|
      ensures g.children[n].id == ChildId(g.id, n) && Owned(g, g.children[n]) && c.known(g.signatures[n].task) &&
              InScope(g, n)
      ensures g.children[n].args == g.signatures[n].args && c.validate(g.signatures[n].task, g.signatures[n].args)
    {
      ChildrenAt(c, id, kind, canvas.signatures, |canvas.signatures|, n);
    }
    hide FlatChildren;
  }

  /** The stored dispatches are exactly those of the first `n` children. */
  predicate DispatchesOf(g: Graph, n: nat, s: Intents)
    requires n <= |g.children|
  {
    (forall i | 0 <= i < n ::
      DispatchId(g, g.children[i].id) in s &&
      s[DispatchId(g, g.children[i].id)] == DispatchIntent(g.id, g.children[i])) &&
    (forall k | k in s ::
      exists i | 0 <= i < n :: s[k] == DispatchIntent(g.id, g.children[i]) && k == DispatchId(g, g.children[i].id))
  }

  lemma DispatchesSnoc(c: Client, g: Graph, n: nat, s: Intents)
    requires FlatStatic(c, g) && n < |g.children| && DispatchesOf(g, n, s)
    ensures var x := DispatchIntent(g.id, g.children[n]); x.id !in s && DispatchesOf(g, n + 1, s[x.id := x])
  {
    var x := DispatchIntent(g.id, g.children[n]);
    forall i | 0 <= i < n ensures DispatchId(g, g.children[i].id) != x.id {
      assert g.children[i].id == ChildId(g.id, i) && g.children[n].id == ChildId(g.id, n);
    }
    hide FlatStatic;
    assert x.id !in s;
    var s' := s[x.id := x];
    forall k | k in s'
      ensures exists i | 0 <= i < n + 1 ::
                s'[k] == DispatchIntent(g.id, g.children[i]) && k == DispatchId(g, g.children[i].id)
    {
      if k == x.id {
        assert s'[k] == DispatchIntent(g.id, g.children[n]);
      } else {
        var i :| 0 <= i < n && s[k] == DispatchIntent(g.id, g.children[i]) && k == DispatchId(g, g.children[i].id);
        assert s'[k] == DispatchIntent(g.id, g.children[i]);
      }
    }
  }

  lemma {:induction false} DispatchAllStores(c: Client, g: Graph, n: nat)
    requires FlatStatic(c, g) && n <= |g.children|
    ensures DispatchesOf(g, n, Merge(map[], DispatchAll(g.id, g.children[..n])))
    decreases n
  {
    if n > 0 {
      DispatchAllStores(c, g, n - 1);
      assert g.children[..n][..n - 1] == g.children[..n - 1];
      var front, x := DispatchAll(g.id, g.children[..n - 1]), DispatchIntent(g.id, g.children[n - 1]);
      assert DispatchAll(g.id, g.children[..n]) == front + [x];
      hide FlatStatic, DispatchesOf, Merge, DispatchAll;
      DispatchesSnoc(c, g, n - 1, Merge(map[], front));
      MergeSnoc(map[], front, x);
    }
  }

  lemma FirstIntentsStored(c: Client, g: Graph)
    requires FlatStart(c, g) && g.children != []
    ensures DispatchesOf(g, if g.kind.Chain? then 1 else |g.children|, Merge(map[], FirstIntents(g)))
  {
    if g.kind.Chain? {
      assert g.children[..1] == [g.children[0]];
      assert DispatchAll(g.id, g.children[..1]) == [DispatchIntent(g.id, g.children[0])];
      DispatchAllStores(c, g, 1);
    } else {
      assert g.children[..|g.children|] == g.children;
      DispatchAllStores(c, g, |g.children|);
    }
  }

  lemma StartedCore(c: Client, g: Graph, n: nat, s: Intents)
    requires FlatStart(c, g) && n == (if g.kind.Chain? then 1 else |g.children|) && n <= |g.children| &&
             DispatchesOf(g, n, s)
    ensures FlatCore(c, g, s) && (n > 0 ==> FlatLive(g, s))
  {
    forall k | k in s ensures FlatIntentOk(g, k, s[k]) {
      var i :| 0 <= i < n && s[k] == DispatchIntent(g.id, g.children[i]) && k == DispatchId(g, g.children[i].id);
      assert IsChild(g, g.children[i].id) by { assert ChildId(g.id, i) == g.children[i].id; }
    }
    forall i | 0 <= i < |g.children| ensures ChildInv(g, s, i) { StartedChild(c, g, n, s, i); }
    if n > 0 { assert HandedOut(g, s, ChildId(g.id, 0)); }
  }

  lemma StartedChild(c: Client, g: Graph, n: nat, s: Intents, i: nat)
    requires FlatStart(c, g) && n == (if g.kind.Chain? then 1 else |g.children|) && n <= |g.children| &&
             DispatchesOf(g, n, s)
    requires i < |g.children|
    ensures ChildInv(g, s, i)
  {
    var id := ChildId(g.id, i);
    assert g.children[i].id == id;
    assert CancelId(g, id) !in s;
    if i >= n { assert DispatchId(g, id) !in s; }
  }

  lemma StartedMeans(c: Client, w: World, g: Graph, n: nat, s: Intents)
    requires FlatStart(c, g) && n == (if g.kind.Chain? then 1 else |g.children|) && n <= |g.children| &&
             DispatchesOf(g, n, s)
    ensures FlatMeans(c, w, g, g, s)
  {
    forall k | 0 <= k <= |g.signatures| && HasTask(g, k) ensures TaskMeans(c, w, g, g, s, k) {
      var d := DispatchId(g, TaskAt(g, k));
      if d in s {
        var i :| 0 <= i < n && s[d] == DispatchIntent(g.id, g.children[i]) && d == DispatchId(g, g.children[i].id);
        assert g.children[i].id == ChildId(g.id, i);
        assert i == k;
      }
    }
  }

  /** An empty chain is settled at once. */
  lemma EmptyChainStarts(c: Client, w: World, g: Graph)
    requires FlatStart(c, g) && g.children == [] && g.kind.Chain?
    ensures CreateSpec(c, g).Ok? && FlatReachable(c, CreateSpec(c, g).value) &&
            FlatAgrees(c, w, g, CreateSpec(c, g).value)
    ensures SameFlat(g, CreateSpec(c, g).value.graph)
  {
    assert GraphUnpins(g) == [];
    assert AdvanceGraphSpec(c, g) == Ok((g.(state := Succeeded, output := Some(List([]))), []));
    var g' := g.(abortFailure := Some(BudgetExceeded));
    var cleared := g'.(members := ClearOutputs(g'.members), output := None);
    assert GraphUnpins(cleared) == [] && AbortChildren(cleared, 0) == [] && Finished(cleared);
    assert AdvanceMode(c, g) == Ok((g.(state := Succeeded, output := Some(List([]))), [])) ||
           AdvanceMode(c, g) == Ok((cleared.(state := Failed, failure := cleared.abortFailure), []));
    hide AdvanceMode;
    var (next, batch) := AdvanceSpec(c, g).value;
    assert batch == [];
    MergeEmpty(map[]);
    assert MarshalList([]) == List([]);
    if Normal(next) {
      assert FlatMeans(c, w, g, next, map[]);
    }
  }

  /** The first row of a flat graph is reachable. */
  lemma FlatCreateIsReachable(c: Client, g: Graph)
    requires FlatStart(c, g)
    ensures CreateFlatSpec(c, g).Ok? && FlatReachable(c, CreateFlatSpec(c, g).value) &&
            SameFlat(g, CreateFlatSpec(c, g).value.graph)
  {
    hide FlatReachable, FlatStart, SameFlat, CreateSpec, Merge;
    if g.children != [] {
      DispatchedStart(c, g);
    } else if g.kind.Chain? {
      EmptyChainStarts(c, World((k, a) => Failing(WorkflowInput), (k, a) => false, false), g);
    } else {
      EmptyGroupStarts(c, g);
    }
  }

  lemma DispatchedStart(c: Client, g: Graph)
    requires FlatStart(c, g) && g.children != []
    ensures FlatReachable(c, Row(g, Merge(map[], FirstIntents(g)))) && SameFlat(g, g)
  {
    hide Merge, FlatCore, FlatLive;
    FirstIntentsStored(c, g);
    StartedCore(c, g, if g.kind.Chain? then 1 else |g.children|, Merge(map[], FirstIntents(g)));
  }

  lemma EmptyGroupStarts(c: Client, g: Graph)
    requires FlatStart(c, g) && g.children == [] && !g.kind.Chain?
    ensures CreateSpec(c, g).Ok? && FlatReachable(c, CreateSpec(c, g).value) &&
            SameFlat(g, CreateSpec(c, g).value.graph)
  {
    StartedCore(c, g, 0, map[]);
    hide FlatCore, Merge, AdvanceSpec, FlatStart;
    FlatAdvanceKeepsInvariant(c, g, map[]);
  }

  lemma FlatCreated(c: Client, w: World, g: Graph)
    requires FlatStart(c, g) && FlatWorldOf(c, w, g)
    ensures CreateFlatSpec(c, g).Ok? && FlatReachable(c, CreateFlatSpec(c, g).value) &&
            FlatAgrees(c, w, g, CreateFlatSpec(c, g).value)
  {
    if g.children != [] {
      FirstIntentsStored(c, g);
      var n := if g.kind.Chain? then 1 else |g.children|;
      var s := Merge(map[], FirstIntents(g));
      StartedCore(c, g, n, s);
      StartedMeans(c, w, g, n, s);
    } else if g.kind.Chain? {
      EmptyChainStarts(c, w, g);
    } else {
      StartedCore(c, g, 0, map[]);
      StartedMeans(c, w, g, 0, map[]);
      hide FlatCore, FlatMeans, Merge, AdvanceSpec, FlatStart, FlatWorldOf;
      FlatAdvanceKeepsInvariant(c, g, map[]);
      if Normal(AdvanceSpec(c, g).value.0) { FlatAdvanceKeepsMeaning(c, w, g, g, map[]); }
    }
  }

  // ---- steps ----

  lemma FlatRevision(c: Client, g: Graph, r: nat, s: Intents)
    requires FlatCore(c, g, s) && FlatLive(g, s) && AllOut(g, s)
    ensures FlatReachable(c, Row(g.(revision := r), s)) && SameFlat(g, g.(revision := r))
  {
    var g' := g.(revision := r);
    MildKeepsCore(c, g, g', s);
    hide FlatCore;
    RevisionLive(g, g', s);
    RevisionOut(g, g', s);
    hide FlatLive, AllOut;
  }

  lemma RevisionLive(g: Graph, g': Graph, s: Intents)
    requires FlatLive(g, s) && g' == g.(revision := g'.revision)
    ensures FlatLive(g', s)
  {
    if !g.state.Terminal() && !(g.callbackClaimed && BodyId(g.id) !in g.members) {
      var n :| 0 <= n < |g.children| && HandedOut(g, s, ChildId(g.id, n)) && ChildId(g.id, n) !in g.members;
      assert HandedOut(g', s, ChildId(g'.id, n)) && ChildId(g'.id, n) !in g'.members;
    }
  }

  lemma RevisionOut(g: Graph, g': Graph, s: Intents)
    requires AllOut(g, s) && g' == g.(revision := g'.revision)
    ensures AllOut(g', s)
  {
    forall n | 0 <= n < |g.children| && HandedOut(g, s, ChildId(g.id, n)) ensures HandedOut(g', s, ChildId(g'.id, n)) {}
  }

  lemma FlatStoreProgresses(c: Client, row: Row, g: Graph)
    requires FlatCore(c, g, row.intents) && SameFlat(row.graph, g) && MembersKept(row.graph.members, g.members)
    requires (row.graph.state.Terminal() ==> g.state.Terminal()) && (row.graph.cancelRequested ==> g.cancelRequested)
    ensures Store(c, row, g).Ok? && FlatProgressed(c, row, Store(c, row, g).value)
  {
    hide FlatCore, AdvanceSpec, FlatProgressed, FlatAdvanceOk, SameFlat, MembersKept, Merge;
    FlatAdvanceKeepsInvariant(c, g, row.intents);
    var (next, batch) := AdvanceSpec(c, g).value;
    FlatStored(c, row, g, next, batch);
  }

  lemma FlatStored(c: Client, row: Row, g: Graph, next: Graph, batch: seq<Intent>)
    requires SameFlat(row.graph, g) && MembersKept(row.graph.members, g.members)
    requires (row.graph.state.Terminal() ==> g.state.Terminal()) && (row.graph.cancelRequested ==> g.cancelRequested)
    requires FlatAdvanceOk(c, g, row.intents, Ok((next, batch)))
    ensures FlatProgressed(c, row, Row(next.(revision := row.graph.revision + 1), Merge(row.intents, batch)))
  {
    hide FlatCore, Merge, FlatLive, FlatReachable, SameFlat, MembersKept;
    var s := Merge(row.intents, batch);
    FlatRevision(c, next, row.graph.revision + 1, s);
    SameFlatTrans(row.graph, g, next);
    SameFlatTrans(row.graph, next, next.(revision := row.graph.revision + 1));
    MembersKeptTrans(row.graph.members, g.members, next.members);
    forall k | k in row.intents ensures k in s && s[k] == row.intents[k] { MergeKeeps(row.intents, batch, k); }
  }

  lemma MembersKeptTrans(a: map<Id, Completion>, b: map<Id, Completion>, d: map<Id, Completion>)
    requires MembersKept(a, b) && MembersKept(b, d)
    ensures MembersKept(a, d)
  {
  }

  lemma FlatExpected(c: Client, g: Graph, s: Intents, id: Id)
    requires FlatCore(c, g, s) && IsFlatTask(g, id)
    ensures Expected(g, id)
  {
    if IsChild(g, id) {
      var n :| 0 <= n < |g.children| && ChildId(g.id, n) == id;
      assert g.children[n].id == id;
    }
  }

  lemma CancelMark(c: Client, g: Graph, s: Intents)
    requires FlatCore(c, g, s)
    ensures FlatCore(c, g.(cancelRequested := true), s) && SameFlat(g, g.(cancelRequested := true))
  {
    MildKeepsCore(c, g, g.(cancelRequested := true), s);
  }

  lemma SameFlatMember(g: Graph, m: Completion)
    ensures SameFlat(g, WithMember(g, m))
  {
  }

  lemma FlatStepProgresses(c: Client, row: Row, e: Event)
    requires FlatReachable(c, row) && FlatLegit(row, e)
    ensures FlatProgressed(c, row, DagRuns.StepRow(c, row, e))
  {
    hide FlatCore, FlatLive, Store, HandedOut, SameFlat;
    match e
    case CancelRequested =>
      if !row.graph.state.Terminal() {
        CancelMark(c, row.graph, row.intents);
        FlatStoreProgresses(c, row, row.graph.(cancelRequested := true));
      } else {
        SameFlatRefl(row.graph);
      }
    case Completed(m) =>
      if m.id !in row.graph.members {
        FlatExpected(c, row.graph, row.intents, m.id);
        FlatRecordKeepsCore(c, row.graph, row.intents, m);
        SameFlatMember(row.graph, m);
        FlatStoreProgresses(c, row, WithMember(row.graph, m));
      } else {
        SameFlatRefl(row.graph);
      }
  }

  lemma SameFlatRefl(g: Graph)
    ensures SameFlat(g, g)
  {
  }

  lemma FlatPosition(c: Client, g0: Graph, g: Graph, s: Intents, id: Id) returns (n: nat)
    requires FlatCore(c, g, s) && SameFlat(g0, g) && IsFlatTask(g, id)
    ensures n <= |g0.signatures| && HasTask(g0, n) && TaskAt(g0, n) == id
  {
    if IsChild(g, id) {
      n :| 0 <= n < |g.children| && ChildId(g.id, n) == id;
    } else {
      n := |g.signatures|;
    }
  }

  /** A store that ends in the normal mode keeps the agreement. */
  lemma FlatStoreAgrees(c: Client, w: World, g0: Graph, row: Row, g: Graph)
    requires FlatWorldOf(c, w, g0) && FlatCore(c, g, row.intents) && (Normal(g) ==> FlatMeans(c, w, g0, g, row.intents))
    requires Store(c, row, g).Ok?
    ensures FlatAgrees(c, w, g0, Store(c, row, g).value)
  {
    hide FlatWorldOf, FlatCore, Merge, AdvanceSpec, TaskMeans, SettledMean, TasksMean;
    var (next, batch) := AdvanceSpec(c, g).value;
    if Normal(next) {
      FlatAdvanceKeepsMeaning(c, w, g0, g, row.intents);
      var s := Merge(row.intents, batch);
      var g' := next.(revision := row.graph.revision + 1);
      MergeEmpty(s);
      UnpinsMean(c, w, g0, next, g', s, []);
      SettledRevision(c, w, g0, next, row.graph.revision + 1);
    }
  }

  lemma SettledRevision(c: Client, w: World, g0: Graph, g: Graph, r: nat)
    requires SettledMean(c, w, g0, g)
    ensures SettledMean(c, w, g0, g.(revision := r))
  {
  }

  lemma FlatStepAgrees(c: Client, w: World, g0: Graph, row: Row, e: Event)
    requires FlatWorldOf(c, w, g0) && FlatReachable(c, row) && SameFlat(g0, row.graph) && FlatAgrees(c, w, g0, row) &&
             FlatAllowed(w, row, e)
    ensures FlatAgrees(c, w, g0, DagRuns.StepRow(c, row, e))
  {
    hide FlatWorldOf, FlatCore, FlatLive, Store, FlatMeans, SameFlat, HandedOut, FlatFaithful;
    match e
    case CancelRequested =>
      if !row.graph.state.Terminal() {
        CancelMark(c, row.graph, row.intents);
        FlatStoreProgresses(c, row, row.graph.(cancelRequested := true));
        FlatStoreAgrees(c, w, g0, row, row.graph.(cancelRequested := true));
      }
    case Completed(m) =>
      if m.id !in row.graph.members {
        FlatExpected(c, row.graph, row.intents, m.id);
        FlatRecordKeepsCore(c, row.graph, row.intents, m);
        if Normal(row.graph) { RecordedMeans(c, w, g0, row, m); }
        SameFlatMember(row.graph, m);
        FlatStoreProgresses(c, row, WithMember(row.graph, m));
        FlatStoreAgrees(c, w, g0, row, WithMember(row.graph, m));
      }
  }

  lemma RecordedMeans(c: Client, w: World, g0: Graph, row: Row, m: Completion)
    requires FlatCore(c, row.graph, row.intents) && SameFlat(g0, row.graph) &&
             FlatMeans(c, w, g0, row.graph, row.intents)
    requires IsFlatTask(row.graph, m.id) && FlatFaithful(w, row.graph, row.intents, m)
    ensures FlatMeans(c, w, g0, WithMember(row.graph, m), row.intents)
  {
    var n := FlatPosition(c, g0, row.graph, row.intents, m.id);
    hide FlatCore, SameFlat, SettledMean, FlatFaithful;
    assert TaskMeans(c, w, g0, row.graph, row.intents, n);
    hide TaskMeans, TasksMean;
    SettlementAgrees(c, w, g0, row.graph, row.intents, m, n);
    RecordFlatMeaning(c, w, g0, row.graph, row.intents, m, n);
  }

  // ---- main results ----

  /** Every row of every run satisfies the stored invariant, and nothing recorded or stored is lost. */
  lemma {:induction false} FlatRunsStayReachable(c: Client, w: World, row: Row, events: seq<Event>)
    requires FlatReachable(c, row) && FlatRun(c, w, row, events)
    ensures FlatProgressed(c, row, DagRuns.End(c, row, events))
    decreases |events|
  {
    hide FlatReachable, DagRuns.StepRow, FlatLegit, FlatFaithful, SameFlat;
    if events != [] {
      var next := DagRuns.StepRow(c, row, events[0]);
      FlatStepProgresses(c, row, events[0]);
      FlatRunsStayReachable(c, w, next, events[1..]);
      SameFlatTrans(row.graph, next.graph, DagRuns.End(c, row, events).graph);
    } else {
      SameFlatRefl(row.graph);
    }
  }

  lemma {:induction false} FlatRunsAgree(c: Client, w: World, g0: Graph, row: Row, events: seq<Event>)
    requires FlatWorldOf(c, w, g0) && FlatReachable(c, row) && SameFlat(g0, row.graph) && FlatAgrees(c, w, g0, row)
    requires FlatRun(c, w, row, events)
    ensures FlatAgrees(c, w, g0, DagRuns.End(c, row, events))
    decreases |events|
  {
    hide FlatReachable, DagRuns.StepRow, FlatLegit, FlatFaithful, SameFlat, FlatWorldOf, FlatAgrees;
    if events != [] {
      var next := DagRuns.StepRow(c, row, events[0]);
      FlatStepProgresses(c, row, events[0]);
      FlatStepAgrees(c, w, g0, row, events[0]);
      SameFlatTrans(g0, row.graph, next.graph);
      FlatRunsAgree(c, w, g0, next, events[1..]);
    }
  }

  // ---- the flat meaning is the canvas's ----

  lemma {:induction false} ChainMeaning(c: Client, w: World, g: Graph, n: nat)
    requires g.kind.Chain? && n <= |g.signatures|
    ensures MeanChain(c, w, g.signatures[n..], if n == 0 then None else Some(TaskVal(c, w, g, n - 1)), n) ==
            if g.signatures == [] then None else Some(TaskVal(c, w, g, |g.signatures| - 1))
    decreases |g.signatures| - n
  {
    if n < |g.signatures| {
      ChainMeaning(c, w, g, n + 1);
      assert g.signatures[n..][1..] == g.signatures[n + 1..];
    }
  }

  lemma FlatMeaningIsMeaning(c: Client, w: World, id: Id, canvas: Canvas)
    requires FlatGraph(c, id, canvas).Ok?
    ensures FlatMean(c, w, FlatGraph(c, id, canvas).value) == Mean(c, w, canvas, None, 0)
  {
    var g := FlatGraph(c, id, canvas).value;
    assert g.kind == GraphKindOf(canvas.kind) && g.signatures == canvas.signatures && g.callback == canvas.callback;
    hide FlatGraph;
    if g.kind.Chain? {
      ChainMeaning(c, w, g, 0);
      assert g.signatures[0..] == g.signatures;
    } else {
      var tasks, header := MeanTasks(c, w, canvas.signatures, None, 0), Header(c, w, g);
      forall i | 0 <= i < |tasks| ensures tasks[i] == header[i] { assert TaskInput(c, w, g, i) == None; }
      assert tasks == header;
      if g.kind.Chord? && g.callback.Some? { FlatMeanOfBarrier(c, w, g); }
    }
  }

  /** The flat engine computes the canvas's meaning, for whatever its tasks do: every settled normal
      run succeeds exactly when the meaning does, with the same output. */
  lemma FlatComputesMeaning(c: Client, run: (nat, Value) -> Outcome, id: Id, canvas: Canvas, events: seq<Event>)
    requires FlatGraph(c, id, canvas).Ok? && (forall k, a :: run(k, a).state.Terminal())
    requires CreateFlatSpec(c, FlatGraph(c, id, canvas).value).Ok?
    requires var g := FlatGraph(c, id, canvas).value;
             FlatRun(c, FlatWorld(c, run, g), CreateFlatSpec(c, g).value, events)
    ensures var g0 := FlatGraph(c, id, canvas).value;
            var g := DagRuns.End(c, CreateFlatSpec(c, g0).value, events).graph;
            Normal(g) && g.state.Terminal() ==>
              Agree(Outcome(g.state, g.output, g.failure), Mean(c, FlatWorld(c, run, g0), canvas, None, 0))
  {
    var g0 := FlatGraph(c, id, canvas).value;
    var w := FlatWorld(c, run, g0);
    FlatGraphStarts(c, id, canvas);
    assert FlatWorldOf(c, w, g0);
    FlatCreated(c, w, g0);
    var row := CreateFlatSpec(c, g0).value;
    FlatMeaningIsMeaning(c, w, id, canvas);
    assert SameFlat(g0, row.graph) by { FlatCreateIsReachable(c, g0); }
    hide FlatGraph, FlatWorld, FlatWorldOf, FlatStart, FlatReachable, CreateFlatSpec, FlatRun, DagRuns.End, Mean,
           FlatMean, SameFlat, TasksMean;
    FlatRunsAgree(c, w, g0, row, events);
  }

  lemma FlatUnsettledHasTask(c: Client, row: Row)
    requires FlatReachable(c, row) && !row.graph.state.Terminal()
    ensures exists id ::
              IsFlatTask(row.graph, id) && HandedOut(row.graph, row.intents, id) && id !in row.graph.members
  {
    var g, s := row.graph, row.intents;
    if g.callbackClaimed && BodyId(g.id) !in g.members {
      assert IsFlatTask(g, BodyId(g.id)) && HandedOut(g, s, BodyId(g.id));
    } else {
      var n :| 0 <= n < |g.children| && HandedOut(g, s, ChildId(g.id, n)) && ChildId(g.id, n) !in g.members;
      assert IsFlatTask(g, ChildId(g.id, n));
    }
  }

  /** No stuck chain, group or chord, in any mode. */
  lemma FlatUnsettledWaitsForTask(c: Client, w: World, row: Row, events: seq<Event>)
    requires FlatReachable(c, row) && FlatRun(c, w, row, events)
    ensures var last := DagRuns.End(c, row, events);
            !last.graph.state.Terminal() ==>
              exists id ::
                IsFlatTask(last.graph, id) && HandedOut(last.graph, last.intents, id) && id !in last.graph.members
  {
    FlatRunsStayReachable(c, w, row, events);
    var last := DagRuns.End(c, row, events);
    if !last.graph.state.Terminal() { FlatUnsettledHasTask(c, last); }
  }

  /** What must have succeeded before the task may be published. */
  predicate FlatPrerequisites(g: Graph, id: Id) {
    (id == BodyId(g.id) ==> forall n | 0 <= n < |g.children| :: SucceededMember(g, ChildId(g.id, n))) &&
    (g.kind.Chain? ==>
      forall n | 0 < n < |g.children| && ChildId(g.id, n) == id :: SucceededMember(g, ChildId(g.id, n - 1)))
  }

  /** Dispatch safety of the flat engines, in every mode. */
  lemma FlatDispatchSafety(c: Client, row: Row, k1: Id, k2: Id)
    requires FlatReachable(c, row) && k1 in row.intents && row.intents[k1].payload.Publish? && k2 in row.intents
    ensures row.intents[k2].payload.Publish? ==>
              row.intents[k2].payload.envelope.id == row.intents[k1].payload.envelope.id ==> k1 == k2
    ensures row.intents[k2].payload.Fail? ==> row.intents[k2].payload.envelope.id != row.intents[k1].payload.envelope.id
    ensures FlatPrerequisites(row.graph, row.intents[k1].payload.envelope.id)
  {
    var g, s := row.graph, row.intents;
    assert FlatIntentOk(g, k1, s[k1]) && FlatIntentOk(g, k2, s[k2]);
    var id := s[k1].payload.envelope.id;
    forall n | 0 <= n < |g.children| && ChildId(g.id, n) == id
      ensures g.kind.Chain? && n > 0 ==> SucceededMember(g, ChildId(g.id, n - 1))
      ensures s[k2].payload.Fail? ==> s[k2].payload.envelope.id != id
    {
      assert ChildInv(g, s, n);
    }
  }
}
