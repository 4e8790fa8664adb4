/** From the delivery protocol to the meaning of a canvas: in every run of the whole system, with
    any process stopped at any point, a workflow that settles in the normal mode has the outcome
    its canvas means, for what its tasks reported. */
module DeliveryMeaning {
  import opened Protocol
  import opened Meaning
  import opened Compiler
  import opened Records
  import opened TaskLife
  import opened WorkflowStore
  import opened Flat
  import opened DagMeaning
  import opened FlatMeaning
  import opened DagRuns
  import opened FlatRuns
  import opened Rows
  import opened RowRuns
  import opened Delivery
  import opened DeliveryFacts
  import opened DeliverySafety
  import opened DeliveryRuns
  import opened DeliveryRows
  import opened DeliveryOutcomes
  import Preservation

  // ---- one step on one row ----

  /** The row is as it was, or took one honest report or a cancellation. */
  ghost predicate Moved(c: Client, a: Row, b: Row) { b == a || exists e :: Honest(a, e) && b == StepRow(c, a, e) }

  ghost predicate MovesRow(c: Client, s: System, s': System, g: Id) {
    g in s.rows ==> g in s'.rows && Moved(c, s.rows[g], s'.rows[g])
  }

  /** A step on the workflow store: nothing else changes but what a process may acknowledge. */
  predicate GraphFrame(s: System, s': System) {
    s'.entries == s.entries && s'.sent == s.sent && s'.items == s.items &&
    forall p | p in s'.permits :: p in s.permits || p.Done?
  }

  ghost predicate GraphMove(c: Client, s: System, s': System, g: Id) { GraphFrame(s, s') && MovesRow(c, s, s', g) }

  lemma WithRowMoves(c: Client, s: System, w: Id, r: Result<Row>, p: Option<Permit>, e: Event, g: Id)
    requires w in s.rows && (r.Ok? ==> r.value == StepRow(c, s.rows[w], e)) && (p.Some? ==> p.value.Done?)
    requires r.Ok? ==> r.value == s.rows[w] || Honest(s.rows[w], e)
    ensures GraphMove(c, s, WithRow(c, s, w, r, p), g)
  {
    hide StepRow, Honest, Storable;
  }

  lemma RelayedIsTrue(s: System, x: Intent)
    requires Truthful(s) && Relaying(x) in s.permits
    ensures IntentTrue(s.rows, x)
  {
    hide EntriesTrue, TransportTrue, IntentTrue;
    assert PermitTrue(s.rows, Relaying(x));
  }

  lemma CompleteFact(s: System, x: Intent)
    requires Fact(s, x) && x.payload.Complete?
    ensures TaskOf(x.payload.completion.id) == Some(x.payload.workflow)
  {
    hide EndedWith, KnownId;
  }

  lemma CompletionMoves(c: Client, s: System, x: Intent, g: Id)
    requires Inv(c, s) && Truthful(s)
    ensures GraphMove(c, s, DoRecordCompletion(c, s, x), g)
  {
    hide Inv, Fact, LegitRow, MemberTrue, Truthful, GraphMove, WithRow, Answered, RowOk;
    SameMoves(c, s, g);
    if DoRecordCompletion(c, s, x) != s {
      var w, m := x.payload.workflow, x.payload.completion;
      RelayedFact(c, s, x);
      CompletionLegit(c, s, x);
      RelayedIsTrue(s, x);
      CompleteFact(s, x);
      StepIsRecord(c, s.rows[w], m);
      WithRowMoves(c, s, w, RecordMemberSpec(c, s.rows[w], m), Some(Done(OfIntent(x))), Completed(m), g);
    }
  }

  lemma RemovedIsRecorded(c: Client, s: System, w: Id, id: Id)
    requires Inv(c, s) && id in s.removed && TaskOf(id) == Some(w)
    ensures w in s.rows && id in s.rows[w].graph.members
  {
    assert ReleasedTask(s, id);
  }

  /** Repair records what the relay would, so its report is honest too. */
  lemma RepairReports(c: Client, s: System, w: Id, id: Id)
    requires Inv(c, s) && Truthful(s) && w in s.rows && id in s.entries && TaskOf(id) == Some(w)
    requires s.entries[id].record.state.Terminal() && id !in s.rows[w].graph.members
    ensures ReportOk(s.rows, RepairCompletion(s, s.entries[id].record))
  {
    hide Inv, RepairCompletion, ReportOk, TransportTrue, PermitsTrue;
    if id in s.removed { RemovedIsRecorded(c, s, w, id); }
    assert EntryTrue(s.rows, id, s.entries[id]);
    UnrecordedIsExact(c, s, w, id);
    var x := s.entries[id].intents[Stable(id, CompletionLabel)].intent;
    assert IntentTrue(s.rows, x);
  }

  lemma RepairMoves(c: Client, s: System, w: Id, id: Id, g: Id)
    requires Inv(c, s) && Truthful(s)
    ensures GraphMove(c, s, DoRepair(c, s, w, id), g)
  {
    hide Inv, Truthful, LegitRow, MemberTrue, Expected, RepairCompletion, VisibleOutput, GraphMove, WithRow, Answered;
    SameMoves(c, s, g);
    if DoRepair(c, s, w, id) != s {
      RepairLegit(c, s, w, id);
      var m := RepairCompletion(s, s.entries[id].record);
      if id !in s.rows[w].graph.members { RepairReports(c, s, w, id); }
      StepIsRecord(c, s.rows[w], m);
      WithRowMoves(c, s, w, RecordMemberSpec(c, s.rows[w], m), None, Completed(m), g);
    }
  }

  lemma SameMoves(c: Client, s: System, g: Id)
    ensures GraphMove(c, s, s, g)
  {
  }

  lemma CancelMoves(c: Client, s: System, w: Id, p: Option<Permit>, g: Id)
    requires w in s.rows && (p.Some? ==> p.value.Done?)
    ensures GraphMove(c, s, WithRow(c, s, w, CancelGraphSpec(c, s.rows[w]), p), g)
  {
    hide CancelGraphSpec, StepRow, WithRow, GraphMove;
    StepIsCancel(c, s.rows[w]);
    WithRowMoves(c, s, w, CancelGraphSpec(c, s.rows[w]), p, CancelRequested, g);
  }

  lemma CancelByTaskMoves(c: Client, s: System, x: Intent, g: Id)
    ensures GraphMove(c, s, DoCancelByTask(c, s, x), g)
  {
    hide CancelGraphSpec, WithRow, GraphMove;
    SameMoves(c, s, g);
    if DoCancelByTask(c, s, x) != s { CancelMoves(c, s, x.payload.workflow, Some(Done(OfIntent(x))), g); }
  }

  lemma CreationMoves(c: Client, s: System, w: Id, r: Result<Row>, p: Option<Permit>, g: Id)
    requires w !in s.rows && (p.Some? ==> p.value.Done?)
    ensures GraphMove(c, s, WithRow(c, s, w, r, p), g)
  {
    hide Storable, StepRow, Honest;
  }

  lemma CanvasMoves(c: Client, s: System, canvas: Graph, g: Id)
    ensures GraphMove(c, s, DoApplyCanvas(c, s, canvas), g)
  {
    hide CreateSpec, CreateFlatSpec, Initial, FlatStart, WithRow, GraphMove;
    SameMoves(c, s, g);
    if canvas.id !in s.rows {
      CreationMoves(c, s, canvas.id, CreateSpec(c, canvas), None, g);
      CreationMoves(c, s, canvas.id, CreateFlatSpec(c, canvas), None, g);
    }
  }

  lemma ReplacementMoves(c: Client, s: System, x: Intent, g: Id)
    ensures GraphMove(c, s, DoCreateReplacement(c, s, x), g)
  {
    hide CreateSpec, WithRow, Storable, SameReplacement, StepRow, Honest;
    if DoCreateReplacement(c, s, x) != s && x.payload.graph.id !in s.rows {
      CreationMoves(c, s, x.payload.graph.id,
        CreateSpec(c, x.payload.graph.(cancelRequested := s.entries[x.source].record.cancelRequested)),
        Some(Done(OfIntent(x))), g);
    }
  }

  lemma GraphActionMoves(c: Client, ttl: Ttl, s: System, a: Action, g: Id)
    requires Inv(c, s) && Truthful(s) && GraphAction(a)
    ensures GraphMove(c, s, Do(c, ttl, s, a), g)
  {
    hide Inv, Truthful, GraphMove;
    hide DoSubmit, DoTake, DoRelayPublish, DoRegisterAccepted, DoLease, DoFirePublish, DoRegisterFor, DoClaimFor,
           DoFinish, DoSkip, DoMark, DoRecordCompletion, DoReleasePinned, DoCreateReplacement, DoResolveTask,
           DoCancelByTask, DoApplyCanvas, DoRepair, Call, CancelGraphSpec, PreparedFor, WellFormed, OutcomeFor, Ending,
           Retrying, Yielding, WithRow, Touching;
    SameMoves(c, s, g);
    match a
    case RecordCompletion(x) => CompletionMoves(c, s, x, g);
    case Repair(w, id) => RepairMoves(c, s, w, id, g);
    case CancelByUser(w) => if w in s.rows { CancelMoves(c, s, w, None, g); }
    case CancelByTask(x) => CancelByTaskMoves(c, s, x, g);
    case CreateReplacement(x) => ReplacementMoves(c, s, x, g);
    case ApplyCanvas(canvas) => CanvasMoves(c, s, canvas, g);
  }

  /** Every action of every process moves every stored row by honest reports and cancellations only. */
  lemma ActionMoves(c: Client, ttl: Ttl, s: System, a: Action, g: Id)
    requires Inv(c, s) && Truthful(s)
    ensures MovesRow(c, s, Do(c, ttl, s, a), g)
  {
    hide Inv, Truthful, Do, MovesRow;
    if GraphAction(a) {
      GraphActionMoves(c, ttl, s, a, g);
    } else {
      OtherActionsKeepRows(c, ttl, s, a);
      SameRowsMove(c, s, Do(c, ttl, s, a), g);
    }
  }

  lemma SameRowsMove(c: Client, s: System, s': System, g: Id)
    requires s'.rows == s.rows
    ensures MovesRow(c, s, s', g)
  {
  }

  // ---- what is true stays true ----

  /** The stored intents are still there, and a normal row was normal before. */
  predicate Later(a: Row, b: Row) {
    b.graph.id == a.graph.id && (Normal(b.graph) ==> Normal(a.graph)) &&
    forall k | k in a.intents :: k in b.intents && b.intents[k] == a.intents[k]
  }

  lemma MovedLater(c: Client, a: Row, b: Row)
    requires RowOk(c, a) && Moved(c, a, b)
    ensures Later(a, b)
  {
    hide RowOk, StepRow, LegitRow, Answered;
    if b != a {
      var e :| Honest(a, e) && b == StepRow(c, a, e);
      StepKept(c, a, e);
      if Normal(b.graph) { StepExact(c, a, e); }
    }
  }

  predicate TableLater(rows: Table, rows': Table) {
    forall g | g in rows :: g in rows' && Later(rows[g], rows'[g])
  }

  lemma IntentStaysTrue(rows: Table, rows': Table, x: Intent)
    requires TableLater(rows, rows') && IntentTrue(rows, x)
    ensures IntentTrue(rows', x)
  {
  }

  lemma PermitStaysTrue(rows: Table, rows': Table, p: Permit)
    requires TableLater(rows, rows') && PermitTrue(rows, p)
    ensures PermitTrue(rows', p)
  {
    if p.Relaying? { IntentStaysTrue(rows, rows', p.x); }
    hide IntentTrue;
  }

  lemma EntryLaterTrue(rows: Table, rows': Table, id: Id, entry: Entry)
    requires TableLater(rows, rows') && EntryTrue(rows, id, entry)
    ensures EntryTrue(rows', id, entry)
  {
    forall k | k in entry.intents ensures IntentTrue(rows', entry.intents[k].intent) {
      IntentStaysTrue(rows, rows', entry.intents[k].intent);
    }
    hide IntentTrue;
  }

  lemma PublishedLasts(rows: Table, rows': Table, id: Id)
    requires TableLater(rows, rows') && Published(rows, id)
    ensures Published(rows', id)
  {
  }

  lemma TableStaysTrue(s: System, s': System)
    requires Truthful(s) && TableLater(s.rows, s'.rows) && GraphFrame(s, s')
    ensures Truthful(s')
  {
    hide TableLater, Published, PermitTrue, EntryTrue;
    forall i | 0 <= i < |s'.sent| ensures Published(s'.rows, s'.sent[i].id) {
      PublishedLasts(s.rows, s'.rows, s.sent[i].id);
    }
    forall k | k in s'.items ensures Published(s'.rows, s'.items[k].id) {
      PublishedLasts(s.rows, s'.rows, s.items[k].id);
    }
    forall p | p in s'.permits ensures PermitTrue(s'.rows, p) {
      if p.Done? { DoneIsTrue(s'.rows, p); } else { PermitStaysTrue(s.rows, s'.rows, p); }
    }
    forall id | id in s'.entries ensures EntryTrue(s'.rows, id, s'.entries[id]) {
      EntryLaterTrue(s.rows, s'.rows, id, s.entries[id]);
    }
  }

  lemma DoneIsTrue(rows: Table, p: Permit)
    requires p.Done?
    ensures PermitTrue(rows, p)
  {
  }

  lemma GraphActionStaysTrue(c: Client, ttl: Ttl, s: System, a: Action)
    requires Inv(c, s) && Truthful(s) && GraphAction(a)
    ensures Truthful(Do(c, ttl, s, a))
  {
    hide Inv, Truthful, Do, RowOk, Moved, Later, MembersTrue, Replaces, GraphFrame, Storable;
    var s' := Do(c, ttl, s, a);
    forall g | g in s.rows ensures g in s'.rows && Later(s.rows[g], s'.rows[g]) {
      GraphActionMoves(c, ttl, s, a, g);
      RowOf(c, s, g);
      MovedLater(c, s.rows[g], s'.rows[g]);
    }
    GraphActionMoves(c, ttl, s, a, Fresh(0));
    TableStaysTrue(s, s');
  }

  lemma ActionStaysTrue(c: Client, ttl: Ttl, s: System, a: Action)
    requires Inv(c, s) && Truthful(s)
    ensures Truthful(Do(c, ttl, s, a))
  {
    hide Inv, Truthful, Do;
    if GraphAction(a) {
      GraphActionStaysTrue(c, ttl, s, a);
    } else if a.EndFor? || a.RetryFor? || a.YieldFor? {
      AttemptStaysTrue(c, ttl, s, a);
    } else if a.RegisterFor? || a.ClaimFor? || a.Touch? || a.Mark? || a.ReleasePinned? || a.ResolveTask? || a.Remove? {
      TaskActionStaysTrue(c, ttl, s, a);
    } else {
      TransportActionStaysTrue(c, ttl, s, a);
    }
  }

  lemma {:induction false} RunsAreTruthful(c: Client, ttl: Ttl, actions: seq<Action>)
    ensures Truthful(Reach(c, ttl, actions))
    decreases |actions|
  {
    hide Do;
    if actions != [] {
      hide Truthful, Inv;
      var front := actions[..|actions| - 1];
      RunsAreTruthful(c, ttl, front);
      RunsKeepInvariant(c, ttl, front);
      ActionStaysTrue(c, ttl, Reach(c, ttl, front), actions[|actions| - 1]);
    }
  }

  // ---- whole runs ----

  /** The row is what an honest run makes of an earlier one. */
  ghost predicate RunsTo(c: Client, a: Row, b: Row) {
    exists events :: HonestRun(c, a, events) && b == End(c, a, events)
  }

  lemma MoveExtends(c: Client, a: Row, b: Row, d: Row)
    requires RunsTo(c, a, b) && Moved(c, b, d)
    ensures RunsTo(c, a, d)
  {
    hide HonestRun, End, StepRow, Honest;
    if d != b {
      var events :| HonestRun(c, a, events) && b == End(c, a, events);
      var e :| Honest(b, e) && d == StepRow(c, b, e);
      HonestSnoc(c, a, events, e);
    }
  }

  /** From any moment of any run on, every stored row goes through an honest run. */
  lemma {:induction false} StoredRowsRun(c: Client, ttl: Ttl, actions: seq<Action>, n: nat, g: Id)
    requires n <= |actions| && g in Reach(c, ttl, actions[..n]).rows
    ensures g in Reach(c, ttl, actions).rows &&
            RunsTo(c, Reach(c, ttl, actions[..n]).rows[g], Reach(c, ttl, actions).rows[g])
    decreases |actions|
  {
    hide Do, RunsTo, Moved, Truthful, Inv;
    if n == |actions| {
      assert actions[..n] == actions;
      RunsToItself(c, Reach(c, ttl, actions).rows[g]);
    } else {
      var front := actions[..|actions| - 1];
      assert front[..n] == actions[..n];
      StoredRowsRun(c, ttl, front, n, g);
      RunsKeepInvariant(c, ttl, front);
      RunsAreTruthful(c, ttl, front);
      ActionMoves(c, ttl, Reach(c, ttl, front), actions[|actions| - 1], g);
      MoveExtends(c, Reach(c, ttl, actions[..n]).rows[g], Reach(c, ttl, front).rows[g], Reach(c, ttl, actions).rows[g]);
    }
  }

  lemma RunsToItself(c: Client, row: Row)
    ensures RunsTo(c, row, row)
  {
    assert HonestRun(c, row, []) && row == End(c, row, []);
  }

  // ---- where a row comes from ----

  /** A first row: of a compiled graph, perhaps already cancelled, or of a flat canvas. */
  ghost predicate FirstRow(c: Client, row: Row) {
    exists g0: Graph ::
      if g0.kind.Dag? then Initial(g0) && CreateSpec(c, g0) == Ok(row)
      else FlatStart(c, g0) && CreateFlatSpec(c, g0) == Ok(row)
  }

  /** A row that was not there before is a first row. */
  ghost predicate NewIsFirst(c: Client, s: System, s': System, g: Id) {
    g !in s.rows && g in s'.rows ==> FirstRow(c, s'.rows[g])
  }

  lemma SameKeysNew(c: Client, s: System, s': System, g: Id)
    requires s'.rows.Keys == s.rows.Keys
    ensures NewIsFirst(c, s, s', g)
  {
  }

  lemma NewReplacementIsFirst(c: Client, s: System, x: Intent, g: Id)
    requires Inv(c, s)
    ensures NewIsFirst(c, s, DoCreateReplacement(c, s, x), g)
  {
    hide Inv, Fact, CreateSpec, Initial, Storable, SameReplacement, Oversized;
    if g !in s.rows && g in DoCreateReplacement(c, s, x).rows {
      RelayedFact(c, s, x);
      ReplaceFact(s, x);
      var g0, cancel := x.payload.graph, s.entries[x.source].record.cancelRequested;
      if Oversized(g0) {
        OversizedRefused(c, g0, cancel);
      } else {
        InitialCanceled(g0, cancel);
        assert g0.(cancelRequested := cancel).kind.Dag? by { InitialIsDag(g0); }
      }
    }
  }

  lemma InitialIsDag(g: Graph)
    requires Initial(g)
    ensures g.kind.Dag?
  {
  }

  lemma NewCanvasIsFirst(c: Client, s: System, g0: Graph, g: Id)
    ensures NewIsFirst(c, s, DoApplyCanvas(c, s, g0), g)
    ensures g !in s.rows && g in DoApplyCanvas(c, s, g0).rows ==>
              g0.id == g && (if g0.kind.Dag? then Initial(g0) else FlatStart(c, g0)) &&
              DoApplyCanvas(c, s, g0).rows[g] ==
                (if g0.kind.Dag? then CreateSpec(c, g0) else CreateFlatSpec(c, g0)).value
  {
    hide CreateSpec, CreateFlatSpec, Initial, FlatStart, Storable;
  }

  lemma ReportAddsNone(c: Client, s: System, x: Intent)
    ensures DoRecordCompletion(c, s, x).rows.Keys == s.rows.Keys
    ensures DoCancelByTask(c, s, x).rows.Keys == s.rows.Keys
  {
    hide RecordMemberSpec, CancelGraphSpec, Storable;
  }

  lemma RepairAddsNone(c: Client, s: System, w: Id, id: Id)
    ensures DoRepair(c, s, w, id).rows.Keys == s.rows.Keys
    ensures w in s.rows ==> WithRow(c, s, w, CancelGraphSpec(c, s.rows[w]), None).rows.Keys == s.rows.Keys
  {
    hide RecordMemberSpec, CancelGraphSpec, Storable, Expected, RepairCompletion, VisibleOutput;
  }

  lemma NewRowIsFirst(c: Client, ttl: Ttl, s: System, a: Action, g: Id)
    requires Inv(c, s)
    ensures NewIsFirst(c, s, Do(c, ttl, s, a), g)
  {
    hide Inv, NewIsFirst;
    if !GraphAction(a) {
      hide Do;
      OtherActionsKeepRows(c, ttl, s, a);
      SameKeysNew(c, s, Do(c, ttl, s, a), g);
    } else {
      GraphActionIsFirst(c, ttl, s, a, g);
    }
  }

  lemma GraphActionIsFirst(c: Client, ttl: Ttl, s: System, a: Action, g: Id)
    requires Inv(c, s) && GraphAction(a)
    ensures NewIsFirst(c, s, Do(c, ttl, s, a), g)
  {
    hide Inv, NewIsFirst;
    hide DoSubmit, DoTake, DoRelayPublish, DoRegisterAccepted, DoLease, DoFirePublish, DoRegisterFor, DoClaimFor,
           DoFinish, DoSkip, DoMark, DoRecordCompletion, DoReleasePinned, DoCreateReplacement, DoResolveTask,
           DoCancelByTask, DoApplyCanvas, DoRepair, Call, CancelGraphSpec, PreparedFor, WellFormed, OutcomeFor, Ending,
           Retrying, Yielding, WithRow, Touching;
    SameKeysNew(c, s, s, g);
    match a
    case CreateReplacement(x) => NewReplacementIsFirst(c, s, x, g);
    case ApplyCanvas(g0) => NewCanvasIsFirst(c, s, g0, g);
    case RecordCompletion(x) => ReportAddsNone(c, s, x); SameKeysNew(c, s, DoRecordCompletion(c, s, x), g);
    case CancelByTask(x) => ReportAddsNone(c, s, x); SameKeysNew(c, s, DoCancelByTask(c, s, x), g);
    case Repair(w, id) => RepairAddsNone(c, s, w, id); SameKeysNew(c, s, DoRepair(c, s, w, id), g);
    case CancelByUser(w) =>
      if w in s.rows {
        RepairAddsNone(c, s, w, w);
        SameKeysNew(c, s, WithRow(c, s, w, CancelGraphSpec(c, s.rows[w]), None), g);
      }
  }

  /** Every stored row, in every state of every run, is what an honest run makes of a first row. */
  lemma {:induction false} StoredRowIsRun(c: Client, ttl: Ttl, actions: seq<Action>, g: Id)
    requires g in Reach(c, ttl, actions).rows
    ensures exists first :: FirstRow(c, first) && RunsTo(c, first, Reach(c, ttl, actions).rows[g])
    decreases |actions|
  {
    hide Do, FirstRow, RunsTo, Moved, Truthful, Inv;
    if actions != [] {
      var front := actions[..|actions| - 1];
      RunsKeepInvariant(c, ttl, front);
      if g in Reach(c, ttl, front).rows {
        StoredRowIsRun(c, ttl, front, g);
        var first :| FirstRow(c, first) && RunsTo(c, first, Reach(c, ttl, front).rows[g]);
        RunsAreTruthful(c, ttl, front);
        ActionMoves(c, ttl, Reach(c, ttl, front), actions[|actions| - 1], g);
        MoveExtends(c, first, Reach(c, ttl, front).rows[g], Reach(c, ttl, actions).rows[g]);
      } else {
        NewRowIsFirst(c, ttl, Reach(c, ttl, front), actions[|actions| - 1], g);
        RunsToItself(c, Reach(c, ttl, actions).rows[g]);
      }
    }
  }

  // ---- the meaning of what is stored ----

  /** The `n`-th action stores the graph under an identity that was free. */
  predicate Applies(c: Client, ttl: Ttl, actions: seq<Action>, n: nat, g0: Graph) {
    n < |actions| && actions[n] == ApplyCanvas(g0) && g0.id !in Reach(c, ttl, actions[..n]).rows &&
    g0.id in Reach(c, ttl, actions[..n + 1]).rows
  }

  lemma AppliedRuns(c: Client, ttl: Ttl, actions: seq<Action>, n: nat, g0: Graph)
    requires Applies(c, ttl, actions, n, g0)
    ensures var first := if g0.kind.Dag? then CreateSpec(c, g0) else CreateFlatSpec(c, g0);
            g0.id in Reach(c, ttl, actions).rows && first.Ok? && RowOk(c, first.value) &&
            RunsTo(c, first.value, Reach(c, ttl, actions).rows[g0.id])
    ensures if g0.kind.Dag? then Initial(g0) else FlatStart(c, g0)
  {
    hide RunsTo, Inv, CreateSpec, CreateFlatSpec, Initial, FlatStart, Storable, FirstRow, RowOk;
    StoredRowsRun(c, ttl, actions, n + 1, g0.id);
    assert actions[..n + 1][..n] == actions[..n];
    var s := Reach(c, ttl, actions[..n]);
    NewCanvasIsFirst(c, s, g0, g0.id);
    RunsKeepInvariant(c, ttl, actions[..n + 1]);
    RowOf(c, Reach(c, ttl, actions[..n + 1]), g0.id);
  }

  /** End to end. In every run of the whole system, whatever is delivered twice, dies, is retried,
      replaced or repaired: a compiled canvas that settled and was neither cancelled nor aborted has
      the state, output and failure the canvas means, for what its tasks reported. */
  lemma AppliedCanvasHasMeaning(c: Client, ttl: Ttl, actions: seq<Action>, n: nat, id: Id, canvas: Canvas, w: World)
    requires CompileGraph(c, id, canvas).Ok? && Applies(c, ttl, actions, n, CompileGraph(c, id, canvas).value)
    requires WorldOf(c, w, CompileGraph(c, id, canvas).value)
    ensures id in Reach(c, ttl, actions).rows
    ensures var row := Reach(c, ttl, actions).rows[id];
            Normal(row.graph) && row.graph.state.Terminal() && Told(w, row) ==>
              Outcome(row.graph.state, row.graph.output, row.graph.failure) == Mean(c, w, canvas, None, 0)
  {
    var g0 := CompileGraph(c, id, canvas).value;
    CompiledIs(c, id, canvas);
    hide CompileGraph, Applies, Reach, RowOk, CreateSpec, WorldOf, Told, Mean, HonestRun, End;
    AppliedRuns(c, ttl, actions, n, g0);
    InitialSize(g0);
    var first, row := CreateSpec(c, g0).value, Reach(c, ttl, actions).rows[id];
    var events :| HonestRun(c, first, events) && row == End(c, first, events);
    if Normal(row.graph) && Told(w, row) {
      HonestRunIsRun(c, w, first, events);
      FirstKeepsKind(c, g0);
      WorkflowComputesMeaning(c, w, id, canvas, events);
    }
  }

  lemma CompiledIs(c: Client, id: Id, canvas: Canvas)
    requires CompileGraph(c, id, canvas).Ok?
    ensures var g0 := CompileGraph(c, id, canvas).value; g0.id == id && g0.kind.Dag?
  {
    hide CompileSpec;
    var w := World((k, a) => Failing(WorkflowInput), (k, a) => false, false);
    Preservation.CompilationPreservesMeaning(c, w, id, canvas);
  }

  lemma InitialSize(g: Graph)
    requires Initial(g)
    ensures |g.plan| <= 2000
  {
  }

  lemma FirstKeepsKind(c: Client, g0: Graph)
    requires Initial(g0) && CreateSpec(c, g0).Ok?
    ensures CreateSpec(c, g0).value.graph.kind.Dag?
  {
    CreateIsReachable(c, g0);
  }

  /** The same for the flat engines: success or not, and the output, are what the canvas means. */
  lemma AppliedFlatHasMeaning(c: Client, ttl: Ttl, actions: seq<Action>, n: nat, id: Id, canvas: Canvas,
      run: (nat, Value) -> Outcome)
    requires FlatGraph(c, id, canvas).Ok? && Applies(c, ttl, actions, n, FlatGraph(c, id, canvas).value)
    requires forall k, a :: run(k, a).state.Terminal()
    ensures id in Reach(c, ttl, actions).rows
    ensures var row, w := Reach(c, ttl, actions).rows[id], FlatWorld(c, run, FlatGraph(c, id, canvas).value);
            Normal(row.graph) && row.graph.state.Terminal() && Told(w, row) ==>
              Agree(Outcome(row.graph.state, row.graph.output, row.graph.failure), Mean(c, w, canvas, None, 0))
  {
    var g0 := FlatGraph(c, id, canvas).value;
    FlatGraphStarts(c, id, canvas);
    FlatKind(c, id, canvas);
    hide FlatGraph, Applies, Reach, RowOk, CreateFlatSpec, Told, Mean, HonestRun, End, FlatStart, FlatWorld;
    AppliedRuns(c, ttl, actions, n, g0);
    var w, first, row := FlatWorld(c, run, g0), CreateFlatSpec(c, g0).value, Reach(c, ttl, actions).rows[id];
    var events :| HonestRun(c, first, events) && row == End(c, first, events);
    if Normal(row.graph) && Told(w, row) {
      HonestRunIsRun(c, w, first, events);
      FirstKeepsFlat(c, g0);
      FlatComputesMeaning(c, run, id, canvas, events);
    }
  }

  lemma FlatKind(c: Client, id: Id, canvas: Canvas)
    requires FlatGraph(c, id, canvas).Ok?
    ensures var g0 := FlatGraph(c, id, canvas).value; g0.id == id && !g0.kind.Dag?
  {
    hide FlatChildren;
  }

  lemma FirstKeepsFlat(c: Client, g0: Graph)
    requires FlatStart(c, g0) && CreateFlatSpec(c, g0).Ok?
    ensures !CreateFlatSpec(c, g0).value.graph.kind.Dag?
  {
    FlatCreateIsReachable(c, g0);
    hide FlatReachable, CreateFlatSpec;
  }
}
