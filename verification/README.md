# A verified model of gogo's durable task and workflow engine

This project models the `async` package of gogo and its Redis adapter in Dafny and proves properties of
that model. `dafny verify dfyconfig.toml` checks all of it.

The package runs background tasks that survive crashes. A *task* is an envelope in a broker plus a
*record* in the result store; a record is written by revision compare-and-set and guarded by leases and
fences. A *workflow* is a canvas of tasks (chain, group, chord, sequence, parallel, nested) stored as a
*graph* in the workflow store; `advance` runs again after every completion and decides what to hand out.
Records and graphs store *intents* (publish, fail, cancel, complete, unpin, replace, ...) together with
the write that makes them necessary; a relay delivers each to its target and only then marks it.
A task may *yield* to a replacement workflow. *Beat* emits periodic occurrences.

## How the model is built

- **The workflow compiler and its meaning.** `Compiler` is `canvasCompiler` with its fields and loops.
  `Meaning` gives a canvas a direct recursive meaning, without plans, nodes or completions.
  `Preservation` proves that whatever compiles means what the canvas means.
- **The workflow engines.** `Nested` and `Engine` are `advanceNested`, the flat chain, group and chord
  machines, the cancelled and budget-aborted modes and `advance`; each loop is a method proved against
  a function. `WorkflowStore` is the store with its retry loops: between two calls of one client any
  number of other clients may commit. `DagInvariant`, `DagAdvance`, `DagMeaning` and `DagRuns` (and the
  `Flat...` modules for the older machines) carry invariants and meaning over whole runs, in which
  completions arrive in any order, repeatedly, with cancellations at any point.
- **The task record.** `Records` is `state.go`. `TaskLife` turns every operation of the result store
  into one step on one entry and proves what holds over a whole life of a record. `ResultStore` is the
  store itself, with its indexes and retry loops, and every call that succeeds is shown to commit one
  such step atomically, provided it does not take so long that the record it read may have been deleted
  meanwhile.
- **The delivery protocol.** `Delivery` puts both stores, the broker, the delay store, workers, relays,
  dispatchers, clients, repair and cleanup into one step relation, one store call at a time. What a
  process has learnt from a call is a permit that may be used later or never, so every process may die
  between any two calls. `DeliveryFacts` to `DeliveryTheorems` prove one invariant of all runs and read
  the results off it. `DeliveryProgress` shows that an unsettled workflow always has work to pick up.
  `RowRuns`, `DeliveryOutcomes` and `DeliveryMeaning` carry the meaning theorems over to the whole system.
- **Examples.** `EngineExample`, `PinExample`, `RepairExample` and `ReuseExample` are inputs on which a
  natural property fails; `SmallPlans` and `LimitedClient` serve them.
- **The rest.** `Repair`, `Replacement`, `Beat`, `Cron`, `Inventory`, `Autoscale` and `Counter`.

Modelling choices: a stored identity is a datatype, so `StableID` is injective by construction; a
digest is the envelope without its ETA and retry count; JSON values are a small datatype; the registry,
`validate`, `bind`, envelope validation and encoded sizes are function-valued fields of `Client`, and
every theorem holds for all of them; one Redis script is one atomic step; server time never goes back.
Where a size limit decides a branch, the limit is the source's constant.

Six facts of the code shape the statements.

- `compile` can return a plan slightly above 2000 nodes, which `advance` then refuses, so results about
  runs speak of plans of at most 2000 nodes, and an oversized replacement is never created
  (`Replacement.PreparedIsPrepared`, `DeliverySafety.OversizedRefused`).
- The two workflow engines do not always agree. The flat chord prepares its body before it sets the
  body's workflow links, the compiled one validates it with them, and validation bounds the encoded
  envelope; the flat chain validates an immutable task again, the compiled one does not. `Engines` gives
  the exact conditions and `EngineExample` an input.
- A DAG that was cancelled may be settled while tasks are still out. If such a late report exceeds the
  byte budget, its task is not released in that step, contrary to what pin completeness would ask.
  `Pins.PinCompleteness` gives the exact condition and `PinExample` a run. The example lets one output
  exceed 8 MiB; with outputs of at most 256 KiB it takes more than thirty of them.
- Not every stored graph passes `repairGraph`. A child that is valid when it is prepared may exceed the
  envelope limit once its links are set, and is stored without a second validation. `Repair.StoredGraphsPass`
  gives the exact condition and `RepairExample` an input.
- `ApplyTransition` checks the next envelope of a retry only; a terminal transition that carries one stores
  it unchecked (`TaskLife.IdentityKept` gives the exact condition). No caller does that.
- The compare-and-set script compares revisions, and a task that is registered again after its record was
  deleted starts at revision 1. A call writes over the very record it read as long as that record cannot
  have been deleted: until the tombstone of a record that had ended, and for a record that had not, for the
  tombstone time (at least seven days) less the time another client may spend between reading the server
  time and running its script. `ReuseExample` shows a write that comes at the instant the tombstone runs out.

## Model

| member | source | states |
|---|---|---|
| `Compiler.CanvasCompiler.constructor` | async/nested.go:33-37 | a compiler starts with the given graph and scope latch |
| `Compiler.CanvasCompiler.Task` | async/nested.go:147-183 | appends one prepared child and its plan node, or fails with the source's error: unknown task, wrong input type, mixed scopes, 1000 tasks |
| `Compiler.CanvasCompiler.Collect` | async/nested.go:185-209 | appends one barrier over the given values; its type is a list only when all values have one type |
| `Compiler.CanvasCompiler.TaskList` | async/nested.go:96-103 | compiles a list of signatures side by side, all on the same input, in order |
| `Compiler.CanvasCompiler.Compile` | async/nested.go:66-145 | the whole recursive compiler, every canvas kind and every error, is the specification function the meaning theorem is about |
| `Compiler.CanvasCompiler.Last` | async/nested.go:128-131 | an empty chain or sequence still has a value: an empty barrier |
| `Compiler.CanvasCompiler.Sequence` | async/nested.go:119-132 | steps are threaded, each on the value of the one before |
| `Compiler.CanvasCompiler.Parallel` | async/nested.go:133-141 | steps side by side on one input, closed by a barrier in declaration order |
| `Preservation.CompileSound` | async/nested.go:66-209 | main induction: for every canvas, input and world, the compiled root value is the canvas's meaning, the plan stays topologically ordered with distinct ids, every new node feeds the root, one task per signature |
| `Preservation.CompilationPreservesMeaning` | async/nested.go:39-64 | a compiled graph is well formed, every node is an ancestor of the root, and the root denotes the canvas's direct recursive meaning |
| `Preservation.DenotePrefix` | async/nested.go:66-209 | appending nodes never changes what earlier nodes mean |
| `Plans.RootClosure` | async/nested.go:185-209 | a set of ids holding the root and the prerequisites of its elements holds every node, so a finished root means a finished plan |
| `Nested.NodeInputs` | async/nested.go:249-270 | the scan of one node's prerequisites finds readiness, failure and the dependency outputs in order |
| `Nested.IndexChildren` | async/nested.go:218-223 | the child index finds each child, and the byte count is the sum of argument sizes |
| `Nested.VisitNode` | async/nested.go:245-325 | one visit: skip, record a barrier, hand out, refuse or give up on the byte budget, as the step function says |
| `Nested.SweepPlan` | async/nested.go:242-329 | one turn visits the whole plan in order and reports progress |
| `Nested.CancelTasks` | async/nested.go:225-241 | every unrecorded task gets its cancellation intent, and is marked |
| `Nested.AdvanceNested` | async/nested.go:211-346 | the DAG interpreter with its turn loop is the specification function of the run theorems |
| `DagAdvance.VisitSettles` | async/nested.go:242-329 | a visit settles its node and unsettles no earlier one, because prerequisites come first |
| `DagAdvance.OneSweepSuffices` | async/nested.go:242-329 | the turn bound always reaches the fixpoint, and a stored plan fails only on the byte budget |
| `Engine.Barrier` | async/canvas.go:276-287 | the loop over the children finds whether any is missing, whether any failed, and the outputs in declaration order |
| `Engine.RunBarrier` | async/canvas.go:266-318 | the group and chord machines, including the chord body and its refused input |
| `Engine.AdvanceCanceled` | async/canvas_cancel.go:34-61 | a cancelled flat graph waits for every child and a claimed body, then is revoked and releases its members |
| `Engine.AbortDag` | async/canvas_limits.go:59-77 | every task not yet handed out gets one failure, and the loop knows whether all tasks have reported |
| `Engine.AbortFlat` | async/canvas_limits.go:78-93 | the same for the flat machines |
| `Engine.AdvanceAborted` | async/canvas_limits.go:37-100 | the aborted mode clears outputs, keeps real outcomes and fails once all tasks have reported |
| `Engine.Advance` | async/canvas.go:182-203 | the mode switch: a stored abort, an advance over budget, or the ordinary result, with the report to a replaced task added |
| `IntentHash.MergeKeeps` | async/redis/workflows.go:61-63 | a stored intent is never overwritten |
| `IntentHash.MergeOrigin` | async/redis/workflows.go:61-63 | every new intent comes from the batch |
| `IntentHash.MergeHas` | async/redis/workflows.go:61-63 | every identity of the batch is stored afterwards |
| `WorkflowStore.Workflows.constructor` | async/redis/workflows.go:18-22 | a new store is empty |
| `WorkflowStore.Workflows.Write` | async/redis/workflows.go:46-102 | refuses a batch of another source or with a repeated intent and a graph or batch above 8 MiB; otherwise writes graph and new intents together, exactly when the stored revision is the expected one |
| `WorkflowStore.Workflows.CreateGraph` | async/redis/workflows.go:103-108 | stores a first revision once, if the write is acceptable, and refuses anything else unchanged |
| `WorkflowStore.Workflows.RecordMember` | async/redis/workflows.go:109-142 | success means the completion took effect atomically on the row of that moment, whatever other clients did, or was there already; failure writes nothing |
| `WorkflowStore.Workflows.CancelGraph` | async/redis/workflows.go:177-206 | the same for a cancellation, and only for the graph's own scope |
| `DagInvariant.VisitKeepsCore` | async/nested.go:242-329 | a visit keeps the graph and intent invariant, and can fail only on the byte budget |
| `DagAdvance.AdvanceKeepsInvariant` | async/canvas.go:182-203 | advancing a stored DAG never fails, keeps the invariant in every mode and leaves no stuck graph |
| `DagBatches.AdvanceBatchAcceptable` | async/redis/workflows.go:66-102 | every batch an advance of a stored DAG emits belongs to its graph and names no intent twice, so the store does not refuse it for that |
| `FlatBatches.FlatBatchAcceptable` | async/redis/workflows.go:66-80 | the same for chains, groups and chords in every mode |
| `DagMeaning.DecideIsAdmit` | async/nested.go:287-315 | the interpreter's decision about a task (bind, validate, admit) is the meaning's |
| `DagMeaning.CollectIsVal` | async/nested.go:271-282 | a barrier records exactly its node's meaning |
| `DagMeaning.AdvanceKeepsMeaning` | async/nested.go:211-346 | an advance that stays normal keeps members, intents and settlement in agreement with the meaning |
| `DagRuns.CreateIsReachable` | async/replacement.go:120-149 | the first row of a graph, even of an already cancelled replacement, is stored and satisfies the invariant |
| `DagRuns.CompiledIsInitial` | async/nested.go:39-64 | a compiled graph of at most 2000 nodes is a legal start of a run |
| `DagRuns.RunsStayReachable` | async/redis/workflows.go:109-206 | every row of every run satisfies the invariant; members, intents, cancellation and settlement are never taken back |
| `DagRuns.WorkflowComputesMeaning` | async/nested.go:211-346 | semantics preservation: for every canvas, world and order of completions with duplicates, a settled graph that was neither cancelled nor aborted has exactly the state, output and failure of the canvas's meaning |
| `DagRuns.UnsettledWaitsForTask` | async/nested.go:242-346 | no stuck workflow: in every reachable unsettled DAG, in any mode, a handed-out task has no recorded member |
| `DagRuns.DispatchSafety` | async/nested.go:225-325 | per task at most one stored intent publishes it, a task failed before dispatch is never published, and a publish needs all prerequisites recorded as succeeded |
| `Flat.ApplyFlat` | async/canvas.go:108-177 | the first graph of a chain, group or chord, or the source's error |
| `FlatAdvance.FlatAdvanceKeepsInvariant` | async/canvas.go:205-319 | advancing a stored flat graph never fails, keeps the invariant in every mode and leaves no stuck graph |
| `FlatMeaning.FlatAdvanceKeepsMeaning` | async/canvas.go:205-319 | a flat advance that stays normal keeps everything stored in agreement with the meaning |
| `FlatMeaning.StartChildAdmission` | async/canvas.go:241-263 | the chain's checks decide exactly as the meaning's admission |
| `FlatMeaning.BarrierMeans` | async/canvas.go:276-298 | a fully recorded header succeeds, and with the same list, exactly when the meaning's barrier does |
| `FlatRuns.FlatCreateIsReachable` | async/canvas.go:108-177 | the first row of a flat graph satisfies the invariant, also for empty canvases |
| `FlatRuns.FlatRunsStayReachable` | async/canvas.go:205-319 | every row of every flat run satisfies the invariant, and nothing is taken back |
| `FlatRuns.FlatComputesMeaning` | async/canvas.go:205-319 | whatever the tasks do, a settled normal flat run succeeds exactly when the canvas's meaning does, with the same output |
| `FlatRuns.FlatUnsettledWaitsForTask` | async/canvas_cancel.go:34-61 | no stuck chain, group or chord, in any mode |
| `FlatRuns.FlatDispatchSafety` | async/canvas.go:224-317 | dispatch safety of the flat machines, in every mode |
| `Engines.EnginesAgree` | async/canvas.go:205-319 | for a canvas both engines run, with the same task behaviour and any two orders of completions, settled normal runs of the flat machine and of the compiled DAG both succeed with the same output or both fail to succeed, if and only if neither meaning is a success or the two engines decide alike on every task's arguments |
| `Engines.GroupsAgree` | async/canvas.go:276-298 | groups always agree |
| `Engines.ChainsAgree` | async/canvas.go:228-264 | chains agree for every client whose validation sees of an envelope's links only whether they are there, when immutable tasks after the first are valid with their links |
| `Engines.ChordsAgree` | async/canvas.go:299-316 | chords agree if and only if the body, with the one value its header combines to, does not succeed or is let through alike by the flat engine, which prepares it without links, and the compiled one, which validates it with them |
| `EngineExample.EnginesCanDiffer` | async/canvas.go:305-316 | a chord and a client with an envelope limit for which the flat engine publishes the body and succeeds, and the DAG refuses its input and fails |
| `Pins.UnpinNeedsSettledGraph` | async/canvas_cancel.go:9-22 | an unpin intent is stored only for a recorded task of a settled graph |
| `Pins.PinCompleteness` | async/canvas.go:188-208 | after an effective completion every recorded task of a settled DAG has its unpin intent if and only if this was not a late abort: over budget, already settled, and a task still out |
| `Pins.CancelReleases` | async/redis/workflows.go:177-206 | a cancellation that settles a DAG releases everything it recorded |
| `Pins.CreatedComplete` | async/replacement.go:120-149 | a new DAG, settled at once or not, is complete |
| `Pins.PinsOverRuns` | async/canvas.go:182-208 | over any run, a DAG is complete if and only if the last step that took effect was not a late abort |
| `Pins.AllReportedReleasesAll` | async/canvas_limits.go:94-99 | nothing stays pinned for good: with the last report everything is released |
| `Pins.CompletionsAreBounded` | async/redis/workflows.go:109-142 | at most one effective completion per task over any run |
| `Pins.EnoughReportsSettle` | async/nested.go:330-344 | a run in which every outstanding task reported has settled the DAG, in whatever mode |
| `PinExample.PinCompletenessCanFail` | async/canvas.go:189-202 | a compiled chain of three tasks, cancelled, whose run through rows the store accepts ends in a step that leaves a recorded task unreleased |
| `FlatPins.FlatPinCompleteness` | async/canvas.go:216-223 | over every run in every mode, a settled chain, group or chord has heard from every task it handed out and has released all it recorded |
| `FlatPins.FlatPinsFromStart` | async/canvas.go:108-177 | in particular every run of a chain, group or chord from the row that ApplyCanvas stores |
| `TaskLife.LifeLasts` | async/state.go:101-139 | outcome permanence: once terminal, state and failure never change and the output is only kept or, unpinned, erased; fence, revision, retries, cancel mark and replay bound only grow |
| `TaskLife.IdentityKept` | async/state.go:114-132 | a transition keeps the task's digest and counts its retries right if and only if it carries no unchecked next envelope, or one that agrees |
| `TaskLife.UncheckedNextIsStored` | async/state.go:129-132 | an input for which it does not |
| `TaskLife.AcquireStep` | async/state.go:31-61 | an acquired claim raises the fence by one, takes the lease for its owner, and only after the stored lease ran out |
| `TaskLife.FencesGrow` | async/state.go:31-68 | in one life every acquired claim has a larger fence than all earlier ones, and an earlier (owner, fence) pair never holds the task again |
| `TaskLife.StaleFenceNeverCommits` | async/redis/results.go:225-311 | after a newer claim no renewal, transition or progress with an older fence ever commits |
| `TaskLife.RetryAccounting` | async/state.go:114-132 | between any two moments the retry count rose by exactly the number of committed retries |
| `TaskLife.RetriesBounded` | async/protocol.go:84-117 | the count never exceeds the limit when one is set, the limit never changes, and nesting depth never exceeds 16 |
| `TaskLife.ReplayBoundsHistory` | async/state.go:89-136 | ReplayUntil bounds every ETA and expiry the record ever held |
| `TaskLife.YieldedStaysYielded` | async/state.go:77-97 | a yielded record never regains an owner, lease or fence, keeps its one replacement, and ends at most once |
| `TaskLife.YieldedEndsByResolving` | async/state.go:143-151 | only resolving its replacement ends a yielded task, as revoked when a cancel is stored |
| `TaskLife.StoredCancelRevokes` | async/state.go:143-151 | a cancel stored before a yielded task ended forces the revoked state at every later moment |
| `TaskLife.IntentsLast` | async/redis/results.go:126-128 | stored intents are never changed, and delivered is never undone while the record exists |
| `TaskLife.MarkNeedsLatestClaim` | async/redis/results.go:523-530 | only the latest claimant of an intent marks it delivered |
| `TaskLife.DeletionIsSafe` | async/redis/reconcile.go:30-48 | a record disappears only when terminal, unpinned, past its tombstone and with every intent delivered; the tombstone lies beyond every ETA and expiry it ever held |
| `ResultStore.Results.constructor` | async/redis/results.go:21-27 | a new store is empty and its indexes agree |
| `ResultStore.CommitEvolves` | async/redis/results.go:102-130 | every operation of the store, deletion included, is one of the things other clients are allowed to do between a call's read and its write |
| `ResultStore.Results.StoreIntents` | async/redis/results.go:119-128 | an existing identity is left alone, a new one is stored and indexed as pending |
| `ResultStore.Results.RecordCas` | async/redis/results.go:102-130 | record, inventory, intents and pending index change in one step, under the revision, lease and mode checks; the indexes hold exactly the undelivered intents and the existing records |
| `ResultStore.Results.TryWrite` | async/redis/results.go:132-173 | other clients may commit, delete and register again; when the script succeeds before the record that was read may have been deleted, the record it replaces is that record |
| `ReuseExample.LateForgetRewrites` | async/redis/results.go:381-400 | an input for which it is not: at the instant the tombstone runs out, a delayed Forget puts the outcome of a deleted life over the one stored since |
| `ResultStore.Results.IntentClaim` | async/redis/results.go:492-503 | claiming an intent raises its fence, and leaves the pending index exact |
| `ResultStore.Results.IntentMark` | async/redis/results.go:523-530 | marking needs the current fence and owner, and removes exactly that pending entry |
| `ResultStore.Results.DeleteRecord` | async/redis/reconcile.go:30-48 | cleanup deletes if and only if the record is terminal, unpinned, past its tombstone and has no undelivered intent, and drops it from the inventory |
| `ResultStore.Results.Register` | async/redis/results.go:174-194 | registering twice with one digest is one record; another digest conflicts |
| `ResultStore.Results.Claim` | async/redis/results.go:195-224 | an acquired claim, if prompt, committed on the entry of its moment; otherwise nothing was written and the answer holds of that entry |
| `ResultStore.Results.Renew` | async/redis/results.go:225-248 | a prompt renewal commits only for the pair that holds the lease |
| `ResultStore.Results.RecordProgress` | async/redis/results.go:285-311 | prompt progress of at most 16 KiB commits only under the live lease |
| `ResultStore.Results.Transition` | async/redis/results.go:249-284 | outcome, retry and yield commit together with their intents, or not at all, under the key of the record they make; without an unchecked next envelope a prompt one is one step of the task's own entry |
| `ResultStore.Results.RequestCancel` | async/redis/results.go:312-334 | the cancel mark and the cancellation of a replacement commit together, in the task's scope only, on the record that was read if prompt |
| `ResultStore.Results.ResolveReplacement` | async/redis/results.go:336-380 | if prompt, the result of `finalize` on the very record it replaces commits once; a record that ended already is left alone |
| `ResultStore.Results.UpdateTerminal` | async/redis/results.go:381-421 | Forget and ReleasePin commit only on terminal records, Forget only on unpinned ones, and before its tombstone runs out on the very record that was read |
| `Rows.RowSteps` | async/redis/workflows.go:109-206 | a legal completion or cancellation keeps any row, DAG or flat, legal and only adds to it |
| `RowMembers.StepRecordsOnly` | async/redis/workflows.go:118-135 | a step records at most one task, the one that reports, as it reports |
| `DeliveryFacts.FactLasts` | async/canvas.go:340-439 | what a stored intent says about the system stays true in every later state |
| `DeliverySafety.OversizedRefused` | async/nested.go:211-217 | a plan above 2000 nodes is refused when its graph is created |
| `DeliveryRuns.FinalizeEnds` | async/replacement.go:151-206 | completing a replacement ends the task with one completion exactly when it belongs to a workflow, revoked and without output when a cancel is stored, otherwise as reported when the output is valid |
| `DeliveryRuns.ActionKeeps` | async/worker.go:256-455 | every store call of every worker, relay, dispatcher, client, repair and cleanup keeps the system invariant |
| `DeliveryRuns.RunsKeepInvariant` | async/canvas.go:340-524 | so does every run, with any process stopped anywhere |
| `DeliveryTheorems.NoTaskLost` | async/worker.go:256-455 | in every state of every run a task that neither ended nor yielded has, for its current attempt, an unacknowledged delivery, a delayed item or an undelivered intent, unless quarantined |
| `DeliveryTheorems.YieldedNotLost` | async/replacement.go:99-206 | a yielded task's replacement is still to be created, still running, or has a stored report still to be delivered |
| `DeliveryTheorems.DeliveredWasAccepted` | async/canvas.go:340-439 | an intent marked delivered was accepted by its target: a publication reached a transport, a cancel is on the record or came too late, a completion is recorded, and a replace intent stays undelivered until its graph exists |
| `DeliveryTheorems.RowsAreReachable` | async/canvas.go:340-439 | every stored row satisfies the invariant of the workflow theorems |
| `DeliveryProgress.OutTaskWaits` | async/canvas.go:340-524 | a task that an unsettled workflow handed out and has not recorded has a pending intent, a queued or delayed attempt, an undelivered completion, replacement or report, or a quarantined attempt, or else a running replacement |
| `DeliveryProgress.NeverStuck` | async/canvas.go:340-524 | in every state of every run, under every unsettled workflow there is, down the replacements, a handed-out task with work for some process to pick up |
| `RowRuns.StepExact` | async/redis/workflows.go:118-135 | a step that ends in the normal mode started in it, changed no recorded outcome and recorded the report as it came |
| `RowRuns.HonestRunIsRun` | async/canvas.go:205-319 | a row's honest history is a run of every world that runs the published tasks as recorded |
| `DeliveryOutcomes.EndReports` | async/canvas.go:379-407 | in a normal workflow an attempt ends with what its intent says if the task was failed before dispatch, and only a published task ends otherwise |
| `DeliveryMeaning.ActionMoves` | async/canvas.go:340-524 | every store call of every process leaves a stored row alone or gives it one honest report or a cancellation |
| `DeliveryMeaning.StoredRowsRun` | async/canvas.go:340-524 | from any moment of any run on, every stored row goes through an honest run |
| `DeliveryMeaning.StoredRowIsRun` | async/canvas.go:108-177 | every stored row is the end of an honest run that starts with the first row of a compiled or flat graph |
| `DeliveryMeaning.AppliedCanvasHasMeaning` | async/nested.go:39-64 | end to end: in every run of the whole system a compiled canvas that settled in the normal mode has the state, output and failure that the canvas means, for what its tasks reported |
| `DeliveryMeaning.AppliedFlatHasMeaning` | async/canvas.go:108-177 | the same for chains, groups and chords: success and output are what the canvas means |
| `DeliveryTheorems.PinSafety` | async/redis/results.go:381-421 | while a workflow is not settled, no record of its tasks is deleted, unpinned or emptied, and an ended task's full completion is stored |
| `DeliveryTheorems.CompletionStoredOnce` | async/links.go:11-34 | a workflow task has a stored completion exactly when it ended, only one, and it reports how |
| `DeliveryTheorems.RepairAgreesWithRelay` | async/workflow_repair.go:211-300 | the member repair would record equals the one the stored completion intent would record |
| `DeliveryTheorems.MembersAreAuthoritative` | async/workflow_repair.go:211-300 | whoever recorded it, a member is what the task's completion reports, exactly in the normal mode, otherwise up to outputs an abort dropped |
| `DeliveryRows.WorkflowsLast` | async/redis/workflows.go:103-108 | a stored graph is never removed, started over or shrunk by any later step, so a replacement is created once |
| `Repair.CheckChildren` | async/workflow_repair.go:74-83 | accepts exactly the distinct children that belong to the graph |
| `Repair.CheckDag` | async/workflow_repair.go:124-158 | accepts exactly the well-shaped plans: known prerequisites first, distinct nodes, one task node per child, a planned root |
| `Repair.RepairGraph` | async/workflow_repair.go:67-173 | accepts exactly the graphs of the stated shape, and returns exactly the candidates |
| `Repair.Candidates` | async/workflow_repair.go:88-172 | the returned envelopes are exactly the candidates |
| `Repair.StoredGraphsPass` | async/workflow_repair.go:67-166 | repair accepts a row that the store accepted if and only if its envelopes are valid as they are stored |
| `DeliveryTheorems.RepairAcceptsStored` | async/workflow_repair.go:67-166 | the same for every stored graph of every state of every run |
| `RepairExample.RepairCanRefuse` | async/canvas.go:125-141 | a workflow that ApplyCanvas stores and repair refuses: its child is valid when prepared and not once linked |
| `Repair.CandidatesAreOutstanding` | async/workflow_repair.go:88-172 | the candidates of an unsettled stored graph are exactly the handed-out tasks without a recorded member |
| `Replacement.AdoptChildren` | async/replacement.go:73-86 | every child becomes the yielded task's child, one level deeper |
| `Replacement.InheritedScope` | async/replacement.go:32-59 | at every depth each signature gets the task's scope and no later expiry and is otherwise unchanged; the canvas is refused exactly when it is too deep or too wide or a signature names another scope, with the error that says which |
| `Replacement.CompileWithin` | async/nested.go:66-183 | compiling hands each signature's scope and expiry to its task's envelope |
| `Replacement.ReplacementStaysWithin` | async/replacement.go:19-97 | no task of a prepared replacement leaves the scope of the task it replaces or outlives it |
| `Replacement.PreparedIsPrepared` | async/replacement.go:19-97 | a prepared replacement is a fresh graph under the task's replacement identity, in its scope, at most 16 deep; the engine accepts it exactly when its plan has at most 2000 nodes |
| `Beat.CatchUp` | async/beat.go:307-367 | a tick plans consecutive orbit occurrences before the end, at most the limit and after the first none later than the observed time, and stops only at the limit, past the present or at the end |
| `Beat.EmitsOrbit` | async/redis/periodic.go:66-176 | for any number of instances over any run the stored occurrences are a gap-free, duplicate-free prefix of the rule's orbit, all before the end and none before its time, and the schedule continues right after them |
| `Beat.CommitsMoveForward` | async/redis/periodic.go:106-176 | each commit stores at most the limit, nothing later than the time its lease observed, and strictly raises the next due time; nothing stored is taken back |
| `Cron.AddPiece` | async/beat.go:141-173 | one piece adds exactly its arithmetic progression (weekday 7 as 0) for every machine-integer step, without wrap-around |
| `Cron.ParseField` | async/beat.go:118-177 | a field is exactly the union of its progressions, refused exactly when a piece is out of bounds |
| `Cron.Duplicates` | async/beat.go:99-110 | the three-hour scan finds exactly whether an earlier or later copy of a wall minute exists |
| `Cron.NextMinute` | async/beat.go:66-114 | the least chosen minute after the input and before the limit, and an error only when there is none |
| `Cron.FoldChoosesOne` | async/beat.go:99-117 | of the instants that show one wall minute within three hours, each fold policy chooses exactly one, the first or the last |
| `Inventory.PageSplits` | async/redis/workflow_inventory.go:39-71 | a page takes exactly the next identities, and what remains gets shorter |
| `Inventory.EnumerationIsComplete` | async/redis/workflow_inventory.go:13-71 | following cursors from the start visits every identity of the 64 partitions exactly once, in order, for any page size |
| `Inventory.PassStep` | async/workflow_inventory.go:117-206 | each call finishes a workflow or moves a cursor, under a decreasing measure of partition, id and task |
| `Inventory.PassVisitsEverything` | async/workflow_inventory.go:117-206 | a pass of repeated calls finishes every workflow once, in order, though some are denied, missing or still active |
| `Inventory.LookupIsFind` | async/workflow_inventory.go:152-175 | a search whose page lookups may fail is the plain search of the pages that succeeded |
| `Inventory.FailureKeepsPlace` | async/workflow_inventory.go:152-206 | when a page lookup or the repair of the workflow in hand fails, the same workflows remain to be finished |
| `Inventory.WorkflowReconciler.constructor` | async/workflow_inventory.go:74-81 | a reconciler starts at the beginning |
| `Inventory.WorkflowReconciler.Reconcile` | async/workflow_inventory.go:117-206 | one call looks up at most `lookups` pages, stops where a lookup fails, repairs one task page and keeps the place |
| `Autoscale.Scan` | async/autoscale.go:92-105 | the locked pass counts live and busy loops and finds the longest idle one |
| `Autoscale.Controller.constructor` | async/autoscale.go:77-81 | the pool starts with the minimum |
| `Autoscale.Controller.OnTick` | async/autoscale.go:91-117 | a tick grows, retires the longest idle loop or does nothing, as the step relation says, and keeps the pool invariant |
| `Autoscale.PoolIsSafe` | async/autoscale.go:42-177 | over every interleaving live loops stay at least the minimum, all loops at most the maximum, held slots and busy loops at most the cap |
| `Autoscale.RetiredNeverAccepts` | async/autoscale.go:124-177 | a busy loop is never retired, and a retired loop never accepts again |
| `Counter.Increment` | async/redis/codec.go:31-43 | the digit loop yields the canonical numeral of value plus one, and is refused exactly for malformed or exhausted counters |
| `Counter.GuardIsExact` | async/redis/codec.go:33 | the string comparison refuses exactly the values from 2^64-1 on |
| `Counter.ValidCounterIsUint64` | async/redis/intent_metadata.go:9-11 | accepts exactly the canonical numerals of the uint64 values |
| `Counter.OrderIsNumeric` | async/redis/codec.go:33 | for numerals of one length, string order is numeric order |
| `Counter.CanonicalIsUnique` | async/redis/codec.go:31-43 | one numeral per value, so equal fences are equal strings |

## Left out

- Engines.EnginesAgree: compares success and output only; the two engines give different failure codes, and the source promises no more.
- DagRuns.WorkflowComputesMeaning: speaks of plans of at most 2000 nodes, which are the plans `advance` accepts.
- Beat.EmitsOrbit: covers catch-up misfires with overlap allowed; skip and coalesce misfires, fixed delay, overlap skipping and schedule updates are not modelled.
- Cron.ParseField: starts from split pieces; cutting the expression text into pieces is not modelled.
- Inventory.EnumerationIsComplete: cursors are values; their base64 text and its decoding errors are not modelled, and the inventory is fixed during a pass.
- Repair.Candidates: states the set of candidates, not their sorted order or the page cut from them.
- WorkflowStore.Workflows.RecordMember: other clients are any evolution by revisions; deletion of graphs does not exist in the source.
- ResultStore.Results.OtherClients: a bound `lag` on how long another client takes from reading the server time to running its script is a parameter; the source sets none.
- DeliveryMeaning.AppliedCanvasHasMeaning: says what a workflow that settled means; that it settles needs processes that keep running, of which `DeliveryProgress.NeverStuck` is the part the protocol can promise.
- Callbacks and errbacks of a task (async/links.go:36-124) and their intents.
- Retry delays and jitter (async/retry.go); when a retry is due is a parameter.
- Intent leases inside the delivery relation: any process may relay any pending intent at any time, which allows more runs than the source.
- Broker internals: streams, priorities, consumer groups and reclaim; a delivery that is not acknowledged may be processed any number of times.
- Map iteration order: unpins are listed in the order of the children.
- Encoded sizes: a size limit is a predicate or a size function of the value, not JSON bytes.
- Principals, headers, stamps and delivery times: not part of the envelope here, so the checks that compare principals are left out.
- Authorization, presence, inspection, events, dashboard, executors, outbox, rate admission, worker control and management commands.
- ForgetGraphPayload (async/redis/workflows.go:147-175), the administrative erasure of a settled graph's payload.
- The 8 MiB limit of an intent batch inside the delivery relation, where only the graph's limit can refuse a write; both are in `WorkflowStore.Workflows.Write`.
- The 2 MiB acceptance limit of a new graph (async/canvas_limits.go:27-32): the delivery relation lets any compiled graph start, which allows more runs than the source.
- The `admin` package and everything outside `async`.
