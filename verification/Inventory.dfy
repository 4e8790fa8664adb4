/** async/redis/workflow_inventory.go and async/workflow_inventory.go: enumeration of the stored
    workflows by cursor, and the reconciler that walks it one workflow and one task page at a time.
    An identity is its rank in the store's lexicographic order. */
module Inventory {
  import opened Protocol

  const Partitions: nat := 64

  type Ids = seq<nat>

  predicate Sorted(ids: Ids) { forall i, j | 0 <= i < j < |ids| :: ids[i] < ids[j] }

  /** The 64 sorted partitions of the workflow index. */
  predicate InventoryOk(inv: seq<Ids>) { |inv| == Partitions && forall p | 0 <= p < |inv| :: Sorted(inv[p]) }

  /** A place in the enumeration; the empty next cursor is `End`. */
  datatype Cursor = At(partition: nat, after: Option<nat>) | End

  const Start: Cursor := At(0, None)

  predicate CursorOk(cur: Cursor) { cur.At? ==> cur.partition < Partitions }

  function Above(ids: Ids, after: Option<nat>): (r: Ids)
    requires Sorted(ids)
    ensures Sorted(r) && |r| <= |ids| && forall x :: x in r <==> x in ids && (after.Some? ==> x > after.value)
  {
    if ids == [] then [] else if after.None? || ids[0] > after.value then ids else
      assert Sorted(ids[1..]);
      Above(ids[1..], after)
  }

  function Concat(inv: seq<Ids>): Ids { if inv == [] then [] else inv[0] + Concat(inv[1..]) }

  /** Everything that comes after a cursor, in order. */
  function Remaining(inv: seq<Ids>, cur: Cursor): Ids
    requires InventoryOk(inv) && CursorOk(cur)
  {
    match cur
    case End => []
    case At(p, after) => Above(inv[p], after) + Concat(inv[p + 1..])
  }

  datatype Page = Page(ids: Ids, next: Cursor)

  /** ListWorkflows: one strict page of one partition. */
  function ListSpec(inv: seq<Ids>, cur: Cursor, limit: nat): Page
    requires InventoryOk(inv) && CursorOk(cur) && cur.At? && limit >= 1
  {
    var rest := Above(inv[cur.partition], cur.after);
    var ids := if |rest| <= limit then rest else rest[..limit];
    var next := if |ids| ==
      limit then At(cur.partition,
        Some(ids[limit - 1])) else if cur.partition < Partitions - 1 then At(cur.partition + 1, None) else End;
    Page(ids, next)
  }

  /** How much enumeration is left: partitions and identities. */
  function Left(inv: seq<Ids>, cur: Cursor): nat
    requires InventoryOk(inv) && CursorOk(cur)
  {
    if cur.End? then 0 else (Partitions - cur.partition) + |Remaining(inv, cur)|
  }

  /** Skipping past the last identity of a page leaves the rest. */
  lemma {:induction false} AbovePage(ids: Ids, after: Option<nat>, n: nat)
    requires Sorted(ids) && 1 <= n <= |Above(ids, after)|
    ensures Above(ids, Some(Above(ids, after)[n - 1])) == Above(ids, after)[n..]
    decreases |ids|
  {
    if ids != [] {
      if after.None? || ids[0] > after.value {
        AboveElement(ids, n);
      } else {
        assert Sorted(ids[1..]);
        AbovePage(ids[1..], after, n);
        assert Above(ids[1..], after)[n - 1] in Above(ids[1..], after);
      }
    }
  }

  lemma {:induction false} AboveElement(ids: Ids, n: nat)
    requires Sorted(ids) && 1 <= n <= |ids|
    ensures Above(ids, Some(ids[n - 1])) == ids[n..]
    decreases |ids|
  {
    assert Sorted(ids[1..]);
    if n == 1 {
      AboveLower(ids[1..], ids[0]);
    } else {
      assert ids[1..][n - 2] == ids[n - 1];
      AboveElement(ids[1..], n - 1);
      assert ids[1..][n - 1..] == ids[n..];
    }
  }

  lemma AboveLower(ids: Ids, x: nat)
    requires Sorted(ids) && forall i | 0 <= i < |ids| :: x < ids[i]
    ensures Above(ids, Some(x)) == ids
  {
  }

  /** A page takes exactly the next identities, and the enumeration gets shorter. */
  lemma PageSplits(inv: seq<Ids>, cur: Cursor, limit: nat)
    requires InventoryOk(inv) && CursorOk(cur) && cur.At? && limit >= 1
    ensures var page := ListSpec(inv, cur, limit);
            CursorOk(page.next) && |page.ids| <= limit &&
            page.ids + Remaining(inv, page.next) == Remaining(inv, cur) && Left(inv, page.next) < Left(inv, cur)
  {
    hide Above, Concat;
    if |Above(inv[cur.partition], cur.after)| >= limit {
      FullPageSplits(inv, cur, limit);
    } else {
      LastPageSplits(inv, cur, limit);
    }
  }

  lemma FullPageSplits(inv: seq<Ids>, cur: Cursor, limit: nat)
    requires InventoryOk(inv) && CursorOk(cur) && cur.At? && 1 <= limit <= |Above(inv[cur.partition], cur.after)|
    ensures var page := ListSpec(inv, cur, limit);
            CursorOk(page.next) && |page.ids| == limit &&
            page.ids + Remaining(inv, page.next) == Remaining(inv, cur) && Left(inv, page.next) < Left(inv, cur)
  {
    var p, rest := cur.partition, Above(inv[cur.partition], cur.after);
    AbovePage(inv[p], cur.after, limit);
    hide Above, Concat;
    assert rest == rest[..limit] + rest[limit..];
    assert ListSpec(inv, cur, limit) == Page(rest[..limit], At(p, Some(rest[limit - 1])));
  }

  lemma LastPageSplits(inv: seq<Ids>, cur: Cursor, limit: nat)
    requires InventoryOk(inv) && CursorOk(cur) && cur.At? && limit > |Above(inv[cur.partition], cur.after)|
    ensures var page := ListSpec(inv, cur, limit);
            CursorOk(page.next) && |page.ids| < limit && page.ids + Remaining(inv, page.next) == Remaining(inv, cur) &&
            Left(inv, page.next) < Left(inv, cur)
  {
    var p := cur.partition;
    if p < Partitions - 1 {
      assert inv[p + 1..] == [inv[p + 1]] + inv[p + 2..];
      assert Above(inv[p + 1], None) == inv[p + 1];
      assert Concat(inv[p + 1..]) == inv[p + 1] + Concat(inv[p + 2..]);
    } else {
      assert inv[p + 1..] == [];
      assert Concat([]) == [];
    }
    hide Above, Concat;
  }

  /** All pages from a cursor on. */
  function Collect(inv: seq<Ids>, cur: Cursor, limit: nat): Ids
    requires InventoryOk(inv) && CursorOk(cur) && limit >= 1
    decreases Left(inv, cur)
  {
    if cur.End? then [] else
      PageSplits(inv, cur, limit);
      var page := ListSpec(inv, cur, limit);
      page.ids + Collect(inv, page.next, limit)
  }

  lemma {:induction false} CollectsRemaining(inv: seq<Ids>, cur: Cursor, limit: nat)
    requires InventoryOk(inv) && CursorOk(cur) && limit >= 1
    ensures Collect(inv, cur, limit) == Remaining(inv, cur)
    decreases Left(inv, cur)
  {
    if cur.At? {
      PageSplits(inv, cur, limit);
      CollectsRemaining(inv, ListSpec(inv, cur, limit).next, limit);
    }
  }

  /** Enumeration is complete: following cursors from the start, with any page size, visits every
      identity of the 64 partitions exactly once, in order. */
  lemma EnumerationIsComplete(inv: seq<Ids>, limit: nat)
    requires InventoryOk(inv) && limit >= 1
    ensures Collect(inv, Start, limit) == Concat(inv)
  {
    CollectsRemaining(inv, Start, limit);
    assert inv == [inv[0]] + inv[1..];
  }

  // ---- the reconciler ----

  /** Where a pass stands: the inventory cursor, the workflow in hand and its task cursor. */
  datatype Position = Position(inventory: Cursor, workflow: Option<nat>, afterTask: Option<nat>)

  predicate PositionOk(pos: Position) { CursorOk(pos.inventory) && (pos.afterTask.Some? ==> pos.workflow.Some?) }

  /** What ReconcileWorkflow answers for one task page. */
  datatype Answer = Checked(next: Option<nat>, terminal: bool) | Missing | Denied | Broken(next: Option<nat>)

  predicate PassDone(pos: Position) { pos.inventory.End? && pos.workflow.None? }

  /** Look up at most `lookups` inventory pages of one identity each, until one has a workflow. */
  function Find(inv: seq<Ids>, pos: Position, lookups: nat): Position
    requires InventoryOk(inv) && PositionOk(pos)
    decreases lookups
  {
    if pos.workflow.Some? || lookups == 0 || pos.inventory.End? then pos else
      PageSplits(inv, pos.inventory, 1);
      var page := ListSpec(inv, pos.inventory, 1);
      Find(inv, Position(page.next, if |page.ids| == 1 then Some(page.ids[0]) else None, None), lookups - 1)
  }

  /** The position after one more inventory page. */
  function NextPosition(inv: seq<Ids>, cur: Cursor): Position
    requires InventoryOk(inv) && CursorOk(cur) && cur.At?
  {
    var page := ListSpec(inv, cur, 1);
    Position(page.next, if |page.ids| == 1 then Some(page.ids[0]) else None, None)
  }

  lemma FindStep(inv: seq<Ids>, pos: Position, lookups: nat)
    requires InventoryOk(inv) && PositionOk(pos) && pos.workflow.None? && pos.inventory.At? && lookups >= 1
    ensures PositionOk(NextPosition(inv, pos.inventory)) &&
            Find(inv, pos, lookups) == Find(inv, NextPosition(inv, pos.inventory), lookups - 1)
  {
    PageSplits(inv, pos.inventory, 1);
  }

  /** A workflow is kept until its task pass is exhausted; a missing or denied one is skipped; a
      failing backend keeps the place. */
  function Settle(pos: Position, answer: Answer): Position {
    match answer
    case Checked(next, terminal) =>
      if next.None? || terminal then pos.(workflow := None, afterTask := None) else pos.(afterTask := next)
    case Missing => pos.(workflow := None, afterTask := None)
    case Denied => pos.(workflow := None, afterTask := None)
    case Broken(next) => if next.Some? then pos.(afterTask := next) else pos
  }

  function Restarted(pos: Position): Position { if PassDone(pos) then Position(Start, None, None) else pos }

  /** The same search when page lookups may fail: a failure stops it where it stands. The flag says
      whether one did. */
  function Lookup(inv: seq<Ids>, pos: Position, lookups: nat, fails: nat -> bool, page: nat): (Position, bool)
    requires InventoryOk(inv) && PositionOk(pos)
    decreases lookups
  {
    if pos.workflow.Some? || lookups == 0 || pos.inventory.End? then (pos, false)
    else if fails(page) then (pos, true)
    else
      FindStep(inv, pos, lookups);
      Lookup(inv, NextPosition(inv, pos.inventory), lookups - 1, fails, page + 1)
  }

  /** One call: where it leaves the pass, whatever the backend answers. */
  function CallSpec(inv: seq<Ids>, pos: Position, lookups: nat, fails: nat -> bool,
      repair: (nat, Option<nat>) -> Answer): Position
    requires InventoryOk(inv) && PositionOk(pos)
  {
    var (found, failed) := Lookup(inv, Restarted(pos), lookups, fails, 0);
    if failed || found.workflow.None? then found else Settle(found, repair(found.workflow.value, found.afterTask))
  }

  /** The workflows a pass still has to finish. */
  function Todo(inv: seq<Ids>, pos: Position): Ids
    requires InventoryOk(inv) && PositionOk(pos)
  {
    (if pos.workflow.Some? then [pos.workflow.value] else []) + Remaining(inv, pos.inventory)
  }

  lemma {:induction false} FindKeeps(inv: seq<Ids>, pos: Position, lookups: nat)
    requires InventoryOk(inv) && PositionOk(pos)
    ensures var found := Find(inv, pos, lookups);
            PositionOk(found) && Todo(inv, found) == Todo(inv, pos) &&
            Left(inv, found.inventory) <= Left(inv, pos.inventory) &&
            (pos.workflow.Some? ==> found == pos) &&
            (pos.workflow.None? && pos.inventory.At? && lookups >= 1 ==>
              Left(inv, found.inventory) < Left(inv, pos.inventory))
    decreases lookups
  {
    if pos.workflow.None? && lookups > 0 && pos.inventory.At? {
      PageSplits(inv, pos.inventory, 1);
      var page := ListSpec(inv, pos.inventory, 1);
      var next := Position(page.next, if |page.ids| == 1 then Some(page.ids[0]) else None, None);
      assert Todo(inv, next) == Todo(inv, pos) by {
        if |page.ids| == 1 { assert page.ids == [page.ids[0]]; } else { assert page.ids == []; }
      }
      FindKeeps(inv, next, lookups - 1);
    }
  }

  /** Tasks of a workflow beyond its task cursor. */
  function TasksLeft(tasks: nat -> set<nat>, pos: Position): nat {
    if pos.workflow.None? then 0 else |TasksAbove(tasks(pos.workflow.value), pos.afterTask)|
  }

  function TasksAbove(tasks: set<nat>,
      after: Option<nat>): set<nat> { set t | t in tasks && (after.Some? ==> t > after.value) }

  /** A task page that is not the last one moves the task cursor up, to one of the tasks. */
  predicate AnswerOk(tasks: nat -> set<nat>, pos: Position, answer: Answer) {
    !answer.Broken? &&
    (pos.workflow.Some? && answer.Checked? && answer.next.Some? ==>
       answer.next.value in tasks(pos.workflow.value) &&
       (pos.afterTask.Some? ==> answer.next.value > pos.afterTask.value))
  }

  ghost predicate AnswersOk(tasks: nat -> set<nat>,
      answers: Position -> Answer) { forall q :: AnswerOk(tasks, q, answers(q)) }

  lemma TaskCursorMoves(tasks: set<nat>, after: Option<nat>, next: nat)
    requires next in tasks && (after.Some? ==> next > after.value)
    ensures |TasksAbove(tasks, Some(next))| < |TasksAbove(tasks, after)|
  {
    var a, b := TasksAbove(tasks, Some(next)), TasksAbove(tasks, after);
    assert a <= b && next in b && next !in a;
    var rest := b - a;
    assert b == a + rest && |a + rest| == |a| + |rest| && next in rest;
  }

  /** The workflows finished by a run of calls until the pass is complete, whatever the task pages
      answer. That the function is defined shows that the pass ends. */
  ghost function RunPass(inv: seq<Ids>, tasks: nat -> set<nat>, lookups: nat, answers: Position -> Answer,
      pos: Position): Ids
    requires InventoryOk(inv) && PositionOk(pos) && lookups >= 1 && AnswersOk(tasks, answers)
    decreases Left(inv, pos.inventory), (if pos.workflow.Some? then 1 else 0), TasksLeft(tasks, pos)
  {
    if PassDone(pos) then [] else
      FindKeeps(inv, pos, lookups);
      var found := Find(inv, pos, lookups);
      if found.workflow.None? then RunPass(inv, tasks, lookups, answers, found) else
        var answer, after := answers(found), Settle(found, answers(found));
        assert AnswerOk(tasks, found, answers(found));
        if after.workflow.None? then [found.workflow.value] + RunPass(inv, tasks, lookups, answers, after)
        else
          TaskCursorMoves(tasks(found.workflow.value), found.afterTask, answer.next.value);
          RunPass(inv, tasks, lookups, answers, after)
  }

  /** One step of RunPass, written out. */
  lemma PassUnfolds(inv: seq<Ids>, tasks: nat -> set<nat>, lookups: nat, answers: Position -> Answer, pos: Position)
    requires InventoryOk(inv) && PositionOk(pos) && lookups >= 1 && AnswersOk(tasks, answers) && !PassDone(pos)
    ensures var found := Find(inv, pos, lookups);
            PositionOk(found) &&
            (found.workflow.None? ==>
              RunPass(inv, tasks, lookups, answers, pos) == RunPass(inv, tasks, lookups, answers, found)) &&
            (found.workflow.Some? ==>
               var after := Settle(found, answers(found));
               PositionOk(after) &&
               RunPass(inv, tasks, lookups, answers, pos) ==
                 (if after.workflow.None? then [found.workflow.value] else []) + RunPass(inv, tasks, lookups, answers,
                   after))
  {
    FindKeeps(inv, pos, lookups);
    hide Find, Left, TasksLeft, InventoryOk;
  }

  /** Settling a workflow either finishes it or moves its task cursor. */
  lemma SettleMoves(tasks: nat -> set<nat>, found: Position, answer: Answer)
    requires found.workflow.Some? && AnswerOk(tasks, found, answer)
    ensures var after := Settle(found, answer);
            after.inventory == found.inventory &&
            (after.workflow.None? ||
            (after.workflow == found.workflow && TasksLeft(tasks, after) < TasksLeft(tasks, found)))
  {
    var after := Settle(found, answer);
    if after.workflow.Some? { TaskCursorMoves(tasks(found.workflow.value), found.afterTask, answer.next.value); }
  }

  /** One call of a pass: what it finishes, and how the rest gets smaller. */
  lemma PassStep(inv: seq<Ids>, tasks: nat -> set<nat>, lookups: nat, answers: Position -> Answer,
      pos: Position) returns (next: Position, finished: Ids)
    requires InventoryOk(inv) && PositionOk(pos) && lookups >= 1 && AnswersOk(tasks, answers) && !PassDone(pos)
    ensures PositionOk(next) &&
            RunPass(inv, tasks, lookups, answers, pos) == finished + RunPass(inv, tasks, lookups, answers, next)
    ensures Todo(inv, pos) == finished + Todo(inv, next)
    ensures Left(inv, next.inventory) < Left(inv, pos.inventory) ||
            (Left(inv, next.inventory) == Left(inv, pos.inventory) && pos.workflow.Some? &&
             (next.workflow.None? || (next.workflow == pos.workflow && TasksLeft(tasks, next) < TasksLeft(tasks, pos))))
  {
    FindKeeps(inv, pos, lookups);
    PassUnfolds(inv, tasks, lookups, answers, pos);
    var found := Find(inv, pos, lookups);
    assert AnswerOk(tasks, found, answers(found));
    hide Find, Left, TasksLeft, RunPass, AnswersOk, AnswerOk, Remaining, InventoryOk;
    if found.workflow.None? {
      next, finished := found, [];
    } else {
      next := Settle(found, answers(found));
      SettleMoves(tasks, found, answers(found));
      finished := if next.workflow.None? then [found.workflow.value] else [];
    }
  }

  lemma {:induction false} PassFinishesTodo(inv: seq<Ids>, tasks: nat -> set<nat>, lookups: nat,
      answers: Position -> Answer, pos: Position)
    requires InventoryOk(inv) && PositionOk(pos) && lookups >= 1 && AnswersOk(tasks, answers)
    ensures RunPass(inv, tasks, lookups, answers, pos) == Todo(inv, pos)
    decreases Left(inv, pos.inventory), (if pos.workflow.Some? then 1 else 0), TasksLeft(tasks, pos)
  {
    if !PassDone(pos) {
      hide RunPass, Todo, Left, TasksLeft, AnswersOk;
      var next, finished := PassStep(inv, tasks, lookups, answers, pos);
      PassFinishesTodo(inv, tasks, lookups, answers, next);
    }
  }

  /** A pass is complete and terminates: repeated calls finish every workflow of the inventory,
      once and in order, though some are denied, missing or still have active tasks. */
  lemma PassVisitsEverything(inv: seq<Ids>, tasks: nat -> set<nat>, lookups: nat, answers: Position -> Answer)
    requires InventoryOk(inv) && lookups >= 1 && AnswersOk(tasks, answers)
    ensures RunPass(inv, tasks, lookups, answers, Position(Start, None, None)) == Concat(inv)
  {
    PassFinishesTodo(inv, tasks, lookups, answers, Position(Start, None, None));
    assert inv == [inv[0]] + inv[1..];
  }

  /** A search with failures is the plain search of as many pages as succeeded. */
  lemma {:induction false} LookupIsFind(inv: seq<Ids>, pos: Position, lookups: nat, fails: nat -> bool,
      page: nat) returns (n: nat)
    requires InventoryOk(inv) && PositionOk(pos)
    ensures var (found, failed) := Lookup(inv, pos, lookups, fails, page);
            n <= lookups && found == Find(inv, pos, n) && (!failed ==> found == Find(inv, pos, lookups)) &&
            (failed ==> found.workflow.None? && exists k | page <= k < page + lookups :: fails(k))
    decreases lookups
  {
    if pos.workflow.None? && lookups > 0 && pos.inventory.At? {
      if fails(page) {
        n := 0;
      } else {
        FindStep(inv, pos, lookups);
        var next := NextPosition(inv, pos.inventory);
        n := LookupIsFind(inv, next, lookups - 1, fails, page + 1);
        FindStep(inv, pos, n + 1);
        n := n + 1;
        hide Find, NextPosition;
      }
    } else {
      n := 0;
    }
  }

  /** A failing backend loses no place: when a page lookup fails, or the repair of the workflow in hand
      does, the same workflows remain to be finished. */
  lemma FailureKeepsPlace(inv: seq<Ids>, pos: Position, lookups: nat, fails: nat -> bool,
      repair: (nat, Option<nat>) -> Answer)
    requires InventoryOk(inv) && PositionOk(pos)
    requires var (found, failed) := Lookup(inv, Restarted(pos), lookups, fails, 0);
             failed || (found.workflow.Some? && repair(found.workflow.value, found.afterTask).Broken?)
    ensures PositionOk(CallSpec(inv, pos, lookups, fails, repair)) &&
            Todo(inv, CallSpec(inv, pos, lookups, fails, repair)) == Todo(inv, Restarted(pos))
  {
    var n := LookupIsFind(inv, Restarted(pos), lookups, fails, 0);
    FindKeeps(inv, Restarted(pos), n);
    hide Find, Lookup;
  }

  class WorkflowReconciler {
    const inventory: seq<Ids>
    var pos: Position

    constructor (inventory: seq<Ids>)
      requires InventoryOk(inventory)
      ensures this.inventory == inventory && PositionOk(pos) && pos == Position(Start, None, None)
    {
      this.inventory := inventory;
      pos := Position(Start, None, None);
    }

    /** Reconcile: look up a workflow if none is in hand, repair one of its task pages, keep the place.
        `fails` says which page lookups fail. */
    method Reconcile(lookups: nat, fails: nat -> bool,
        repair: (nat, Option<nat>) -> Answer) returns (visited: Option<nat>)
      requires InventoryOk(inventory) && PositionOk(pos)
      modifies this
      ensures PositionOk(pos) && pos == CallSpec(inventory, old(pos), lookups, fails, repair)
      ensures var (found, failed) := Lookup(inventory, Restarted(old(pos)), lookups, fails, 0);
              visited == if failed then None else found.workflow
    {
      var cursor, pages := Restarted(pos), 0;
      while cursor.workflow.None? && pages < lookups && cursor.inventory.At?
        invariant pages <= lookups && PositionOk(cursor) && pos == old(pos)
        invariant Lookup(inventory, cursor, lookups - pages, fails, pages) ==
                    Lookup(inventory, Restarted(old(pos)), lookups, fails, 0)
        decreases lookups - pages
      {
        if fails(pages) {
          pos := cursor;
          return None;
        }
        FindStep(inventory, cursor, lookups - pages);
        cursor := NextPosition(inventory, cursor.inventory);
        pages := pages + 1;
      }
      visited := cursor.workflow;
      pos := if cursor.workflow.Some? then Settle(cursor, repair(cursor.workflow.value, cursor.afterTask)) else cursor;
    }
  }
}
