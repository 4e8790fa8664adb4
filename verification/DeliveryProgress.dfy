/** Progress of the delivery protocol: a workflow that is not settled always has work that some
    process can pick up, for its own tasks or for those of the workflows that replace them. */
module DeliveryProgress {
  import opened Protocol
  import opened Records
  import opened Rows
  import opened Delivery
  import opened DeliveryFacts
  import opened DeliveryRuns
  import opened DeliveryTheorems
  import Plans

  /** The attempt has a delivery, a delayed item or an intent that will produce one, or is quarantined. */
  predicate AttemptWaits(s: System, id: Id, r: nat) {
    InQueue(s, (id, r)) || (id, r) in s.delayed || (id, r) in s.quarantine || PendingIntent(s, id, r)
  }

  predicate Undelivered(s: System, id: Id, k: Id) {
    id in s.entries && k in s.entries[id].intents && !s.entries[id].intents[k].delivered
  }

  predicate ReportWaits(s: System, id: Id) {
    var g := Stable(id, ReplacementLabel);
    var report := Stable(g, ReplacementCompletionLabel);
    SettledRow(s, g) && report in s.rows[g].intents && report !in s.marked
  }

  predicate Unsettled(s: System, g: Id) { g in s.rows && !s.rows[g].graph.state.Terminal() }

  /** What some process can still do for a task, by how far the task has come: not registered, on
      an attempt, yielded, or ended. */
  predicate TaskWaits(s: System, id: Id) {
    if id !in s.entries then AttemptWaits(s, id, 0)
    else if s.entries[id].record.state.Terminal() then Undelivered(s, id, Stable(id, CompletionLabel))
    else if s.entries[id].record.replacement.Some? then Undelivered(s, id, ReplaceId(id)) || ReportWaits(s, id)
    else AttemptWaits(s, id, s.entries[id].record.envelope.retries)
  }

  /** An ended task whose member its graph has not recorded still has its completion to deliver. */
  lemma EndedWaits(c: Client, ttl: Ttl, s: System, g: Id, id: Id)
    requires Arises(c, ttl, s) && g in s.rows && TaskOf(id) == Some(g) && id in s.entries && id !in s.removed
    requires s.entries[id].record.state.Terminal() && id !in s.rows[g].graph.members
    ensures Undelivered(s, id, Stable(id, CompletionLabel))
  {
    hide Arises, Inv, Fact, Known;
    ArisesInv(c, ttl, s);
    RepairAgreesWithRelay(c, ttl, s, g, id);
    ItemOf(c, s, id, Stable(id, CompletionLabel));
    assert RepairCompletion(s, s.entries[id].record).id == id by { ObligationsOf(c, s, id); }
  }

  /** In every state of every run, a task that a workflow handed out and has not recorded, while the
      workflow is not settled, has work waiting, or a running workflow in its place. */
  lemma OutTaskWaits(c: Client, ttl: Ttl, s: System, g: Id, id: Id)
    requires Arises(c, ttl, s) && Unsettled(s, g) && Out(s.rows[g], id) && id !in s.rows[g].graph.members
    ensures TaskOf(id) == Some(g)
    ensures TaskWaits(s, id) || (id in s.entries && Unsettled(s, Stable(id, ReplacementLabel)))
  {
    hide Arises, Inv, RowOk, Out, MembersTrue, InQueue, PendingIntent;
    ArisesInv(c, ttl, s);
    RowOf(c, s, g);
    OutOfRow(c, s.rows[g], id);
    PinSafety(c, ttl, s, g, id);
    if id !in s.entries {
      DispatchCovered(c, s, id);
    } else if s.entries[id].record.state.Terminal() {
      EndedWaits(c, ttl, s, g, id);
    } else if s.entries[id].record.replacement.Some? {
      YieldedNotLost(c, ttl, s, id);
    } else {
      NoTaskLost(c, ttl, s, id);
    }
  }

  // ---- down to the work itself ----

  function Size(id: Id): nat { match id case Fresh(_) => 0 case Stable(parent, _) => Size(parent) + 1 }

  /** The workflow itself, or one that replaces a task of it, directly or further down. */
  predicate Under(g: Id, w: Id) {
    w == g || (w.Stable? && Under(g, w.parent))
  }

  lemma {:induction false} UnderTrans(g: Id, mid: Id, w: Id)
    requires Under(g, mid) && Under(mid, w)
    ensures Under(g, w)
    decreases w
  {
    if w != mid { UnderTrans(g, mid, w.parent); }
  }

  function Larger(s: System, g: Id): set<Id> { set w | w in s.rows && Size(w) > Size(g) }

  lemma FewerLarger(s: System, g: Id, w: Id)
    requires w in s.rows && Size(w) > Size(g)
    ensures |Larger(s, w)| < |Larger(s, g)|
  {
    assert w in Larger(s, g) && w !in Larger(s, w);
    Plans.SubsetSize(Larger(s, w), Larger(s, g) - {w});
  }

  /** No stuck system: in every state of every run, for every workflow that is not settled, some
      unsettled workflow under it has handed out a task for which there is work to pick up. */
  lemma {:induction false} NeverStuck(c: Client, ttl: Ttl, s: System, g: Id)
    requires Arises(c, ttl, s) && Unsettled(s, g)
    ensures exists w, id :: Under(g, w) && Unsettled(s, w) && Out(s.rows[w], id) && TaskWaits(s, id)
    decreases |Larger(s, g)|
  {
    hide Arises, Inv, RowOk, Out, TaskWaits;
    RowsAreReachable(c, ttl, s, g);
    UnsettledRowHasTask(c, s.rows[g]);
    var id :| Out(s.rows[g], id) && id !in s.rows[g].graph.members;
    OutTaskWaits(c, ttl, s, g, id);
    if !TaskWaits(s, id) {
      var below := Stable(id, ReplacementLabel);
      assert Under(g, g) && id.Stable? && id.parent == g && Under(g, id) && Under(g, below);
      FewerLarger(s, g, below);
      NeverStuck(c, ttl, s, below);
      var w, task :| Under(below, w) && Unsettled(s, w) && Out(s.rows[w], task) && TaskWaits(s, task);
      UnderTrans(g, below, w);
    }
  }
}
