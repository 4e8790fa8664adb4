/** The intent hash beside every record and graph: scripts add intents by identity and never
    overwrite one that exists, so a retried write cannot change what was decided first. */
module IntentHash {
  import opened Protocol

  type Intents = map<Id, Intent>

  /** The intent hash of the store: an identity that exists is never overwritten. */
  function Merge(stored: Intents, batch: seq<Intent>): Intents
    decreases |batch|
  {
    if batch == [] then stored else
      var m := Merge(stored, batch[..|batch| - 1]);
      var last := batch[|batch| - 1];
      if last.id in m then m else m[last.id := last]
  }

  lemma MergeSnoc(stored: Intents, batch: seq<Intent>, x: Intent)
    ensures Merge(stored, batch + [x]) == var m := Merge(stored, batch); if x.id in m then m else m[x.id := x]
  {
    assert (batch + [x])[..|batch|] == batch;
  }

  lemma {:induction false} MergeAppend(stored: Intents, a: seq<Intent>, b: seq<Intent>)
    ensures Merge(stored, a + b) == Merge(Merge(stored, a), b)
    decreases |b|
  {
    if b == [] {
      assert a + b == a;
    } else {
      var front, x := b[..|b| - 1], b[|b| - 1];
      MergeAppend(stored, a, front);
      assert a + b == (a + front) + [x];
      MergeSnoc(stored, a + front, x);
    }
  }

  lemma MergeEmpty(s: Intents)
    ensures Merge(s, []) == s
  {
  }

  /** What is stored stays as it was. */
  lemma {:induction false} MergeKeeps(s: Intents, batch: seq<Intent>, k: Id)
    requires k in s
    ensures k in Merge(s, batch) && Merge(s, batch)[k] == s[k]
    decreases |batch|
  {
    if batch != [] { MergeKeeps(s, batch[..|batch| - 1], k); }
  }

  /** What is new comes from the batch. */
  lemma {:induction false} MergeOrigin(s: Intents, batch: seq<Intent>, k: Id)
    requires k in Merge(s, batch) && k !in s
    ensures exists i | 0 <= i < |batch| :: batch[i].id == k && Merge(s, batch)[k] == batch[i]
    decreases |batch|
  {
    var front, last := batch[..|batch| - 1], batch[|batch| - 1];
    if k in Merge(s, front) {
      MergeOrigin(s, front, k);
      var i :| 0 <= i < |front| && front[i].id == k && Merge(s, front)[k] == front[i];
      assert batch[i] == front[i];
    } else {
      assert batch[|batch| - 1].id == k;
    }
  }

  /** Every identity of the batch is stored afterwards. */
  lemma {:induction false} MergeHas(s: Intents, batch: seq<Intent>, i: nat)
    requires i < |batch|
    ensures batch[i].id in Merge(s, batch)
    decreases |batch|
  {
    var front := batch[..|batch| - 1];
    if i < |front| {
      MergeHas(s, front, i);
      assert front[i] == batch[i];
    }
  }
}
