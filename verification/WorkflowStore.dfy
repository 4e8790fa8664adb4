/** async/redis/workflows.go: the workflow store. A row is one graph and its intent hash; every
    write is a revision compare-and-set. Because a revision identifies a row, a call that
    commits takes effect atomically on the row of that moment, whatever other clients did. */
module WorkflowStore {
  import opened Protocol
  import opened Engine
  import opened IntentHash

  datatype Row = Row(graph: Graph, intents: Intents)

  /** A completion is expected from a child, or from a claimed chord body. */
  predicate Expected(g: Graph, id: Id) {
    (g.callbackClaimed && g.callbackId == Some(id)) || exists i | 0 <= i < |g.children| :: g.children[i].id == id
  }

  /** What storing an advance result does to a row. */
  function Store(c: Client, row: Row, g: Graph): Result<Row> {
    match AdvanceSpec(c, g)
    case Err(e) => Err(e)
    case Ok((next, batch)) => Ok(Row(next.(revision := row.graph.revision + 1), Merge(row.intents, batch)))
  }

  function RecordMemberSpec(c: Client, row: Row, m: Completion): Result<Row> {
    if !m.outcome.state.Terminal() then Err(Invalid)
    else if m.id in row.graph.members then Ok(row)
    else if !Expected(row.graph, m.id) then Err(Invalid)
    else Store(c, row, row.graph.(members := row.graph.members[m.id := m]))
  }

  function CancelGraphSpec(c: Client, row: Row): Result<Row> {
    if row.graph.state.Terminal() then Ok(row) else Store(c, row, row.graph.(cancelRequested := true))
  }

  /** The first row of a graph: what ApplyCanvas and the replacement relay store. */
  function CreateSpec(c: Client, g: Graph): Result<Row> {
    match AdvanceSpec(c, g)
    case Err(e) => Err(e)
    case Ok((next, batch)) => Ok(Row(next, Merge(map[], batch)))
  }

  /** Revisions only grow, and one revision names one row. */
  predicate RowEvolves(a: Row, b: Row) {
    a.graph.revision <= b.graph.revision && (a.graph.revision == b.graph.revision ==> a == b)
  }

  predicate Evolves(rows: map<Id, Row>, rows': map<Id, Row>) {
    forall id | id in rows :: id in rows' && RowEvolves(rows[id], rows'[id])
  }

  /** What a stored row satisfies: write refuses a graph without a revision or above 8 MiB. */
  predicate Storable(c: Client, g: Graph) { g.revision > 0 && c.fits(g, [], MaxWorkflowDurableBytes) }

  predicate Keyed(c: Client, rows: map<Id, Row>) {
    forall id | id in rows :: rows[id].graph.id == id && Storable(c, rows[id].graph)
  }

  /** The checks of write before its script runs. */
  predicate Writable(c: Client, expected: nat, g: Graph, batch: seq<Intent>) {
    expected < MaxUint64 && g.revision > 0 && BatchOk(g.id, batch) && c.fits(g, batch, MaxWorkflowDurableBytes)
  }

  lemma EvolvesTrans(a: map<Id, Row>, b: map<Id, Row>, d: map<Id, Row>)
    requires Evolves(a, b) && Evolves(b, d)
    ensures Evolves(a, d)
  {
    forall id | id in a ensures id in d && RowEvolves(a[id], d[id]) {
      assert RowEvolves(a[id], b[id]) && RowEvolves(b[id], d[id]);
    }
  }

  lemma EvolvesRefl(rows: map<Id, Row>)
    ensures Evolves(rows, rows)
  {
  }

  lemma KeyedRow(c: Client, rows: map<Id, Row>, id: Id)
    requires Keyed(c, rows) && id in rows
    ensures rows[id].graph.id == id && rows[id].graph.revision > 0
  {
  }

  /** A compare-and-set that finds the revision it read finds the row it read. */
  lemma WriteEvolves(c: Client, read: map<Id, Row>, rows: map<Id, Row>, id: Id, row: Row)
    requires Evolves(read, rows) && Keyed(c, rows) && Storable(c, row.graph) && id in read &&
             RevisionOf(rows, id) == read[id].graph.revision
    requires row.graph.id == id && row.graph.revision == read[id].graph.revision + 1
    ensures id in rows && rows[id] == read[id] && Evolves(rows, rows[id := row]) && Keyed(c, rows[id := row])
  {
    assert RowEvolves(read[id], rows[id]);
  }

  /** The revision the compare-and-set script reads: an absent row counts as revision 0. */
  function RevisionOf(rows: map<Id, Row>, id: Id): nat { if id in rows then rows[id].graph.revision else 0 }

  function IntentsOf(rows: map<Id, Row>, id: Id): Intents { if id in rows then rows[id].intents else map[] }

  class Workflows {
    const client: Client
    var rows: map<Id, Row>

    constructor (client: Client)
      ensures this.client == client && rows == map[]
    {
      this.client := client;
      rows := map[];
    }

    /** Any number of commits by other clients between two calls of this one. */
    method OtherClients()
      requires Keyed(client, rows)
      modifies this
      ensures Evolves(old(rows), rows) && Keyed(client, rows)
    {
    }

    /** write and its graphCAS script: refused for a malformed or oversized batch or graph, then one
        atomic step, refused unless the revision is the expected one. */
    method Write(expected: nat, g: Graph, batch: seq<Intent>) returns (r: Result<()>)
      modifies this
      ensures if !Writable(client, expected, g, batch) then r == Err(Invalid) && rows == old(rows)
              else if RevisionOf(old(rows), g.id) == expected
              then r == Ok(()) && rows == old(rows)[g.id := Row(g, Merge(IntentsOf(old(rows), g.id), batch))]
              else r == Err(Conflict) && rows == old(rows)
    {
      if expected >= MaxUint64 || g.revision == 0 { return Err(Invalid); }
      var seen: set<Id> := {};
      for i := 0 to |batch|
        invariant rows == old(rows) && BatchOk(g.id, batch[..i])
        invariant forall id :: id in seen <==> exists j | 0 <= j < i :: batch[j].id == id
      {
        if batch[i].source != g.id || batch[i].id in seen { return Err(Invalid); }
        seen := seen + {batch[i].id};
      }
      assert batch[..|batch|] == batch;
      if !client.fits(g, batch, MaxWorkflowDurableBytes) { return Err(Invalid); }
      if RevisionOf(rows, g.id) != expected { return Err(Conflict); }
      rows := rows[g.id := Row(g, Merge(IntentsOf(rows, g.id), batch))];
      r := Ok(());
    }

    method CreateGraph(g: Graph, batch: seq<Intent>) returns (r: Result<()>)
      requires Keyed(client, rows)
      modifies this
      ensures if g.revision == 1 && |g.children| <= 1000 && g.id !in old(rows) && Writable(client, 0, g, batch)
              then r == Ok(()) && rows == old(rows)[g.id := Row(g, Merge(map[], batch))]
              else r.Err? && rows == old(rows)
      ensures Keyed(client, rows)
    {
      if g.revision != 1 || |g.children| > 1000 { return Err(Invalid); }
      r := Write(0, g, batch);
    }

    /** On success the completion was applied to the row of the moment it committed (`before`), or
        was already recorded there; on failure, also when the store refuses the write, this call wrote
        nothing. */
    method RecordMember(id: Id, m: Completion) returns (r: Result<()>, ghost before: map<Id, Row>)
      requires Keyed(client, rows)
      modifies this
      ensures Evolves(old(rows), before) && Evolves(before, rows) && Keyed(client, rows)
      ensures r.Ok? ==> id in before && RecordMemberSpec(client, before[id], m).Ok? &&
                        rows == before[id := RecordMemberSpec(client, before[id], m).value]
      ensures r.Err? ==> rows == before
    {
      hide Evolves, Keyed, AdvanceSpec, Merge, RowEvolves;
      EvolvesRefl(rows);
      before := rows;
      if !m.outcome.state.Terminal() { return Err(Invalid), rows; }
      var attempt := 0;
      while attempt < 64
        invariant Evolves(old(rows), rows) && Keyed(client, rows)
      {
        ghost var start := rows;
        OtherClients();
        EvolvesTrans(old(rows), start, rows);
        EvolvesRefl(rows);
        if id !in rows { return Err(NotFound), rows; }
        var row := rows[id];
        KeyedRow(client, rows, id);
        if m.id in row.graph.members { return Ok(()), rows; }
        if !Expected(row.graph, m.id) { return Err(Invalid), rows; }
        var g := row.graph.(members := row.graph.members[m.id := m]);
        var advanced := Advance(client, g);
        if advanced.Err? { return Err(advanced.error), rows; }
        AdvanceIdentity(client, g);
        var (next, batch) := advanced.value;
        start := rows;
        OtherClients();
        EvolvesTrans(old(rows), start, rows);
        before := rows;
        EvolvesRefl(rows);
        var written := Write(row.graph.revision, next.(revision := row.graph.revision + 1), batch);
        if written.Ok? {
          WriteEvolves(client, start, before, id, rows[id]);
          return Ok(()), before;
        }
        if written != Err(Conflict) { return written, rows; }
        attempt := attempt + 1;
      }
      EvolvesRefl(rows);
      return Err(Busy), rows;
    }

    /** The same for a cancellation, which the scope guards. */
    method CancelGraph(id: Id, scope: string) returns (r: Result<()>, ghost before: map<Id, Row>)
      requires Keyed(client, rows)
      modifies this
      ensures Evolves(old(rows), before) && Evolves(before, rows) && Keyed(client, rows)
      ensures r.Ok? ==> id in before && before[id].graph.scope == scope && CancelGraphSpec(client, before[id]).Ok? &&
                        rows == before[id := CancelGraphSpec(client, before[id]).value]
      ensures r.Err? ==> rows == before
    {
      hide Evolves, Keyed, AdvanceSpec, Merge, RowEvolves;
      EvolvesRefl(rows);
      before := rows;
      var attempt := 0;
      while attempt < 64
        invariant Evolves(old(rows), rows) && Keyed(client, rows)
      {
        ghost var start := rows;
        OtherClients();
        EvolvesTrans(old(rows), start, rows);
        EvolvesRefl(rows);
        if id !in rows { return Err(NotFound), rows; }
        var row := rows[id];
        KeyedRow(client, rows, id);
        if row.graph.scope != scope { return Err(Denied), rows; }
        if row.graph.state.Terminal() { return Ok(()), rows; }
        var g := row.graph.(cancelRequested := true);
        var advanced := Advance(client, g);
        if advanced.Err? { return Err(advanced.error), rows; }
        AdvanceIdentity(client, g);
        var (next, batch) := advanced.value;
        start := rows;
        OtherClients();
        EvolvesTrans(old(rows), start, rows);
        before := rows;
        EvolvesRefl(rows);
        var written := Write(row.graph.revision, next.(revision := row.graph.revision + 1), batch);
        if written.Ok? {
          WriteEvolves(client, start, before, id, rows[id]);
          return Ok(()), before;
        }
        if written != Err(Conflict) { return written, rows; }
        attempt := attempt + 1;
      }
      EvolvesRefl(rows);
      return Err(Busy), rows;
    }
  }
}
