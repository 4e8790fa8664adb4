/** A stored workflow that repair refuses: a task that is valid when it is prepared exceeds the
    envelope limit once it is linked to its workflow, and is stored without a second validation. */
module RepairExample {
  import opened Protocol
  import opened LimitedClient
  import opened IntentHash
  import opened WorkflowStore
  import opened Flat
  import opened FlatRuns
  import opened Records
  import opened Delivery
  import opened DeliveryRuns
  import opened Repair

  const Part: Signature := Signature(TaskRef("part", 1), List([Null]), true, None, "", 0, 0)

  function Example(): Canvas { Canvas(GroupCanvas, [Part], None, []) }

  function Child(): Envelope {
    Envelope(ChildId(Workflow, 0), Part.task, Part.args, "", Some(Workflow), Some(Workflow), Some(Workflow), 0, None,
      0, 0, 0)
  }

  function Stored(): Graph { EmptyGraph(Workflow, Group).(children := [Child()], signatures := [Part]) }

  lemma Applies()
    ensures FlatGraph(Limited(), Workflow, Example()) == Ok(Stored())
  {
    var c := Limited();
    var bare := Child().(workflow := None, parent := None, root := Some(ChildId(Workflow, 0)));
    assert c.admits(bare);
    assert Prepare(c, Part, ChildId(Workflow, 0)) == Some(bare);
    assert FlatChildren(c, Workflow, Group, [Part], 0) == Ok([]);
    assert [Part][0] == Part && [] + [Child()] == [Child()];
    assert FlatChildren(c, Workflow, Group, [Part], 1) == Ok([Child()]);
    hide FlatChildren;
  }

  /** What one client call stores. */
  function AfterApply(): System { Empty.(rows := map[Workflow := Row(Stored(), Merge(map[], FirstIntents(Stored())))]) }

  lemma FirstAction(c: Client, ttl: Ttl, a: Action)
    ensures Reach(c, ttl, [a]) == Do(c, ttl, Empty, a)
  {
    hide Do;
    assert [a][..0] == [];
    assert Reach(c, ttl, []) == Empty;
  }

  lemma ApplyIs(c: Client, ttl: Ttl, s: System, g: Graph)
    ensures Do(c, ttl, s, ApplyCanvas(g)) == DoApplyCanvas(c, s, g)
  {
    hide DoApplyCanvas;
  }

  lemma ApplyStores(ttl: Ttl)
    ensures Reach(Limited(), ttl, [ApplyCanvas(Stored())]) == AfterApply()
  {
    hide Reach, Do, DoApplyCanvas, AfterApply, Stored, Limited;
    FirstAction(Limited(), ttl, ApplyCanvas(Stored()));
    ApplyIs(Limited(), ttl, Empty, Stored());
    AppliesHere();
  }

  lemma AppliesHere()
    ensures DoApplyCanvas(Limited(), Empty, Stored()) == AfterApply()
  {
    Applies();
    FlatGraphStarts(Limited(), Workflow, Example());
    hide FlatGraph, FlatStart, Merge, FirstIntents;
    assert Empty.rows[Workflow := AfterApply().rows[Workflow]] == AfterApply().rows;
  }

  /** Not every stored graph passes repair: this one arises, is stored within all limits and waits for
      its task, and repair refuses it, because its child is not valid with its links. */
  lemma RepairCanRefuse(ttl: Ttl)
    ensures FlatGraph(Limited(), Workflow, Example()).Ok? && FlatGraph(Limited(), Workflow, Example()).value == Stored()
    ensures Arises(Limited(), ttl, AfterApply()) && Storable(Limited(), Stored()) && !Stored().state.Terminal()
    ensures Prepare(Limited(), Part, ChildId(Workflow, 0)).Some? && !Limited().admits(Child())
    ensures !RepairShape(Limited(), AfterApply().rows[Workflow].graph, Workflow)
  {
    Applies();
    ApplyStores(ttl);
    hide FlatGraph, Reach, Merge;
    assert Prepare(Limited(), Part, ChildId(Workflow, 0)).Some?;
    assert Stored().children[0] == Child();
  }
}
