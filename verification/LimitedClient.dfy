/** A client with a limit on envelopes, as Envelope.Validate has one: the links to a workflow count
    towards it, so that an envelope may be valid when it is prepared and too large once linked. */
module LimitedClient {
  import opened Protocol

  function Size(v: Value): nat {
    match v
    case List(elems) => 1 + |elems|
    case _ => 1
  }

  function Link(id: Option<Id>): nat { if id.Some? then 1 else 0 }

  /** The size of an envelope grows with its arguments and with each link it carries. */
  function Weight(e: Envelope): nat { Size(e.args) + Link(e.workflow) + Link(e.parent) + Link(e.root) }

  const Limit: nat := 4

  function Limited(): Client {
    Client(t => true, t => Named(0), s => Some(SliceOf(Named(0))), (t, a) => true, t => None, s => true,
           (e: Envelope) => Weight(e) <= Limit, (a, f, v) => None, v => Size(v), g => 0, b => 0)
  }

  const Workflow: Id := Fresh(0)
}
