/** The values that cross the engine's store boundaries: identities, task states,
    envelopes, canvases, graphs and intents. JSON documents are abstract `Value`s,
    instants are naturals whose 0 is the zero time, and the two hash constructions
    of the protocol (stable identities and digests) are injective by construction. */
module Protocol {

  datatype Option<+T> = None | Some(value: T) {
    function GetOr(default: T): T { if Some? then value else default }
  }

  datatype Error =
    | Invalid | UnknownTask | NotFound | Busy | LeaseLost | Conflict
    | Pinned | Denied | Unavailable | Canceled | WorkflowSize

  datatype Result<+T> = Ok(value: T) | Err(error: Error)

  /** `Stable(parent, label)` is the identity StableID derives from a parent and a label. */
  datatype Id = Fresh(serial: nat) | Stable(parent: Id, tag: Label)

  datatype Label =
    | TaskLabel(n: nat) | CollectLabel(n: nat) | ChildLabel(n: nat) | BodyLabel
    | DispatchLabel(task: Id) | CancelLabel(task: Id) | UnpinLabel(task: Id)
    | CompletionLabel | RetryLabel(n: nat) | OccurrenceLabel(due: nat)
    | ReplacementLabel | ReplaceLabel | ReplacementCancelLabel | ReplacementCompletionLabel

  datatype State = Scheduled | Queued | Running | RetryWait | Succeeded | Failed | Revoked | Expired {
    predicate Terminal() { Succeeded? || Failed? || Revoked? || Expired? }
  }

  datatype Failure =
    | ParentFailed | WorkflowInput | GroupFailed | ChainFailed | ChainInput | ChordInput
    | CallbackInput | CanceledBeforeDispatch | WorkflowRevoked | TaskRevoked | BudgetExceeded
    | ReplacementRevoked | ReplacementOutput | TaskError(code: string)

  datatype Value = Null | Atom(n: int) | List(elems: seq<Value>)

  /** What a task or a barrier ended with. */
  datatype Outcome = Outcome(state: State, output: Option<Value>, failure: Option<Failure>)

  datatype Completion = Completion(id: Id, outcome: Outcome)

  /** The Go types that the compiler compares: a raw JSON list is a slice of `Named(0)`. */
  datatype Ty = Named(n: nat) | SliceOf(elem: Ty)

  datatype TaskRef = TaskRef(name: string, version: nat)

  datatype Signature = Signature(
    task: TaskRef, args: Value, immutable: bool, parentField: Option<string>,
    scope: string, eta: nat, expires: nat)

  datatype Envelope = Envelope(
    id: Id, task: TaskRef, args: Value, scope: string,
    workflow: Option<Id>, parent: Option<Id>, root: Option<Id>,
    retries: nat, maxRetries: Option<nat>, eta: nat, expires: nat, depth: nat)

  datatype CanvasKind =
    TaskCanvas | ChainCanvas | GroupCanvas | ChordCanvas | SequenceCanvas | ParallelCanvas | UnknownCanvas

  datatype Canvas = Canvas(kind: CanvasKind, signatures: seq<Signature>, callback: Option<Signature>,
    steps: seq<Canvas>)

  datatype NodeKind = TaskNode | CollectNode

  datatype CanvasNode = CanvasNode(
    id: Id, kind: NodeKind, deps: seq<Id>, waitFor: seq<Id>,
    signature: Option<Signature>, dispatched: bool)

  datatype GraphKind = Chain | Group | Chord | Dag

  datatype Graph = Graph(
    id: Id, kind: GraphKind, scope: string,
    children: seq<Envelope>, signatures: seq<Signature>,
    callback: Option<Signature>, callbackId: Option<Id>,
    members: map<Id, Completion>, state: State, output: Option<Value>, failure: Option<Failure>,
    next: nat, revision: nat, callbackClaimed: bool, callbackEnvelope: Option<Envelope>,
    cancelRequested: bool, plan: seq<CanvasNode>, rootNode: Option<Id>,
    originTask: Option<Id>, originDigest: Option<Envelope>, abortFailure: Option<Failure>)

  datatype Payload =
    | Publish(envelope: Envelope)
    | Fail(envelope: Envelope, failure: Option<Failure>, state: Option<State>)
    | CancelTask(envelope: Envelope)
    | Complete(workflow: Id, completion: Completion)
    | Unpin(target: Id)
    | Replace(graph: Graph)
    | CompleteReplacement(workflow: Id, target: Id, completion: Completion)
    | CancelWorkflow(workflow: Id, envelope: Envelope)

  datatype Intent = Intent(id: Id, source: Id, payload: Payload)

  /** The parts of a client that the engine calls but does not define: the task registry,
      `Envelope.Validate`, JSON field merging and the JSON byte budget. */
  datatype Client = Client(
    known: TaskRef -> bool,
    outputType: TaskRef -> Ty,
    bindingType: Signature -> Option<Ty>,
    validate: (TaskRef, Value) -> bool,
    maxRetries: TaskRef -> Option<nat>,
    preparable: Signature -> bool,
    admits: Envelope -> bool,
    setField: (Value, string, Value) -> Option<Value>,
    bytes: Value -> nat,
    graphBytes: Graph -> nat,
    batchBytes: seq<Intent> -> nat)
  {
    /** withinGraphBudget. An empty batch encodes to a few bytes, below every limit. */
    predicate fits(g: Graph, batch: seq<Intent>, limit: nat) {
      graphBytes(g) <= limit && (batch == [] || batchBytes(batch) <= limit)
    }
  }

  const MaxUint64: nat := 0xFFFF_FFFF_FFFF_FFFF
  const MaxWorkflowInitialBytes: nat := 0x20_0000
  const MaxWorkflowWorkingBytes: nat := 0x40_0000
  const MaxWorkflowDurableBytes: nat := 0x80_0000
  const MaxReplacementDepth: nat := 16

  predicate UniqueIds(batch: seq<Intent>) {
    forall i, j | 0 <= i < j < |batch| :: batch[i].id != batch[j].id
  }

  /** The intents one write may carry: both stores refuse any other batch. */
  predicate BatchOk(source: Id, batch: seq<Intent>) {
    UniqueIds(batch) && forall i | 0 <= i < |batch| :: batch[i].source == source
  }

  function Later(a: nat, b: nat): nat { if a > b then a else b }

  /** The immutable part of an envelope: retry count and ETA are not hashed. */
  function Digest(e: Envelope): Envelope { e.(eta := 0, retries := 0) }

  /** Signature.bind followed by taking the arguments. A missing upstream document
      leaves no arguments, which no task accepts. */
  function BindArgs(c: Client, s: Signature, upstream: Option<Value>): Option<Value> {
    if s.immutable then Some(s.args)
    else if s.parentField.None? then upstream
    else c.setField(s.args, s.parentField.value, upstream.GetOr(Null))
  }

  /** Client.prepare for a signature that carries a fixed identity. */
  function Prepare(c: Client, s: Signature, id: Id): Option<Envelope> {
    if !c.known(s.task) || !c.preparable(s) || !c.validate(s.task, s.args) then None else
      var e := Envelope(id, s.task, s.args, s.scope, None, None, Some(id), 0, c.maxRetries(s.task), s.eta, s.expires,
        0);
      if c.admits(e) then Some(e) else None
  }

  function DispatchIntent(source: Id, e: Envelope): Intent {
    Intent(Stable(source, DispatchLabel(e.id)), source, Publish(e))
  }

  /** The dispatch identity carrying a pre-dispatch failure instead of a publication. */
  function FailIntent(source: Id, e: Envelope, failure: Option<Failure>, state: Option<State>): Intent {
    Intent(Stable(source, DispatchLabel(e.id)), source, Fail(e, failure, state))
  }

  function UnpinIntent(source: Id, target: Id): Intent {
    Intent(Stable(source, UnpinLabel(target)), source, Unpin(target))
  }

  function MarshalList(outputs: seq<Option<Value>>): Value {
    List(seq(|outputs|, i requires 0 <= i < |outputs| => outputs[i].GetOr(Null)))
  }

  function EmptyGraph(id: Id, kind: GraphKind): Graph {
    Graph(id, kind, "", [], [], None, None, map[], Running, None, None, 0, 1, false, None,
          false, [], None, None, None, None)
  }
}
