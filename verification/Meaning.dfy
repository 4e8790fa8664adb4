/** What a canvas means, independently of any graph: the outcome that running its tasks in
    the declared composition yields, given what each task does with the arguments it gets.
    Compilation is proved to preserve this meaning and to produce a well-formed plan. */
module Meaning {
  import opened Protocol

  /** What the tasks of one workflow do and which arguments the engine lets them have. Tasks are
      named by their position in declaration order; `admits` is the envelope check with those
      arguments, and `rechecks` whether it is repeated for an immutable task, whose arguments were
      checked when the workflow was made. */
  datatype World = World(run: (nat, Value) -> Outcome, admits: (nat, Value) -> bool, rechecks: bool)

  function Failing(f: Failure): Outcome { Outcome(Failed, None, Some(f)) }

  /** The arguments a task runs with, or why it is refused, given its upstream outcome. */
  datatype Admission = Admitted(args: Value) | Refused(failure: Failure)

  function Admit(c: Client, w: World, s: Signature, input: Option<Outcome>, k: nat): Admission {
    if input.Some? && input.value.state != Succeeded then Refused(ParentFailed)
    else if input.None? || (s.immutable && !w.rechecks) then Admitted(s.args)
    else
      var args := BindArgs(c, s, input.value.output);
      if args.Some? && c.known(s.task) && c.validate(s.task, args.value) && w.admits(k, args.value)
      then Admitted(args.value) else Refused(WorkflowInput)
  }

  function MeanTask(c: Client, w: World, s: Signature, input: Option<Outcome>, k: nat): Outcome {
    match Admit(c, w, s, input, k)
    case Admitted(args) => w.run(k, args)
    case Refused(failure) => Failing(failure)
  }

  /** A barrier: fails when a part failed, otherwise lists the parts' outputs in order. */
  function Gather(parts: seq<Outcome>, control: Option<Outcome>): Outcome {
    if (exists i | 0 <= i < |parts| :: parts[i].state != Succeeded) ||
       (control.Some? && control.value.state != Succeeded)
    then Failing(GroupFailed)
    else Outcome(Succeeded, Some(MarshalList(seq(|parts|, i requires 0 <= i < |parts| => parts[i].output))), None)
  }

  /** An empty barrier still waits for its input. */
  function MeanGroup(parts: seq<Outcome>, input: Option<Outcome>): Outcome {
    Gather(parts, if parts == [] then input else None)
  }

  /** The number of tasks a canvas declares. */
  function TaskCount(canvas: Canvas): nat
    decreases canvas, 1
  {
    |canvas.signatures| + (if canvas.callback.Some? then 1 else 0) + TaskCounts(canvas.steps)
  }

  function TaskCounts(steps: seq<Canvas>): nat
    decreases steps, 0
  {
    if steps == [] then 0 else TaskCount(steps[0]) + TaskCounts(steps[1..])
  }

  function MeanChain(c: Client, w: World, sigs: seq<Signature>, previous: Option<Outcome>, k: nat): Option<Outcome>
    decreases sigs
  {
    if sigs == [] then previous
    else MeanChain(c, w, sigs[1..], Some(MeanTask(c, w, sigs[0], previous, k)), k + 1)
  }

  function MeanTasks(c: Client, w: World, sigs: seq<Signature>, input: Option<Outcome>, k: nat): seq<Outcome> {
    seq(|sigs|, i requires 0 <= i < |sigs| => MeanTask(c, w, sigs[i], input, k + i))
  }

  function LastMeaning(previous: Option<Outcome>): Outcome {
    if previous.Some? then previous.value else Gather([], None)
  }

  /** The meaning of a canvas whose first task has position `k`. Canvases the compiler
      refuses get an arbitrary one. */
  function Mean(c: Client, w: World, canvas: Canvas, input: Option<Outcome>, k: nat): Outcome
    decreases canvas, 1
  {
    match canvas.kind
    case TaskCanvas =>
      if canvas.signatures == [] then LastMeaning(input) else MeanTask(c, w, canvas.signatures[0], input, k)
    case ChainCanvas => LastMeaning(MeanChain(c, w, canvas.signatures, input, k))
    case GroupCanvas => MeanGroup(MeanTasks(c, w, canvas.signatures, input, k), input)
    case ChordCanvas =>
      var barrier := MeanGroup(MeanTasks(c, w, canvas.signatures, input, k), input);
      if canvas.callback.None? then barrier
      else MeanTask(c, w, canvas.callback.value, Some(barrier), k + |canvas.signatures|)
    case SequenceCanvas => LastMeaning(MeanSequence(c, w, canvas.steps, input, k))
    case ParallelCanvas => MeanGroup(MeanParallel(c, w, canvas.steps, input, k), input)
    case UnknownCanvas => LastMeaning(input)
  }

  function MeanSequence(c: Client, w: World, steps: seq<Canvas>, previous: Option<Outcome>, k: nat): Option<Outcome>
    decreases steps, 0
  {
    if steps == [] then previous
    else MeanSequence(c, w, steps[1..], Some(Mean(c, w, steps[0], previous, k)), k + TaskCount(steps[0]))
  }

  function MeanParallel(c: Client, w: World, steps: seq<Canvas>, input: Option<Outcome>, k: nat): seq<Outcome>
    decreases steps, 0
  {
    if steps == [] then []
    else [Mean(c, w, steps[0], input, k)] + MeanParallel(c, w, steps[1..], input, k + TaskCount(steps[0]))
  }
}
