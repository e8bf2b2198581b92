/**
 * The behaviour of one workflow run, as functions of the run state: the step loop
 * (WorkflowExecutor.runStepLoop), the next-step resolver (getNextStepNo), the step
 * dispatcher (executeStep) and the default fork protocol of a multi-forking step
 * executor. The class in module Execution performs the same run in place and is
 * proved equal to these functions.
 */
module ExecutionSpec {
  import opened Wrappers
  import opened Strings
  import opened Workflow
  import opened JoinPoint

  /** The message when a step type's executor code cannot be loaded. */
  const ExecutorNotLoaded: string := "Unable to load workflow step executor"

  /** WorkflowRunLogStep, without its timestamps. */
  datatype LogEntry = LogEntry(stepId: int, seqNo: int, output: Value, message: Option<string>)

  /**
   * What a run changes as it goes: the container stack, the link map (fork ordering
   * reorders a step's list in place), the sequence-number counter, the run log's step
   * list and the context values.
   */
  datatype RunState = RunState(stack: seq<int>, links: LinkMap, seqNo: int, log: seq<LogEntry>, values: Values)

  /**
   * What a run reads but never changes: the step map, the registered step types, the
   * workflow type's executor and value conversion.
   */
  datatype Env = Env(steps: StepMap, stepTypes: map<string, StepType>, typeExecutor: TypeExecutor, coerce: Coercion)

  /** The outbound-link mode of a step's registered type. */
  predicate HasMode(env: Env, step: Step, mode: OutboundLinkMode)
  {
    step.typeName in env.stepTypes && env.stepTypes[step.typeName].mode == mode
  }

  /**
   * A conditioned link is taken when its condition value, converted to the class of
   * the output, equals the output; a null output equals nothing and a failed
   * conversion is no match.
   */
  predicate Matches(coerce: Coercion, condition: string, output: Value)
  {
    output != Null && AsType(coerce, ClassOf(output), condition) == Some(output)
  }

  /** Whether the scan takes a link: an unconditioned link always is taken. */
  predicate Takes(coerce: Coercion, link: Link, output: Value)
  {
    link.conditionValue.None? || Matches(coerce, link.conditionValue.value, output)
  }

  /** The link scan of getNextStepNo: the destination of the first link taken, if any. */
  function ScanLinks(coerce: Coercion, links: seq<Link>, output: Value): (r: Option<Option<int>>)
    ensures r.None? <==> forall i :: 0 <= i < |links| ==> !Takes(coerce, links[i], output)
    ensures r.Some? ==> exists i :: 0 <= i < |links| && Takes(coerce, links[i], output)
                                    && r.value == links[i].toStepNo
                                    && forall j :: 0 <= j < i ==> !Takes(coerce, links[j], output)
  {
    if |links| == 0 then None
    else if Takes(coerce, links[0], output) then Some(links[0].toStepNo)
    else
      var r := ScanLinks(coerce, links[1..], output);
      assert forall i :: 1 <= i < |links| ==> links[1..][i - 1] == links[i];
      if r.Some? then
        var k :| 0 <= k < |links[1..]| && Takes(coerce, links[1..][k], output) && r.value == links[1..][k].toStepNo
                 && forall j :: 0 <= j < k ==> !Takes(coerce, links[1..][j], output);
        assert forall j :: 0 <= j < k + 1 ==> !Takes(coerce, links[j], output) by {
          forall j | 0 <= j < k + 1
            ensures !Takes(coerce, links[j], output)
          {
            if j > 0 {
              assert links[1..][j - 1] == links[j];
            }
          }
        }
        r
      else
        r
  }

  /**
   * getNextStepNo: the number of the step after `from`, and the container stack after
   * resolving it. In pop mode `from` is the step popped off the stack and may be
   * missing from the step map. A container entered forward pushes its own number; a
   * scan that takes no link pops one frame and resolves the popped container in pop
   * mode.
   */
  /** A VARIABLE step goes to the join point of its links' destinations; a missing join step is a null dereference. */
  function VariableNext(env: Env, links: LinkMap, step: Step): Outcome<Option<int>>
  {
    if step.stepNo !in links then Fail(NullDereference)
    else
      match FirstJoin(Destinations(links[step.stepNo]), env.steps, links)
      case NoJoin => Ok(None)
      case Joined(_, stepNo) => Ok(Some(stepNo))
      case JoinStepMissing(_) => Fail(NullDereference)
  }

  function Resolve(env: Env, links: LinkMap, output: Value, from: Option<Step>, isPop: bool, stack: seq<int>)
    : (Outcome<Option<int>>, seq<int>)
    decreases |stack| + (if isPop then 0 else 1)
  {
    if from.None? || from.value.typeName !in env.stepTypes then (Fail(NullDereference), stack)
    else
      var step := from.value;
      var mode := env.stepTypes[step.typeName].mode;
      if mode == ZERO then (Ok(None), stack)
      else
        var out := if mode != CONTAINER then output else if isPop then Str("pop") else Str("push");
        var stack1 := if mode == CONTAINER && !isPop then stack + [step.stepNo] else stack;
        if mode == VARIABLE then (VariableNext(env, links, step), stack1)
        else
          match ScanLinks(env.coerce, LinksOf(links, step.stepNo), out)
          case Some(dest) => (Ok(dest), stack1)
          case None =>
            if |stack1| == 0 then (Ok(None), stack1)
            else
              var top := stack1[|stack1| - 1];
              Resolve(env, links, Int(top), Lookup(env.steps, Some(top)), true, stack1[..|stack1| - 1])
  }

  /** An exception thrown by a hook ends the enclosing run part with that message. */
  function Lift<T>(o: Outcome<T>): (r: Exec<T>)
    ensures o.Ok? <==> r.Done?
    ensures o.Ok? ==> r.value == o.value
    ensures o.Fail? ==> r == Threw(o.error)
  {
    match o
    case Ok(v) => Done(v)
    case Fail(e) => Threw(e)
  }

  /**
   * runStepLoop: from `stepNo`, execute steps one after another until there is no
   * next step, the next step is `stop`, or a step asks the workflow to stop at once
   * (the result is then true). Each executed step appends one log entry, numbered from
   * the shared counter after the step has run.
   */
  function RunLoop(env: Env, fuel: nat, stepNo: Option<int>, stop: Option<int>, st: RunState): (Exec<bool>, RunState)
    decreases fuel, 1, 0
  {
    if stepNo.None? then (Done(false), st)
    else if fuel == 0 then (Diverged, st)
    else if stepNo.value !in env.steps then (Threw("Step not found by stepNo: " + IntToString(stepNo.value)), st)
    else
      var step := env.steps[stepNo.value];
      var (res, st1) := ExecStep(env, fuel - 1, step, st);
      match res
      case Threw(e) => (Threw(e), st1)
      case Diverged => (Diverged, st1)
      case Done(out) => Advance(env, fuel - 1, step, out, stop, st1)
  }

  /**
   * The rest of a step-loop iteration once the step has run: resolve its successor,
   * log the step with the next number, then stop at the stop step (checked first),
   * stop when the step asked to, or go on with the successor.
   */
  function Advance(env: Env, fuel: nat, step: Step, out: StepOutput, stop: Option<int>, st: RunState): (Exec<bool>, RunState)
    decreases fuel, 2, 0
  {
    var (next, stack1) := Resolve(env, st.links, out.data, Some(step), false, st.stack);
    match next
    case Fail(e) => (Threw(e), st.(stack := stack1))
    case Ok(nextNo) =>
      var st1 := st.(stack := stack1, seqNo := st.seqNo + 1, log := st.log + [LogEntry(step.id, st.seqNo, out.data, out.message)]);
      if stop.Some? && nextNo == stop then (Done(false), st1)
      else if out.halt then (Done(true), st1)
      else RunLoop(env, fuel, nextNo, stop, st1)
  }

  /**
   * executeStep: an unregistered type throws; a container produces an empty output
   * without running anything; any other step runs between the workflow type's
   * preStep and postStep hooks.
   */
  function ExecStep(env: Env, fuel: nat, step: Step, st: RunState): (Exec<StepOutput>, RunState)
    decreases fuel, 6, 0
  {
    if step.typeName !in env.stepTypes then (Threw("Workflow step type not found by name: " + step.typeName), st)
    else
      var stepType := env.stepTypes[step.typeName];
      if stepType.mode == CONTAINER then (Done(EmptyOutput), st)
      else if stepType.executor.None? then (Threw(ExecutorNotLoaded), st)
      else
        match env.typeExecutor.preStep(step, st.values)
        case Fail(e) => (Threw(e), st)
        case Ok(values1) =>
          var st1 := st.(values := values1);
          var (res, st2) :=
            match stepType.executor.value
            case Simple(execute) =>
              (match execute(step, st1.values)
               case Fail(e) => (Threw(e), st1)
               case Ok((out, values2)) => (Done(out), st1.(values := values2)))
            case MultiForking(hooks) => ForkStep(env, fuel, hooks, step, st1);
          match res
          case Done(out) => (Lift(env.typeExecutor.postStep(step, st2.values, out)), st2)
          case Threw(e) => (Threw(e), st2)
          case Diverged => (Diverged, st2)
  }

  /**
   * The default execute of a multi-forking step: preRun, reorder the step's links in
   * place, find their join once, run the forks bounded by the join, then build the
   * step's output and run postRun; a fork that asked to stop makes the output ask too.
   */
  function ForkStep(env: Env, fuel: nat, hooks: ForkHooks, step: Step, st: RunState): (Exec<StepOutput>, RunState)
    decreases fuel, 5, 0
  {
    match hooks.preRun(step, st.values)
    case Fail(e) => (Threw(e), st)
    case Ok(values1) =>
      if step.stepNo !in st.links then (Threw(NullDereference), st.(values := values1))
      else
        var forks := hooks.sortForks(st.links[step.stepNo], step, values1);
        var st1 := st.(values := values1, links := st.links[step.stepNo := forks]);
        match FirstJoin(Destinations(forks), env.steps, st1.links)
        case JoinStepMissing(_) => (Threw(NullDereference), st1)
        case NoJoin => ForkFinish(env, fuel, hooks, step, forks, None, st1)
        case Joined(_, stopNo) => ForkFinish(env, fuel, hooks, step, forks, Some(stopNo), st1)
  }

  /** The fork loop, then makeWorkflowStepOutput and postRun. */
  function ForkFinish(env: Env, fuel: nat, hooks: ForkHooks, step: Step, forks: seq<Link>, stop: Option<int>, st: RunState)
    : (Exec<StepOutput>, RunState)
    decreases fuel, 4, |forks| + 1
  {
    var (loop, st1) := ForkLoop(env, fuel, hooks, step, forks, 0, stop, st);
    match loop
    case Threw(e) => (Threw(e), st1)
    case Diverged => (Diverged, st1)
    case Done(halt) =>
      match hooks.makeWorkflowStepOutput(step, st1.values)
      case Fail(e) => (Threw(e), st1)
      case Ok((out, values2)) =>
        match hooks.postRun(step, values2)
        case Fail(e) => (Threw(e), st1.(values := values2))
        case Ok(values3) => (Done(if halt then out.(halt := true) else out), st1.(values := values3))
  }

  /** The forks from index i on; the result is true when a branch asked the workflow to stop. */
  function ForkLoop(env: Env, fuel: nat, hooks: ForkHooks, step: Step, forks: seq<Link>, i: nat, stop: Option<int>, st: RunState)
    : (Exec<bool>, RunState)
    requires i <= |forks|
    decreases fuel, 4, |forks| - i
  {
    if i == |forks| then (Done(false), st)
    else
      var (res, st1) := ForkOne(env, fuel, hooks, step, forks[i], stop, st);
      match res
      case Threw(e) => (Threw(e), st1)
      case Diverged => (Diverged, st1)
      case Done(halt) => if halt then (Done(true), st1) else ForkLoop(env, fuel, hooks, step, forks, i + 1, stop, st1)
  }

  /**
   * One fork: take its sequence number, ask the hook whether to run it, run the branch
   * from the link's destination up to the join when the hook's output is true, then log
   * the fork with the hook's output.
   */
  function ForkOne(env: Env, fuel: nat, hooks: ForkHooks, step: Step, link: Link, stop: Option<int>, st: RunState)
    : (Exec<bool>, RunState)
    decreases fuel, 3, 0
  {
    var seqNo := st.seqNo;
    var st1 := st.(seqNo := seqNo + 1);
    match hooks.conditionallyExecuteFork(step, link, st1.values)
    case Fail(e) => (Threw(e), st1)
    case Ok((out, values2)) =>
      var st2 := st1.(values := values2);
      var (branch, st3) := if out.data == Bool(true) then RunLoop(env, fuel, link.toStepNo, stop, st2) else (Done(false), st2);
      match branch
      case Threw(e) => (Threw(e), st3)
      case Diverged => (Diverged, st3)
      case Done(halt) => (Done(halt), st3.(log := st3.log + [LogEntry(step.id, seqNo, out.data, out.message)]))
  }
}
