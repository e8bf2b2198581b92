/**
 * WorkflowExecutor as the Java class runs it: the container stack and the run's payload
 * are fields updated in place, the step loop is a while loop, the fork protocol a loop
 * over the fork links. Each method is proved to leave the result and the state that the
 * functions of module ExecutionSpec describe.
 */
module Execution {
  import opened Wrappers
  import opened Strings
  import opened Workflow
  import opened JoinPoint
  import opened ExecutionSpec

  class WorkflowExecutor {
    /** The step map, step types, workflow-type executor and value conversion of the run. */
    const env: Env
    /** containerStack; its top is the last element. */
    var containerStack: seq<int>
    /** The payload's link map. */
    var linkMap: LinkMap
    /** The payload's sequence-number counter. */
    var seqNo: int
    /** The payload's log step list. */
    var logSteps: seq<LogEntry>
    /** The context's values. */
    var values: Values

    /** The run state the fields hold. */
    function State(): RunState
      reads this
    {
      RunState(containerStack, linkMap, seqNo, logSteps, values)
    }

    /**
     * An executor with a fresh payload (a counter at 1 and an empty log) over the
     * container stack it already holds: execute never clears that stack, so it is
     * empty only for a new executor.
     */
    constructor (env: Env, stack: seq<int>, linkMap: LinkMap, values: Values)
      ensures this.env == env
      ensures State() == RunState(stack, linkMap, 1, [], values)
    {
      this.env := env;
      this.containerStack := stack;
      this.linkMap := linkMap;
      this.seqNo := 1;
      this.logSteps := [];
      this.values := values;
    }

    /** getNextStepNo: resolves the next step, pushing and popping the container stack. */
    method GetNextStepNo(output: Value, from: Option<Step>, isPop: bool) returns (r: Outcome<Option<int>>)
      modifies this
      ensures (r, containerStack) == Resolve(env, linkMap, output, from, isPop, old(containerStack))
      ensures linkMap == old(linkMap) && seqNo == old(seqNo) && logSteps == old(logSteps) && values == old(values)
    {
      r, containerStack := NextStep(env, linkMap, output, from, isPop, containerStack);
    }

    /** The body of getNextStepNo over the container stack it pushes to and pops from. */
    static method NextStep(env: Env, linkMap: LinkMap, output: Value, from: Option<Step>, isPop: bool, stack: seq<int>)
      returns (r: Outcome<Option<int>>, stack': seq<int>)
      ensures (r, stack') == Resolve(env, linkMap, output, from, isPop, stack)
      decreases |stack| + (if isPop then 0 else 1)
    {
      stack' := stack;
      if from.None? || from.value.typeName !in env.stepTypes {
        return Fail(NullDereference), stack';
      }
      var step := from.value;
      var mode := env.stepTypes[step.typeName].mode;
      if mode == ZERO {
        return Ok(None), stack';
      }
      var out := output;
      if mode == CONTAINER {
        if isPop {
          out := Str("pop");
        } else {
          out := Str("push");
          stack' := stack' + [step.stepNo];
        }
      }
      if mode == VARIABLE {
        r := NextOfVariable(env, linkMap, step);
        return;
      }
      var found := FindLink(env.coerce, LinksOf(linkMap, step.stepNo), out);
      if found.Some? {
        return Ok(found.value), stack';
      }
      if |stack'| > 0 {
        var popStepNo := stack'[|stack'| - 1];
        r, stack' := NextStep(env, linkMap, Int(popStepNo), Lookup(env.steps, Some(popStepNo)), true, stack'[..|stack'| - 1]);
        return;
      }
      return Ok(None), stack';
    }

    /** The VARIABLE case of getNextStepNo: the first join point of the step's link destinations. */
    static method NextOfVariable(env: Env, linkMap: LinkMap, step: Step) returns (r: Outcome<Option<int>>)
      ensures r == VariableNext(env, linkMap, step)
    {
      if step.stepNo !in linkMap {
        return Fail(NullDereference);
      }
      var join := FindFirstJoinPoint(Destinations(linkMap[step.stepNo]), env.steps, linkMap);
      match join
      case NoJoin => return Ok(None);
      case Joined(_, stepNo) => return Ok(Some(stepNo));
      case JoinStepMissing(_) => return Fail(NullDereference);
    }

    /** The link loop of getNextStepNo: the destination of the first link taken, if any. */
    static method FindLink(coerce: Coercion, links: seq<Link>, output: Value) returns (r: Option<Option<int>>)
      ensures r == ScanLinks(coerce, links, output)
    {
      var i := 0;
      while i < |links|
        invariant 0 <= i <= |links|
        invariant forall j :: 0 <= j < i ==> !Takes(coerce, links[j], output)
      {
        var link := links[i];
        if link.conditionValue == None || (output != Null && AsType(coerce, ClassOf(output), link.conditionValue.value) == Some(output)) {
          assert Takes(coerce, links[i], output);
          ghost var k :| 0 <= k < |links| && Takes(coerce, links[k], output) && ScanLinks(coerce, links, output).value == links[k].toStepNo
                         && forall j :: 0 <= j < k ==> !Takes(coerce, links[j], output);
          assert k == i;
          return Some(link.toStepNo);
        }
        i := i + 1;
      }
      return None;
    }

    /** runStepLoop; fuel bounds the number of iterations. */
    method RunStepLoop(fuel: nat, startStepNo: Option<int>, stopStepNo: Option<int>) returns (r: Exec<bool>)
      modifies this
      ensures (r, State()) == RunLoop(env, fuel, startStepNo, stopStepNo, old(State()))
      decreases fuel, 1, 0
    {
      var stepNo := startStepNo;
      var f: nat := fuel;
      while stepNo.Some?
        invariant f <= fuel
        invariant RunLoop(env, f, stepNo, stopStepNo, State()) == RunLoop(env, fuel, startStepNo, stopStepNo, old(State()))
        decreases f
      {
        var ended, next := RunIteration(f, stepNo.value, stopStepNo);
        if ended.Some? {
          return ended.value;
        }
        stepNo := next;
        f := f - 1;
      }
      return Done(false);
    }

    /**
     * One iteration of runStepLoop: look the step up, execute it, then resolve its
     * successor and log it; the loop ends when the iteration says so.
     */
    method RunIteration(fuel: nat, stepNo: int, stopStepNo: Option<int>) returns (ended: Option<Exec<bool>>, next: Option<int>)
      modifies this
      ensures ended.Some? ==> (ended.value, State()) == RunLoop(env, fuel, Some(stepNo), stopStepNo, old(State()))
      ensures ended.None? ==> fuel > 0 && RunLoop(env, fuel - 1, next, stopStepNo, State()) == RunLoop(env, fuel, Some(stepNo), stopStepNo, old(State()))
      decreases fuel, 0, 0
    {
      if fuel == 0 {
        return Some(Diverged), None;
      }
      if stepNo !in env.steps {
        return Some(Threw("Step not found by stepNo: " + IntToString(stepNo))), None;
      }
      var step := env.steps[stepNo];
      var output := ExecuteStep(fuel - 1, step);
      if output.Threw? {
        return Some(Threw(output.message)), None;
      } else if output.Diverged? {
        return Some(Diverged), None;
      }
      ended, next := LogAndAdvance(fuel - 1, step, output.value, stopStepNo);
    }

    /**
     * The rest of a step-loop iteration once the step has run: resolve the successor,
     * log the step with the next number, and end the loop at the stop step or when the
     * step asked to halt; otherwise the loop goes on with the successor.
     */
    method LogAndAdvance(fuel: nat, step: Step, out: StepOutput, stopStepNo: Option<int>) returns (ended: Option<Exec<bool>>, next: Option<int>)
      modifies this
      ensures ended.Some? ==> (ended.value, State()) == Advance(env, fuel, step, out, stopStepNo, old(State()))
      ensures ended.None? ==> RunLoop(env, fuel, next, stopStepNo, State()) == Advance(env, fuel, step, out, stopStepNo, old(State()))
    {
      var resolved := GetNextStepNo(out.data, Some(step), false);
      if resolved.Fail? {
        return Some(Threw(resolved.error)), None;
      }
      logSteps := logSteps + [LogEntry(step.id, seqNo, out.data, out.message)];
      seqNo := seqNo + 1;
      if stopStepNo.Some? && resolved.value == stopStepNo {
        return Some(Done(false)), None;
      }
      if out.halt {
        return Some(Done(true)), None;
      }
      return None, resolved.value;
    }

    /** executeStep: the container shortcut, then preStep, the step's executor and postStep. */
    method ExecuteStep(fuel: nat, step: Step) returns (r: Exec<StepOutput>)
      modifies this
      ensures (r, State()) == ExecStep(env, fuel, step, old(State()))
      decreases fuel, 6, 0
    {
      if step.typeName !in env.stepTypes {
        return Threw("Workflow step type not found by name: " + step.typeName);
      }
      var stepType := env.stepTypes[step.typeName];
      if stepType.mode == CONTAINER {
        return Done(EmptyOutput);
      }
      if stepType.executor.None? {
        return Threw(ExecutorNotLoaded);
      }
      var pre := env.typeExecutor.preStep(step, values);
      if pre.Fail? {
        return Threw(pre.error);
      }
      values := pre.value;
      var output: Exec<StepOutput>;
      match stepType.executor.value {
        case Simple(execute) =>
          var res := execute(step, values);
          if res.Fail? {
            return Threw(res.error);
          }
          values := res.value.1;
          output := Done(res.value.0);
        case MultiForking(hooks) =>
          output := ExecuteForks(fuel, hooks, step);
      }
      match output
      case Threw(e) => return Threw(e);
      case Diverged => return Diverged;
      case Done(out) => return Lift(env.typeExecutor.postStep(step, values, out));
    }

    /**
     * The default execute of a multi-forking step executor: preRun, sort the fork links
     * in place, find their join, run each fork the inclusion hook activates up to the
     * join, log every fork, and stop the loop after a branch asked to stop.
     */
    method ExecuteForks(fuel: nat, hooks: ForkHooks, step: Step) returns (r: Exec<StepOutput>)
      modifies this
      ensures (r, State()) == ForkStep(env, fuel, hooks, step, old(State()))
      decreases fuel, 5, 0
    {
      var pre := hooks.preRun(step, values);
      if pre.Fail? {
        return Threw(pre.error);
      }
      values := pre.value;
      if step.stepNo !in linkMap {
        return Threw(NullDereference);
      }
      var forkLinks := hooks.sortForks(linkMap[step.stepNo], step, values);
      linkMap := linkMap[step.stepNo := forkLinks];
      var join := FindFirstJoinPoint(Destinations(forkLinks), env.steps, linkMap);
      if join.JoinStepMissing? {
        return Threw(NullDereference);
      }
      var stopStepNo := if join.Joined? then Some(join.stepNo) else None;
      assert ForkStep(env, fuel, hooks, step, old(State())) == ForkFinish(env, fuel, hooks, step, forkLinks, stopStepNo, State());
      var loop := RunForks(fuel, hooks, step, forkLinks, stopStepNo);
      if loop.Threw? {
        return Threw(loop.message);
      } else if loop.Diverged? {
        return Diverged;
      }
      var halt := loop.value;
      var made := hooks.makeWorkflowStepOutput(step, values);
      if made.Fail? {
        return Threw(made.error);
      }
      values := made.value.1;
      var post := hooks.postRun(step, values);
      if post.Fail? {
        return Threw(post.error);
      }
      values := post.value;
      var output := made.value.0;
      if halt {
        output := output.(halt := true);
      }
      return Done(output);
    }

    /** The loop over the fork links; the result is true when a branch asked to stop. */
    method RunForks(fuel: nat, hooks: ForkHooks, step: Step, forkLinks: seq<Link>, stopStepNo: Option<int>) returns (r: Exec<bool>)
      modifies this
      ensures (r, State()) == ForkLoop(env, fuel, hooks, step, forkLinks, 0, stopStepNo, old(State()))
      decreases fuel, 4, |forkLinks|
    {
      var i := 0;
      while i < |forkLinks|
        invariant 0 <= i <= |forkLinks|
        invariant ForkLoop(env, fuel, hooks, step, forkLinks, 0, stopStepNo, old(State()))
                  == ForkLoop(env, fuel, hooks, step, forkLinks, i, stopStepNo, State())
        decreases |forkLinks| - i
      {
        var fork := RunFork(fuel, hooks, step, forkLinks[i], stopStepNo);
        if fork.Threw? {
          return Threw(fork.message);
        } else if fork.Diverged? {
          return Diverged;
        } else if fork.value {
          return Done(true);
        }
        i := i + 1;
      }
      return Done(false);
    }

    /**
     * One fork: its sequence number is taken first, the branch runs up to the join when
     * the inclusion hook's output is true, and the fork's entry is appended last.
     */
    method RunFork(fuel: nat, hooks: ForkHooks, step: Step, link: Link, stopStepNo: Option<int>) returns (r: Exec<bool>)
      modifies this
      ensures (r, State()) == ForkOne(env, fuel, hooks, step, link, stopStepNo, old(State()))
      decreases fuel, 3, 0
    {
      var forkSeqNo := seqNo;
      seqNo := seqNo + 1;
      var hook := hooks.conditionallyExecuteFork(step, link, values);
      if hook.Fail? {
        return Threw(hook.error);
      }
      var out := hook.value.0;
      values := hook.value.1;
      var halt := false;
      if out.data == Bool(true) {
        var branch := RunStepLoop(fuel, link.toStepNo, stopStepNo);
        if branch.Threw? {
          return Threw(branch.message);
        } else if branch.Diverged? {
          return Diverged;
        }
        halt := branch.value;
      }
      logSteps := logSteps + [LogEntry(step.id, forkSeqNo, out.data, out.message)];
      return Done(halt);
    }
  }

  // ------------------------------------------------------------------ execute

  /** A stored workflow revision: its id, start step, steps and links. */
  datatype Revision = Revision(id: int, startStepNo: Option<int>, steps: seq<Step>, links: seq<Link>)

  /** What the database lookups give a run: the workflow's type name and its current revision. */
  datatype Loaded = Loaded(workflowTypeName: string, revision: Revision)

  datatype TxEvent = Committed | RolledBack | Closed

  /** A backend transaction, as the calls made on it. */
  class Transaction {
    var events: seq<TxEvent>

    constructor ()
      ensures events == []
    {
      events := [];
    }

    method Commit()
      modifies this
      ensures events == old(events) + [Committed]
    {
      events := events + [Committed];
    }

    method Rollback()
      modifies this
      ensures events == old(events) + [RolledBack]
    {
      events := events + [RolledBack];
    }

    method Close()
      modifies this
      ensures events == old(events) + [Closed]
    {
      events := events + [Closed];
    }
  }

  /** How a run ends; OutOfFuel stands for a run the fuel bound cut short. */
  datatype RunOutcome = Completed | Failed(message: string) | OutOfFuel

  /**
   * What execute leaves in the workflow output and the run log: the outcome, the
   * context values, the logged steps, the run log's error message, and whether the run
   * opened a transaction of its own; and the container stack the executor holds afterwards.
   */
  datatype RunReport = RunReport(outcome: RunOutcome, values: Values, log: seq<LogEntry>, errorMessage: Option<string>, txOpened: bool,
                                 stack: seq<int>)

  /** The context values a run starts with: the input values put over the context's own. */
  function StartValues(inputValues: Option<Values>, contextValues: Option<Values>): (r: Values)
    ensures forall k :: k in r <==> (inputValues.Some? && k in inputValues.value) || (contextValues.Some? && k in contextValues.value)
    ensures forall k :: inputValues.Some? && k in inputValues.value ==> r[k] == inputValues.value[k]
    ensures forall k :: contextValues.Some? && k in contextValues.value && !(inputValues.Some? && k in inputValues.value)
                        ==> r[k] == contextValues.value[k]
  {
    var input := if inputValues.Some? then inputValues.value else map[];
    if contextValues.None? then input else contextValues.value + input
  }

  /** The error message recorded on failure: one already set with content is kept. */
  function RecordedError(prior: Option<string>, message: string): Option<string>
  {
    if HasContent(prior) then prior else Some(message)
  }

  /** A failed run: the type executor's exception handler has run when there was one. */
  function FailedRun(e: string, handler: Option<(string, Values) -> Values>, values: Values, log: seq<LogEntry>,
                     prior: Option<string>, txOpened: bool, stack: seq<int>): RunReport
  {
    RunReport(Failed(e), if handler.Some? then handler.value(e, values) else values, log, RecordedError(prior, e), txOpened, stack)
  }

  /** How the start of execute ends: a failure before the step loop, or what the loop runs with. */
  datatype Setup =
    | EarlyFailure(report: RunReport)
    | Ready(revision: Revision, typeExecutor: TypeExecutor, values: Values, txOpened: bool)

  /**
   * The start of execute: load the workflow, its revision and its type's executor, run
   * preRun, then use the caller's transaction or open one.
   */
  function SetupRun(loaded: Outcome<Loaded>, workflowTypes: map<string, WorkflowType>, values0: Values, callerTx: bool,
                    prior: Option<string>, stack0: seq<int>): Setup
  {
    match loaded
    case Fail(e) => EarlyFailure(FailedRun(e, None, values0, [], prior, false, stack0))
    case Ok(ld) =>
      if ld.workflowTypeName !in workflowTypes then
        EarlyFailure(FailedRun("Workflow type not found by name: " + ld.workflowTypeName, None, values0, [], prior, false, stack0))
      else if workflowTypes[ld.workflowTypeName].executor.None? then EarlyFailure(FailedRun(ExecutorNotLoaded, None, values0, [], prior, false, stack0))
      else
        var typeExecutor := workflowTypes[ld.workflowTypeName].executor.value;
        match typeExecutor.preRun(values0)
        case Fail(e) => EarlyFailure(FailedRun(e, Some(typeExecutor.handleException), values0, [], prior, false, stack0))
        case Ok(values1) =>
          if !callerTx && typeExecutor.openTransaction.Fail? then
            EarlyFailure(FailedRun(typeExecutor.openTransaction.error, Some(typeExecutor.handleException), values1, [], prior, false, stack0))
          else Ready(ld.revision, typeExecutor, values1, !callerTx && typeExecutor.openTransaction.value)
  }

  /**
   * execute: the start above, then the step loop from the start step and postRun; any
   * exception is recorded in the run log.
   */
  function ExecuteRun(loaded: Outcome<Loaded>, workflowTypes: map<string, WorkflowType>, stepTypes: map<string, StepType>,
                      coerce: Coercion, inputValues: Option<Values>, contextValues: Option<Values>, callerTx: bool,
                      prior: Option<string>, stack0: seq<int>, fuel: nat): RunReport
  {
    match SetupRun(loaded, workflowTypes, StartValues(inputValues, contextValues), callerTx, prior, stack0)
    case EarlyFailure(report) => report
    case Ready(revision, typeExecutor, values, txOpened) => RunRevision(revision, typeExecutor, stepTypes, coerce, values, prior, txOpened, stack0, fuel)
  }

  /** The step loop over a loaded revision, from its start step, then the type executor's postRun. */
  function RunRevision(revision: Revision, typeExecutor: TypeExecutor, stepTypes: map<string, StepType>, coerce: Coercion,
                       values: Values, prior: Option<string>, txOpened: bool, stack0: seq<int>, fuel: nat): RunReport
  {
    var env := Env(StepMapOf(revision.steps), stepTypes, typeExecutor, coerce);
    var (res, st) := RunLoop(env, fuel, revision.startStepNo, None, RunState(stack0, LinkMapOf(revision.links), 1, [], values));
    match res
    case Diverged => RunReport(OutOfFuel, st.values, st.log, prior, txOpened, st.stack)
    case Threw(e) => FailedRun(e, Some(typeExecutor.handleException), st.values, st.log, prior, txOpened, st.stack)
    case Done(_) =>
      match typeExecutor.postRun(st.values)
      case Fail(e) => FailedRun(e, Some(typeExecutor.handleException), st.values, st.log, prior, txOpened, st.stack)
      case Ok(values2) => RunReport(Completed, values2, st.log, prior, txOpened, st.stack)
  }

  /** The calls a run makes on a transaction it opened itself. */
  function OwnedEvents(outcome: RunOutcome): seq<TxEvent>
  {
    match outcome
    case Completed => [Committed, Closed]
    case Failed(_) => [RolledBack, Closed]
    case OutOfFuel => []
  }

  /**
   * execute's transaction ownership and error-recording skeleton: a caller's transaction
   * is never touched; one the run opened is committed on success or rolled back on
   * error, and closed either way.
   */
  method Execute(loaded: Outcome<Loaded>, workflowTypes: map<string, WorkflowType>, stepTypes: map<string, StepType>,
                 coerce: Coercion, inputValues: Option<Values>, contextValues: Option<Values>, callerTx: Option<Transaction>,
                 prior: Option<string>, stack0: seq<int>, fuel: nat)
    returns (report: RunReport, owned: Option<Transaction>)
    ensures report == ExecuteRun(loaded, workflowTypes, stepTypes, coerce, inputValues, contextValues, callerTx.Some?, prior, stack0, fuel)
    ensures callerTx.Some? ==> callerTx.value.events == old(callerTx.value.events) && owned.None?
    ensures owned.Some? <==> report.txOpened
    ensures owned.Some? ==> fresh(owned.value) && owned.value.events == OwnedEvents(report.outcome)
  {
    var setup;
    setup, owned := Prepare(loaded, workflowTypes, StartValues(inputValues, contextValues), callerTx.Some?, prior, stack0);
    if setup.EarlyFailure? {
      return setup.report, owned;
    }
    report := ExecuteRevision(setup.revision, setup.typeExecutor, stepTypes, coerce, setup.values, prior, setup.txOpened, stack0, fuel);
    if owned.Some? {
      FinishOwned(owned.value, report.outcome);
    }
  }

  /** The start of execute, opening a transaction when the caller gave none and the type executor makes one. */
  method Prepare(loaded: Outcome<Loaded>, workflowTypes: map<string, WorkflowType>, values0: Values, callerTx: bool,
                 prior: Option<string>, stack0: seq<int>)
    returns (setup: Setup, owned: Option<Transaction>)
    ensures setup == SetupRun(loaded, workflowTypes, values0, callerTx, prior, stack0)
    ensures setup.EarlyFailure? ==> !setup.report.txOpened
    ensures owned.Some? <==> setup.Ready? && setup.txOpened
    ensures owned.Some? ==> fresh(owned.value) && owned.value.events == []
  {
    owned := None;
    if loaded.Fail? {
      return EarlyFailure(FailedRun(loaded.error, None, values0, [], prior, false, stack0)), None;
    }
    var ld := loaded.value;
    if ld.workflowTypeName !in workflowTypes {
      return EarlyFailure(FailedRun("Workflow type not found by name: " + ld.workflowTypeName, None, values0, [], prior, false, stack0)), None;
    }
    var workflowType := workflowTypes[ld.workflowTypeName];
    if workflowType.executor.None? {
      return EarlyFailure(FailedRun(ExecutorNotLoaded, None, values0, [], prior, false, stack0)), None;
    }
    var typeExecutor := workflowType.executor.value;
    var pre := typeExecutor.preRun(values0);
    if pre.Fail? {
      return EarlyFailure(FailedRun(pre.error, Some(typeExecutor.handleException), values0, [], prior, false, stack0)), None;
    }
    var ownsTx := false;
    if !callerTx {
      var open := typeExecutor.openTransaction;
      if open.Fail? {
        return EarlyFailure(FailedRun(open.error, Some(typeExecutor.handleException), pre.value, [], prior, false, stack0)), None;
      }
      if open.value {
        var t := new Transaction();
        owned := Some(t);
        ownsTx := true;
      }
    }
    setup := Ready(ld.revision, typeExecutor, pre.value, ownsTx);
  }

  /** The end of execute for a transaction the run opened: commit on success, roll back on failure, then close. */
  method FinishOwned(t: Transaction, outcome: RunOutcome)
    requires t.events == []
    modifies t
    ensures t.events == OwnedEvents(outcome)
  {
    if outcome.OutOfFuel? {
      return;
    }
    if outcome.Completed? {
      t.Commit();
    } else {
      t.Rollback();
    }
    t.Close();
  }

  /** The payload and step loop of execute, then postRun. */
  method ExecuteRevision(revision: Revision, typeExecutor: TypeExecutor, stepTypes: map<string, StepType>, coerce: Coercion,
                         values: Values, prior: Option<string>, txOpened: bool, stack0: seq<int>, fuel: nat)
    returns (report: RunReport)
    ensures report == RunRevision(revision, typeExecutor, stepTypes, coerce, values, prior, txOpened, stack0, fuel)
    ensures report.txOpened == txOpened
  {
    var stepMap := LoadSteps(revision.steps);
    var linkMap := LoadLinks(revision.links);
    var executor := new WorkflowExecutor(Env(stepMap, stepTypes, typeExecutor, coerce), stack0, linkMap, values);
    var res := executor.RunStepLoop(fuel, revision.startStepNo, None);
    match res
    case Diverged => report := RunReport(OutOfFuel, executor.values, executor.logSteps, prior, txOpened, executor.containerStack);
    case Threw(e) => report := FailedRun(e, Some(typeExecutor.handleException), executor.values, executor.logSteps, prior, txOpened, executor.containerStack);
    case Done(_) =>
      var post := typeExecutor.postRun(executor.values);
      if post.Ok? {
        report := RunReport(Completed, post.value, executor.logSteps, prior, txOpened, executor.containerStack);
      } else {
        report := FailedRun(post.error, Some(typeExecutor.handleException), executor.values, executor.logSteps, prior, txOpened, executor.containerStack);
      }
  }
}
