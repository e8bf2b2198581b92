/**
 * What a workflow run guarantees: the next-step resolver's stack discipline and link
 * precedence, the jump of a variable step to its join point, the run log's
 * numbering, and the fork protocol's logging and stopping rules.
 */
module ExecutionProperties {
  import opened Wrappers
  import opened Strings
  import opened Workflow
  import opened JoinPoint
  import opened JoinPointProperties
  import opened ExecutionSpec
  import opened Execution

  /** Every step is stored under its own number, as loadSteps stores them. */
  predicate Keyed(env: Env)
  {
    forall n :: n in env.steps ==> env.steps[n].stepNo == n
  }

  /** Every frame of the container stack names a container step of the step map. */
  predicate ContainersOnly(env: Env, stack: seq<int>)
  {
    forall i :: 0 <= i < |stack| ==> stack[i] in env.steps && HasMode(env, env.steps[stack[i]], CONTAINER)
  }

  /**
   * The log only grows, the counter only advances, and the entries added carry
   * distinct numbers taken from the counter's advance.
   */
  predicate Extends(st: RunState, st': RunState)
  {
    && st.seqNo <= st'.seqNo
    && st.log <= st'.log
    && (forall i :: |st.log| <= i < |st'.log| ==> st.seqNo <= st'.log[i].seqNo < st'.seqNo)
    && (forall i, j :: |st.log| <= i < j < |st'.log| ==> st'.log[i].seqNo != st'.log[j].seqNo)
  }

  /** Every number taken from the counter went to a log entry. */
  predicate Exact(st: RunState, st': RunState)
  {
    |st'.log| - |st.log| == st'.seqNo - st.seqNo
  }

  /** The discipline every part of a run keeps, whatever way it ends. */
  predicate Keeps<T>(env: Env, st: RunState, r: (Exec<T>, RunState))
  {
    && Extends(st, r.1)
    && (r.0.Done? ==> Exact(st, r.1))
    && (Keyed(env) && ContainersOnly(env, st.stack) ==> ContainersOnly(env, r.1.stack))
  }

  lemma ExtendsTrans(a: RunState, b: RunState, c: RunState)
    requires Extends(a, b) && Extends(b, c)
    ensures Extends(a, c)
  {
    forall i | |a.log| <= i < |c.log|
      ensures a.seqNo <= c.log[i].seqNo < c.seqNo
    {
      if i < |b.log| {
        assert c.log[i] == b.log[i];
      }
    }
    forall i, j | |a.log| <= i < j < |c.log|
      ensures c.log[i].seqNo != c.log[j].seqNo
    {
      if j < |b.log| {
        assert c.log[i] == b.log[i] && c.log[j] == b.log[j];
      } else if i < |b.log| {
        assert c.log[i] == b.log[i];
      }
    }
  }

  // ------------------------------------------------------------------- resolver

  /**
   * The resolver's stack discipline: only a container entered forward pushes, and it
   * pushes its own number; everything else, and every pop-mode resolution, leaves a
   * prefix of the stack it was given. So the stack holds only container steps.
   */
  lemma {:induction false} ResolveStack(env: Env, links: LinkMap, output: Value, from: Option<Step>, isPop: bool, stack: seq<int>)
    requires ContainersOnly(env, stack)
    requires !isPop && from.Some? ==> from.value.stepNo in env.steps && env.steps[from.value.stepNo] == from.value
    ensures var s := Resolve(env, links, output, from, isPop, stack).1;
            && ContainersOnly(env, s)
            && (if !isPop && from.Some? && HasMode(env, from.value, CONTAINER) then s <= stack + [from.value.stepNo]
                else s <= stack)
    decreases |stack| + (if isPop then 0 else 1)
  {
    if from.Some? && from.value.typeName in env.stepTypes {
      var step := from.value;
      var mode := env.stepTypes[step.typeName].mode;
      if mode != ZERO && mode != VARIABLE {
        var out := if mode != CONTAINER then output else if isPop then Str("pop") else Str("push");
        var stack1 := if mode == CONTAINER && !isPop then stack + [step.stepNo] else stack;
        assert ContainersOnly(env, stack1);
        if ScanLinks(env.coerce, LinksOf(links, step.stepNo), out).None? && |stack1| > 0 {
          var top := stack1[|stack1| - 1];
          var rest := stack1[..|stack1| - 1];
          ResolveStack(env, links, Int(top), Lookup(env.steps, Some(top)), true, rest);
          var s := Resolve(env, links, Int(top), Lookup(env.steps, Some(top)), true, rest).1;
          assert s <= rest && rest <= stack1;
        }
      }
    }
  }

  /** A zero-outbound step never yields a next step, whatever its links, and leaves the stack alone. */
  lemma ZeroNeverAdvances(env: Env, links: LinkMap, output: Value, step: Step, isPop: bool, stack: seq<int>)
    requires HasMode(env, step, ZERO)
    ensures Resolve(env, links, output, Some(step), isPop, stack) == (Ok(None), stack)
  {
  }

  /**
   * A container entered forward resolves as "push" and pushes its own number exactly
   * once when a link takes "push"; re-entered in pop mode it resolves as "pop".
   */
  lemma ContainerResolves(env: Env, links: LinkMap, output: Value, step: Step, stack: seq<int>)
    requires HasMode(env, step, CONTAINER)
    ensures var r := ScanLinks(env.coerce, LinksOf(links, step.stepNo), Str("push"));
            r.Some? ==> Resolve(env, links, output, Some(step), false, stack) == (Ok(r.value), stack + [step.stepNo])
    ensures var r := ScanLinks(env.coerce, LinksOf(links, step.stepNo), Str("pop"));
            r.Some? ==> Resolve(env, links, output, Some(step), true, stack) == (Ok(r.value), stack)
  {
  }

  /**
   * When no link is taken and the stack is not empty, exactly one frame is popped and
   * resolved in pop mode; with an empty stack there is no next step.
   */
  lemma NoMatchPops(env: Env, links: LinkMap, output: Value, step: Step, stack: seq<int>)
    requires step.typeName in env.stepTypes
    requires env.stepTypes[step.typeName].mode in {ONE, TWO}
    requires ScanLinks(env.coerce, LinksOf(links, step.stepNo), output).None?
    ensures |stack| == 0 ==> Resolve(env, links, output, Some(step), false, stack) == (Ok(None), stack)
    ensures |stack| > 0 ==> Resolve(env, links, output, Some(step), false, stack)
                            == Resolve(env, links, Int(stack[|stack| - 1]), Lookup(env.steps, Some(stack[|stack| - 1])), true, stack[..|stack| - 1])
  {
  }

  /**
   * A variable step yields the join point of its links' destinations: a step reached
   * from two different destinations, no step exactly when no node is shared, and an
   * exception when the shared node has no step.
   */
  lemma VariableJumpsToJoin(env: Env, links: LinkMap, output: Value, step: Step, isPop: bool, stack: seq<int>)
    requires HasMode(env, step, VARIABLE) && step.stepNo in links
    ensures var (r, s) := Resolve(env, links, output, Some(step), isPop, stack);
            var starts := Destinations(links[step.stepNo]);
            && s == stack
            && (r == Ok(None) <==> forall n :: !SharedBy(links, starts, n))
            && (r.Ok? && r.value.Some? ==>
                  exists node :: SharedBy(links, starts, Some(node)) && node in env.steps && env.steps[node].stepNo == r.value.value)
            && (r.Fail? ==> exists node :: SharedBy(links, starts, Some(node)) && node !in env.steps)
  {
    var starts := Destinations(links[step.stepNo]);
    var j := FirstJoin(starts, env.steps, links);
    ResolveVariable(env, links, output, step, isPop, stack);
    FirstJoinSound(starts, env.steps, links);
    FirstJoinExactly(starts, env.steps, links);
  }

  /** The resolution of a variable step, in terms of the join search. */
  lemma ResolveVariable(env: Env, links: LinkMap, output: Value, step: Step, isPop: bool, stack: seq<int>)
    requires HasMode(env, step, VARIABLE) && step.stepNo in links
    ensures var j := FirstJoin(Destinations(links[step.stepNo]), env.steps, links);
            Resolve(env, links, output, Some(step), isPop, stack)
            == match j
               case NoJoin => (Ok(None), stack)
               case Joined(_, stepNo) => (Ok(Some(stepNo)), stack)
               case JoinStepMissing(_) => (Fail(NullDereference), stack)
  {
  }

  /**
   * With a null output no conditioned link is taken: the scan yields the destination
   * of the first unconditioned link, or nothing when every link has a condition.
   */
  lemma {:induction false} NullOutputTakesFirstUnconditioned(coerce: Coercion, links: seq<Link>)
    ensures var r := ScanLinks(coerce, links, Null);
            && (r.None? <==> forall i :: 0 <= i < |links| ==> links[i].conditionValue.Some?)
            && (r.Some? ==> exists i :: 0 <= i < |links| && links[i].conditionValue.None? && r.value == links[i].toStepNo
                                       && forall j :: 0 <= j < i ==> links[j].conditionValue.Some?)
  {
    var r := ScanLinks(coerce, links, Null);
    assert forall i :: 0 <= i < |links| ==> (Takes(coerce, links[i], Null) <==> links[i].conditionValue.None?);
  }

  // ------------------------------------------------------------------- run log

  /** The step loop keeps the run discipline. */
  lemma {:induction false} RunLoopKeeps(env: Env, fuel: nat, stepNo: Option<int>, stop: Option<int>, st: RunState)
    ensures Keeps(env, st, RunLoop(env, fuel, stepNo, stop, st))
    decreases fuel, 1, 0
  {
    if stepNo.Some? && fuel > 0 && stepNo.value in env.steps {
      var step := env.steps[stepNo.value];
      ExecStepKeeps(env, fuel - 1, step, st);
      var (res, st1) := ExecStep(env, fuel - 1, step, st);
      if res.Done? {
        if Keyed(env) {
          assert env.steps[stepNo.value].stepNo == stepNo.value;
        }
        AdvanceKeeps(env, fuel - 1, step, res.value, stop, st1);
        ExtendsTrans(st, st1, Advance(env, fuel - 1, step, res.value, stop, st1).1);
      }
    }
  }

  /** Resolving and logging a step keeps the run discipline. */
  lemma {:induction false} AdvanceKeeps(env: Env, fuel: nat, step: Step, out: StepOutput, stop: Option<int>, st: RunState)
    requires Keyed(env) && ContainersOnly(env, st.stack) ==> step.stepNo in env.steps && env.steps[step.stepNo] == step
    ensures Keeps(env, st, Advance(env, fuel, step, out, stop, st))
    decreases fuel, 2, 0
  {
    if Keyed(env) && ContainersOnly(env, st.stack) {
      ResolveStack(env, st.links, out.data, Some(step), false, st.stack);
    }
    var (next, stack1) := Resolve(env, st.links, out.data, Some(step), false, st.stack);
    if next.Ok? {
      var st1 := st.(stack := stack1, seqNo := st.seqNo + 1, log := st.log + [LogEntry(step.id, st.seqNo, out.data, out.message)]);
      assert Extends(st, st1);
      if !(stop.Some? && next.value == stop) && !out.halt {
        RunLoopKeeps(env, fuel, next.value, stop, st1);
        ExtendsTrans(st, st1, RunLoop(env, fuel, next.value, stop, st1).1);
      }
    }
  }

  /** Executing one step keeps the run discipline; a simple step takes no number and logs nothing. */
  lemma {:induction false} ExecStepKeeps(env: Env, fuel: nat, step: Step, st: RunState)
    ensures Keeps(env, st, ExecStep(env, fuel, step, st))
    decreases fuel, 6, 0
  {
    if step.typeName in env.stepTypes {
      var stepType := env.stepTypes[step.typeName];
      if stepType.mode != CONTAINER && stepType.executor.Some? && stepType.executor.value.MultiForking? {
        var pre := env.typeExecutor.preStep(step, st.values);
        if pre.Ok? {
          ForkStepKeeps(env, fuel, stepType.executor.value.hooks, step, st.(values := pre.value));
        }
      }
    }
  }

  lemma {:induction false} ForkStepKeeps(env: Env, fuel: nat, hooks: ForkHooks, step: Step, st: RunState)
    ensures Keeps(env, st, ForkStep(env, fuel, hooks, step, st))
    decreases fuel, 5, 0
  {
    var pre := hooks.preRun(step, st.values);
    if pre.Ok? && step.stepNo in st.links {
      var forks := hooks.sortForks(st.links[step.stepNo], step, pre.value);
      var st1 := st.(values := pre.value, links := st.links[step.stepNo := forks]);
      match FirstJoin(Destinations(forks), env.steps, st1.links)
      case JoinStepMissing(_) =>
      case NoJoin => ForkFinishKeeps(env, fuel, hooks, step, forks, None, st1);
      case Joined(_, stopNo) => ForkFinishKeeps(env, fuel, hooks, step, forks, Some(stopNo), st1);
    }
  }

  lemma {:induction false} ForkFinishKeeps(env: Env, fuel: nat, hooks: ForkHooks, step: Step, forks: seq<Link>, stop: Option<int>, st: RunState)
    ensures Keeps(env, st, ForkFinish(env, fuel, hooks, step, forks, stop, st))
    decreases fuel, 4, |forks| + 1
  {
    ForkLoopKeeps(env, fuel, hooks, step, forks, 0, stop, st);
  }

  lemma {:induction false} ForkLoopKeeps(env: Env, fuel: nat, hooks: ForkHooks, step: Step, forks: seq<Link>, i: nat, stop: Option<int>, st: RunState)
    requires i <= |forks|
    ensures Keeps(env, st, ForkLoop(env, fuel, hooks, step, forks, i, stop, st))
    decreases fuel, 4, |forks| - i
  {
    if i < |forks| {
      ForkOneKeeps(env, fuel, hooks, step, forks[i], stop, st);
      var (res, st1) := ForkOne(env, fuel, hooks, step, forks[i], stop, st);
      if res.Done? && !res.value {
        ForkLoopKeeps(env, fuel, hooks, step, forks, i + 1, stop, st1);
        ExtendsTrans(st, st1, ForkLoop(env, fuel, hooks, step, forks, i + 1, stop, st1).1);
      }
    }
  }

  lemma {:induction false} ForkOneKeeps(env: Env, fuel: nat, hooks: ForkHooks, step: Step, link: Link, stop: Option<int>, st: RunState)
    ensures Keeps(env, st, ForkOne(env, fuel, hooks, step, link, stop, st))
    decreases fuel, 3, 0
  {
    var st1 := st.(seqNo := st.seqNo + 1);
    var hook := hooks.conditionallyExecuteFork(step, link, st1.values);
    if hook.Ok? {
      var (out, values2) := hook.value;
      var st2 := st1.(values := values2);
      var e := LogEntry(step.id, st.seqNo, out.data, out.message);
      var r := if out.data == Bool(true) then RunLoop(env, fuel, link.toStepNo, stop, st2) else (Done(false), st2);
      if out.data == Bool(true) {
        RunLoopKeeps(env, fuel, link.toStepNo, stop, st2);
      }
      assert Extends(st1, r.1) && st2.stack == st.stack;
      assert r.1.log[..|st.log|] == st.log;
      ForkEntryAfterBranch(st, r.1, e);
      assert r.0.Done? ==> ForkOne(env, fuel, hooks, step, link, stop, st) == (Done(r.0.value), r.1.(log := r.1.log + [e]));
    }
  }

  /**
   * The fork's entry, numbered before its branch ran, appended once the branch is
   * done: the log still grows with distinct numbers.
   */
  lemma ForkEntryAfterBranch(st: RunState, st3: RunState, e: LogEntry)
    requires Extends(st.(seqNo := st.seqNo + 1), st3) && st3.log[..|st.log|] == st.log
    requires e.seqNo == st.seqNo
    ensures Extends(st, st3.(log := st3.log + [e]))
    ensures Exact(st.(seqNo := st.seqNo + 1), st3) ==> Exact(st, st3.(log := st3.log + [e]))
  {
    var st4 := st3.(log := st3.log + [e]);
    assert st4.log[..|st3.log|] == st3.log;
    assert st4.log[..|st.log|] == st.log;
  }

  /**
   * Runs log one entry per executed step and fork, numbered from one counter: a run
   * that ends normally numbers its new entries with exactly the numbers it took, all
   * distinct; one that throws has used each number at most once.
   */
  lemma RunLogNumbering(env: Env, fuel: nat, stepNo: Option<int>, stop: Option<int>, st: RunState)
    ensures var (r, st') := RunLoop(env, fuel, stepNo, stop, st);
            && st.log <= st'.log
            && (forall i :: |st.log| <= i < |st'.log| ==> st.seqNo <= st'.log[i].seqNo < st'.seqNo)
            && (forall i, j :: |st.log| <= i < j < |st'.log| ==> st'.log[i].seqNo != st'.log[j].seqNo)
            && (r.Done? ==> |st'.log| - |st.log| == st'.seqNo - st.seqNo)
  {
    RunLoopKeeps(env, fuel, stepNo, stop, st);
  }

  /** The container stack holds only container steps throughout a run. */
  lemma StackHoldsContainers(env: Env, fuel: nat, stepNo: Option<int>, stop: Option<int>, st: RunState)
    requires Keyed(env) && ContainersOnly(env, st.stack)
    ensures ContainersOnly(env, RunLoop(env, fuel, stepNo, stop, st).1.stack)
  {
    RunLoopKeeps(env, fuel, stepNo, stop, st);
  }

  // ------------------------------------------------------------------- step loop

  /** A step number missing from the step map throws "Step not found" instead of being skipped. */
  lemma MissingStepThrows(env: Env, fuel: nat, n: int, stop: Option<int>, st: RunState)
    requires fuel > 0 && n !in env.steps
    ensures RunLoop(env, fuel, Some(n), stop, st) == (Threw("Step not found by stepNo: " + IntToString(n)), st)
  {
  }

  /**
   * Reaching the stop step ends the loop with false before that step runs, and this
   * check comes before the step's own request to stop: only the finished step is logged.
   */
  lemma StopStepWinsOverHalt(env: Env, fuel: nat, step: Step, out: StepOutput, stop: Option<int>, st: RunState)
    requires var next := Resolve(env, st.links, out.data, Some(step), false, st.stack).0;
             next.Ok? && stop.Some? && next.value == stop
    ensures var stack1 := Resolve(env, st.links, out.data, Some(step), false, st.stack).1;
            Advance(env, fuel, step, out, stop, st)
            == (Done(false), st.(stack := stack1, seqNo := st.seqNo + 1, log := st.log + [LogEntry(step.id, st.seqNo, out.data, out.message)]))
  {
  }

  /** A step asking to stop ends the loop with true once it is logged, unless its successor is the stop step. */
  lemma HaltStopsLoop(env: Env, fuel: nat, step: Step, out: StepOutput, stop: Option<int>, st: RunState)
    requires out.halt
    requires var next := Resolve(env, st.links, out.data, Some(step), false, st.stack).0;
             next.Ok? && !(stop.Some? && next.value == stop)
    ensures var stack1 := Resolve(env, st.links, out.data, Some(step), false, st.stack).1;
            Advance(env, fuel, step, out, stop, st)
            == (Done(true), st.(stack := stack1, seqNo := st.seqNo + 1, log := st.log + [LogEntry(step.id, st.seqNo, out.data, out.message)]))
  {
  }

  /** A container step runs nothing: its output is empty and the run state is unchanged. */
  lemma ContainerRunsNothing(env: Env, fuel: nat, step: Step, st: RunState)
    requires HasMode(env, step, CONTAINER)
    ensures ExecStep(env, fuel, step, st) == (Done(EmptyOutput), st)
  {
  }

  // ------------------------------------------------------------------- forks

  /**
   * The fork protocol reorders the step's links in place before it computes the join,
   * computes the join once from the reordered destinations, and bounds every branch by it.
   */
  lemma ForksUseSortedJoin(env: Env, fuel: nat, hooks: ForkHooks, step: Step, st: RunState)
    requires hooks.preRun(step, st.values).Ok? && step.stepNo in st.links
    ensures var values1 := hooks.preRun(step, st.values).value;
            var forks := hooks.sortForks(st.links[step.stepNo], step, values1);
            var st1 := st.(values := values1, links := st.links[step.stepNo := forks]);
            var j := FirstJoin(Destinations(forks), env.steps, st1.links);
            ForkStep(env, fuel, hooks, step, st)
            == match j
               case JoinStepMissing(_) => (Threw(NullDereference), st1)
               case NoJoin => ForkFinish(env, fuel, hooks, step, forks, None, st1)
               case Joined(_, stopNo) => ForkFinish(env, fuel, hooks, step, forks, Some(stopNo), st1)
  {
  }

  /**
   * Every fork gets one log entry, numbered before its branch runs and appended after the
   * branch's own entries, whose numbers are all larger; the branch runs only when the
   * inclusion hook's output is true, and otherwise the fork's entry is all that is logged.
   */
  lemma ForkEntryPrecedesBranch(env: Env, fuel: nat, hooks: ForkHooks, step: Step, link: Link, stop: Option<int>, st: RunState)
    ensures var (r, st') := ForkOne(env, fuel, hooks, step, link, stop, st);
            var hook := hooks.conditionallyExecuteFork(step, link, st.values);
            r.Done? ==>
              && hook.Ok?
              && |st'.log| > |st.log|
              && st'.log[|st'.log| - 1] == LogEntry(step.id, st.seqNo, hook.value.0.data, hook.value.0.message)
              && (forall i :: |st.log| <= i < |st'.log| - 1 ==> st'.log[i].seqNo > st.seqNo)
              && (hook.value.0.data != Bool(true) ==> st'.log == st.log + [st'.log[|st'.log| - 1]] && !r.value)
  {
    var st1 := st.(seqNo := st.seqNo + 1);
    var hook := hooks.conditionallyExecuteFork(step, link, st1.values);
    if hook.Ok? {
      var (out, values2) := hook.value;
      var st2 := st1.(values := values2);
      if out.data == Bool(true) {
        RunLoopKeeps(env, fuel, link.toStepNo, stop, st2);
        var st3 := RunLoop(env, fuel, link.toStepNo, stop, st2).1;
        var st4 := st3.(log := st3.log + [LogEntry(step.id, st.seqNo, out.data, out.message)]);
        assert forall i :: |st.log| <= i < |st4.log| - 1 ==> st4.log[i] == st3.log[i];
      }
    }
  }

  /**
   * After a branch asks to stop, no later fork runs: the loop ends with true in the state
   * that fork left.
   */
  lemma HaltSkipsLaterForks(env: Env, fuel: nat, hooks: ForkHooks, step: Step, forks: seq<Link>, i: nat, stop: Option<int>, st: RunState)
    requires i < |forks|
    requires ForkOne(env, fuel, hooks, step, forks[i], stop, st).0 == Done(true)
    ensures ForkLoop(env, fuel, hooks, step, forks, i, stop, st) == (Done(true), ForkOne(env, fuel, hooks, step, forks[i], stop, st).1)
  {
  }

  /**
   * A fork's entry: logged for the multi-forking step under number n, with the output
   * and message the inclusion hook gave for the fork's link.
   */
  ghost predicate ForkEntry(hooks: ForkHooks, step: Step, link: Link, n: int, e: LogEntry)
  {
    && e.stepId == step.id && e.seqNo == n
    && exists v :: hooks.conditionallyExecuteFork(step, link, v).Ok?
                   && e.output == hooks.conditionallyExecuteFork(step, link, v).value.0.data
                   && e.message == hooks.conditionallyExecuteFork(step, link, v).value.0.message
  }

  /** Exactly one entry of the log from index `from` on carries number n, and it is the fork's entry. */
  ghost predicate LoggedOnce(hooks: ForkHooks, step: Step, link: Link, n: int, log: seq<LogEntry>, from: nat)
  {
    && (exists p :: from <= p < |log| && ForkEntry(hooks, step, link, n, log[p]))
    && (forall p, q :: from <= p < q < |log| ==> !(log[p].seqNo == n && log[q].seqNo == n))
  }

  /**
   * The forks from index i on took the numbers ns, in increasing order from the counter's
   * value, and each got exactly one entry in the new part of the log.
   */
  ghost predicate ForksLogged(hooks: ForkHooks, step: Step, forks: seq<Link>, i: nat, ns: seq<int>, st: RunState, st': RunState)
  {
    && i + |ns| <= |forks|
    && (|ns| > 0 ==> ns[0] == st.seqNo)
    && (forall j, k :: 0 <= j < k < |ns| ==> ns[j] < ns[k])
    && (forall j :: 0 <= j < |ns| ==> LoggedOnce(hooks, step, forks[i + j], ns[j], st'.log, |st.log|))
  }

  /**
   * A fork loop's result r, started from st at fork i, has logged exactly one entry for
   * every fork it processed, under the number the fork took: all remaining forks when
   * none asked to stop, the forks up to the one that asked when one did.
   */
  ghost predicate LoopLogged(hooks: ForkHooks, step: Step, forks: seq<Link>, i: nat, st: RunState, r: (Exec<bool>, RunState))
  {
    r.0.Done? ==> exists ns :: && ForksLogged(hooks, step, forks, i, ns, st, r.1)
                               && (if r.0.value then 1 <= |ns| else |ns| == |forks| - i)
  }

  /** A fork loop that ends normally has logged exactly one entry per processed fork. */
  lemma {:induction false} ForkLoopLogsEachFork(env: Env, fuel: nat, hooks: ForkHooks, step: Step, forks: seq<Link>, i: nat, stop: Option<int>, st: RunState)
    requires i <= |forks|
    ensures LoopLogged(hooks, step, forks, i, st, ForkLoop(env, fuel, hooks, step, forks, i, stop, st))
    decreases |forks| - i
  {
    if i == |forks| {
      assert ForksLogged(hooks, step, forks, i, [], st, st);
    } else {
      ForkOneLogged(env, fuel, hooks, step, forks[i], stop, st);
      var one := ForkOne(env, fuel, hooks, step, forks[i], stop, st);
      if one.0.Done? && !one.0.value {
        var rest := ForkLoop(env, fuel, hooks, step, forks, i + 1, stop, one.1);
        ForkLoopKeeps(env, fuel, hooks, step, forks, i + 1, stop, one.1);
        ForkLoopLogsEachFork(env, fuel, hooks, step, forks, i + 1, stop, one.1);
        ForkContinuesLogged(hooks, step, forks, i, st, one.1, rest);
      } else {
        ForkStopsLogged(hooks, step, forks, i, st, one);
      }
    }
  }

  /** The loop goes on after fork i: its entry comes in front of those of the forks after it. */
  lemma ForkContinuesLogged(hooks: ForkHooks, step: Step, forks: seq<Link>, i: nat, st: RunState, st1: RunState, rest: (Exec<bool>, RunState))
    requires i < |forks|
    requires Extends(st, st1) && |st.log| < |st1.log| && st.seqNo < st1.seqNo
    requires ForkEntry(hooks, step, forks[i], st.seqNo, st1.log[|st1.log| - 1])
    requires Extends(st1, rest.1)
    requires LoopLogged(hooks, step, forks, i + 1, st1, rest)
    ensures LoopLogged(hooks, step, forks, i, st, rest)
  {
    if rest.0.Done? {
      var ns' :| && ForksLogged(hooks, step, forks, i + 1, ns', st1, rest.1)
                 && (if rest.0.value then 1 <= |ns'| else |ns'| == |forks| - (i + 1));
      ExtendsTrans(st, st1, rest.1);
      ForksLoggedCons(hooks, step, forks, i, ns', st, st1, rest.1);
    }
  }

  /** The loop ends at fork i, which threw, diverged or asked to stop: at most its own entry is new. */
  lemma ForkStopsLogged(hooks: ForkHooks, step: Step, forks: seq<Link>, i: nat, st: RunState, one: (Exec<bool>, RunState))
    requires i < |forks|
    requires one.0.Done? ==> && one.0.value && Extends(st, one.1) && |st.log| < |one.1.log|
                             && ForkEntry(hooks, step, forks[i], st.seqNo, one.1.log[|one.1.log| - 1])
    ensures LoopLogged(hooks, step, forks, i, st, one)
  {
    if one.0.Done? {
      OnceFromDistinct(hooks, step, forks[i], st.seqNo, st, one.1, |one.1.log| - 1);
      assert ForksLogged(hooks, step, forks, i, [st.seqNo], st, one.1);
    }
  }

  /** A fork that ends normally has appended its own entry last, under the number it took first. */
  lemma ForkOneLogged(env: Env, fuel: nat, hooks: ForkHooks, step: Step, link: Link, stop: Option<int>, st: RunState)
    ensures var (res, st1) := ForkOne(env, fuel, hooks, step, link, stop, st);
            res.Done? ==> && Extends(st, st1) && |st.log| < |st1.log| && st.seqNo < st1.seqNo
                          && ForkEntry(hooks, step, link, st.seqNo, st1.log[|st1.log| - 1])
  {
    ForkEntryPrecedesBranch(env, fuel, hooks, step, link, stop, st);
    ForkOneKeeps(env, fuel, hooks, step, link, stop, st);
  }

  /** An entry among new entries with distinct numbers is the only one carrying its number. */
  lemma OnceFromDistinct(hooks: ForkHooks, step: Step, link: Link, n: int, st: RunState, st': RunState, p0: nat)
    requires Extends(st, st')
    requires |st.log| <= p0 < |st'.log| && ForkEntry(hooks, step, link, n, st'.log[p0])
    ensures LoggedOnce(hooks, step, link, n, st'.log, |st.log|)
  {
  }

  /** An entry logged once after st1 is logged once after an earlier st, and carries a number st1 had not yet given. */
  lemma LoggedEarlier(hooks: ForkHooks, step: Step, link: Link, n: int, st: RunState, st1: RunState, st': RunState)
    requires Extends(st1, st') && Extends(st, st') && |st.log| <= |st1.log|
    requires LoggedOnce(hooks, step, link, n, st'.log, |st1.log|)
    ensures st1.seqNo <= n
    ensures LoggedOnce(hooks, step, link, n, st'.log, |st.log|)
  {
    var p :| |st1.log| <= p < |st'.log| && ForkEntry(hooks, step, link, n, st'.log[p]);
    OnceFromDistinct(hooks, step, link, n, st, st', p);
  }

  /** The first fork's entry in front of the entries of the forks after it. */
  lemma ForksLoggedCons(hooks: ForkHooks, step: Step, forks: seq<Link>, i: nat, ns': seq<int>, st: RunState, st1: RunState, st': RunState)
    requires i < |forks|
    requires Extends(st, st1) && Extends(st1, st') && Extends(st, st')
    requires |st.log| < |st1.log| && st.seqNo < st1.seqNo
    requires ForkEntry(hooks, step, forks[i], st.seqNo, st1.log[|st1.log| - 1])
    requires ForksLogged(hooks, step, forks, i + 1, ns', st1, st')
    ensures ForksLogged(hooks, step, forks, i, [st.seqNo] + ns', st, st')
  {
    var ns := [st.seqNo] + ns';
    var p0 := |st1.log| - 1;
    assert st'.log[p0] == st1.log[p0];
    OnceFromDistinct(hooks, step, forks[i], st.seqNo, st, st', p0);
    forall j | 0 <= j < |ns'|
      ensures st1.seqNo <= ns'[j]
      ensures LoggedOnce(hooks, step, forks[i + 1 + j], ns'[j], st'.log, |st.log|)
    {
      LoggedEarlier(hooks, step, forks[i + 1 + j], ns'[j], st, st1, st');
    }
    assert forall j :: 1 <= j < |ns| ==> ns[j] == ns'[j - 1];
  }

  /**
   * When a branch asked to stop, the step's output asks too, after the output hook and
   * postRun have still run; otherwise the output hook's output is returned as it is.
   */
  lemma ForkHaltPropagates(env: Env, fuel: nat, hooks: ForkHooks, step: Step, forks: seq<Link>, stop: Option<int>, st: RunState)
    ensures var (loop, st1) := ForkLoop(env, fuel, hooks, step, forks, 0, stop, st);
            var made := hooks.makeWorkflowStepOutput(step, st1.values);
            var r := ForkFinish(env, fuel, hooks, step, forks, stop, st).0;
            r.Done? ==>
              && loop.Done? && made.Ok? && hooks.postRun(step, made.value.1).Ok?
              && r.value == (if loop.value then made.value.0.(halt := true) else made.value.0)
  {
  }

  // ------------------------------------------------------------------- execute

  /**
   * A failed run keeps an error message that already had content and otherwise records
   * the exception's message; a completed run leaves the message as it was.
   */
  lemma ErrorMessageRecorded(loaded: Outcome<Loaded>, workflowTypes: map<string, WorkflowType>, stepTypes: map<string, StepType>,
                             coerce: Coercion, inputValues: Option<Values>, contextValues: Option<Values>, callerTx: bool,
                             prior: Option<string>, stack0: seq<int>, fuel: nat)
    ensures var r := ExecuteRun(loaded, workflowTypes, stepTypes, coerce, inputValues, contextValues, callerTx, prior, stack0, fuel);
            && (r.outcome.Failed? ==> r.errorMessage == if HasContent(prior) then prior else Some(r.outcome.message))
            && (!r.outcome.Failed? ==> r.errorMessage == prior)
  {
    match SetupRun(loaded, workflowTypes, StartValues(inputValues, contextValues), callerTx, prior, stack0)
    case EarlyFailure(_) =>
    case Ready(_, _, _, _) =>
  }

  /** A run given the caller's transaction never opens one of its own. */
  lemma CallerTransactionNotOwned(loaded: Outcome<Loaded>, workflowTypes: map<string, WorkflowType>, stepTypes: map<string, StepType>,
                                  coerce: Coercion, inputValues: Option<Values>, contextValues: Option<Values>,
                                  prior: Option<string>, stack0: seq<int>, fuel: nat)
    ensures !ExecuteRun(loaded, workflowTypes, stepTypes, coerce, inputValues, contextValues, true, prior, stack0, fuel).txOpened
  {
  }

  /**
   * execute never clears the executor's container stack: a run that fails before the
   * step loop hands back the stack it was given, and a run over the loaded steps
   * starts from it and leaves a stack of container steps when it was given one. The
   * next execute on the same executor starts from what this one leaves.
   */
  lemma LeftoverStackCarried(loaded: Outcome<Loaded>, workflowTypes: map<string, WorkflowType>, stepTypes: map<string, StepType>,
                             coerce: Coercion, inputValues: Option<Values>, contextValues: Option<Values>, callerTx: bool,
                             prior: Option<string>, stack0: seq<int>, fuel: nat)
    ensures var s := SetupRun(loaded, workflowTypes, StartValues(inputValues, contextValues), callerTx, prior, stack0);
            var r := ExecuteRun(loaded, workflowTypes, stepTypes, coerce, inputValues, contextValues, callerTx, prior, stack0, fuel);
            && (s.EarlyFailure? ==> r.stack == stack0 && r.log == [])
            && (s.Ready? && ContainersOnly(Env(StepMapOf(s.revision.steps), stepTypes, s.typeExecutor, coerce), stack0) ==>
                  ContainersOnly(Env(StepMapOf(s.revision.steps), stepTypes, s.typeExecutor, coerce), r.stack))
  {
    match SetupRun(loaded, workflowTypes, StartValues(inputValues, contextValues), callerTx, prior, stack0)
    case EarlyFailure(_) =>
    case Ready(revision, typeExecutor, values, _) =>
      var env := Env(StepMapOf(revision.steps), stepTypes, typeExecutor, coerce);
      if ContainersOnly(env, stack0) {
        StepMapKeyed(revision.steps);
        StackHoldsContainers(env, fuel, revision.startStepNo, None, RunState(stack0, LinkMapOf(revision.links), 1, [], values));
      }
  }

  /** The step map holds each step under its own number. */
  lemma {:induction false} StepMapKeyed(steps: seq<Step>)
    ensures forall n :: n in StepMapOf(steps) ==> StepMapOf(steps)[n].stepNo == n
  {
    if |steps| > 0 {
      StepMapKeyed(steps[..|steps| - 1]);
    }
  }

  /**
   * The steps a completed run logged are numbered 1, 2, ... from the payload's counter:
   * each number below the log's length plus one is used by exactly one entry.
   */
  lemma CompletedRunNumbering(loaded: Outcome<Loaded>, workflowTypes: map<string, WorkflowType>, stepTypes: map<string, StepType>,
                              coerce: Coercion, inputValues: Option<Values>, contextValues: Option<Values>, callerTx: bool,
                              prior: Option<string>, stack0: seq<int>, fuel: nat)
    ensures var r := ExecuteRun(loaded, workflowTypes, stepTypes, coerce, inputValues, contextValues, callerTx, prior, stack0, fuel);
            r.outcome.Completed? ==>
              && (forall i :: 0 <= i < |r.log| ==> 1 <= r.log[i].seqNo <= |r.log|)
              && (forall i, j :: 0 <= i < j < |r.log| ==> r.log[i].seqNo != r.log[j].seqNo)
  {
    match SetupRun(loaded, workflowTypes, StartValues(inputValues, contextValues), callerTx, prior, stack0)
    case EarlyFailure(_) =>
    case Ready(revision, typeExecutor, values, _) =>
      var env := Env(StepMapOf(revision.steps), stepTypes, typeExecutor, coerce);
      RunLogNumbering(env, fuel, revision.startStepNo, None, RunState(stack0, LinkMapOf(revision.links), 1, [], values));
  }
}

