/**
 * The join of a multi-forking step, composed from the fork protocol and the step loop:
 * the branches stop in front of the join, so the forks never run it, and the step loop
 * goes on at the join once the fork step is logged, so the join runs once after the
 * forks, whichever forks were activated. A fork whose link goes straight to the join is
 * the exception: its branch starts at the join and runs it.
 */
module ExecutionJoin {
  import opened Wrappers
  import opened Workflow
  import opened JoinPoint
  import opened JoinPointProperties
  import opened ExecutionSpec
  import opened ExecutionProperties

  /** No two steps of the map share an id, as the database's primary key guarantees. */
  predicate UniqueIds(steps: StepMap)
  {
    forall a, b :: a in steps && b in steps && a != b ==> steps[a].id != steps[b].id
  }

  /** A step that neither resolves through a join search nor runs forks. */
  predicate Plain(env: Env, s: Step)
  {
    s.typeName in env.stepTypes ==>
      && env.stepTypes[s.typeName].mode != VARIABLE
      && !(env.stepTypes[s.typeName].executor.Some? && env.stepTypes[s.typeName].executor.value.MultiForking?)
  }

  /** Step f is a variable step, and every other step of the map is plain. */
  predicate OnlyForkAt(env: Env, f: int)
  {
    && f in env.steps && HasMode(env, env.steps[f], VARIABLE)
    && forall m :: m in env.steps && m != f ==> Plain(env, env.steps[m])
  }

  /** No link of the map leads to step f. */
  predicate NoLinkTo(links: LinkMap, f: int)
  {
    forall k :: k in links ==> Some(f) !in Destinations(links[k])
  }

  /** No entry of the log from index `from` on was logged for the step with this id. */
  predicate NoEntryFor(id: int, log: seq<LogEntry>, from: nat)
  {
    forall i :: from <= i < |log| ==> log[i].stepId != id
  }

  /** The links of a multi-forking step after preRun and sortForks, in the order the forks run. */
  function SortedForks(hooks: ForkHooks, step: Step, st: RunState): seq<Link>
    requires hooks.preRun(step, st.values).Ok? && step.stepNo in st.links
  {
    hooks.sortForks(st.links[step.stepNo], step, hooks.preRun(step, st.values).value)
  }

  // ------------------------------------------------------------------- plain steps

  /** Executing a plain step changes the context's values and nothing else of the run. */
  lemma PlainStepKeepsRun(env: Env, fuel: nat, step: Step, st: RunState)
    requires Plain(env, step)
    ensures var st1 := ExecStep(env, fuel, step, st).1;
            st1 == st.(values := st1.values)
  {
    if step.typeName in env.stepTypes {
      var stepType := env.stepTypes[step.typeName];
      if stepType.mode != CONTAINER && stepType.executor.Some? {
        assert stepType.executor.value.Simple?;
      }
    }
  }

  /**
   * Resolving from a plain step, or from a container popped off a stack of containers,
   * never yields step f when no link leads to f.
   */
  lemma {:induction false} ResolveAvoids(env: Env, links: LinkMap, output: Value, from: Option<Step>, isPop: bool, stack: seq<int>, f: int)
    requires Keyed(env) && OnlyForkAt(env, f) && NoLinkTo(links, f) && ContainersOnly(env, stack)
    requires from.Some? ==> from.value.stepNo in env.steps && env.steps[from.value.stepNo] == from.value && from.value.stepNo != f
    ensures Resolve(env, links, output, from, isPop, stack).0 != Ok(Some(f))
    decreases |stack| + (if isPop then 0 else 1), 2
  {
    if from.Some? && from.value.typeName in env.stepTypes {
      var step := from.value;
      var mode := env.stepTypes[step.typeName].mode;
      assert Plain(env, env.steps[step.stepNo]);
      if mode != ZERO {
        var out := if mode != CONTAINER then output else if isPop then Str("pop") else Str("push");
        var stack1 := if mode == CONTAINER && !isPop then stack + [step.stepNo] else stack;
        assert ContainersOnly(env, stack1);
        ResolveScans(env, links, output, step, isPop, stack);
        ScanOrPopAvoids(env, links, step.stepNo, out, stack1, f);
      }
    }
  }

  /** What resolving a step that is neither ZERO nor VARIABLE comes to: its link scan, or a pop when the scan takes nothing. */
  function ScanOrPop(env: Env, links: LinkMap, stepNo: int, out: Value, stack1: seq<int>): Outcome<Option<int>>
  {
    match ScanLinks(env.coerce, LinksOf(links, stepNo), out)
    case Some(dest) => Ok(dest)
    case None =>
      if |stack1| == 0 then Ok(None)
      else Resolve(env, links, Int(stack1[|stack1| - 1]), Lookup(env.steps, Some(stack1[|stack1| - 1])), true, stack1[..|stack1| - 1]).0
  }

  /** A registered step that is neither ZERO nor VARIABLE resolves by its link scan, popping a frame when the scan takes nothing. */
  lemma ResolveScans(env: Env, links: LinkMap, output: Value, step: Step, isPop: bool, stack: seq<int>)
    requires step.typeName in env.stepTypes && env.stepTypes[step.typeName].mode != ZERO && env.stepTypes[step.typeName].mode != VARIABLE
    ensures var mode := env.stepTypes[step.typeName].mode;
            var out := if mode != CONTAINER then output else if isPop then Str("pop") else Str("push");
            var stack1 := if mode == CONTAINER && !isPop then stack + [step.stepNo] else stack;
            Resolve(env, links, output, Some(step), isPop, stack).0 == ScanOrPop(env, links, step.stepNo, out, stack1)
  {
  }

  /** The link scan never yields f, and a pop off a stack of containers does not either. */
  lemma {:induction false} ScanOrPopAvoids(env: Env, links: LinkMap, stepNo: int, out: Value, stack1: seq<int>, f: int)
    requires Keyed(env) && OnlyForkAt(env, f) && NoLinkTo(links, f) && ContainersOnly(env, stack1)
    ensures ScanOrPop(env, links, stepNo, out, stack1) != Ok(Some(f))
    decreases |stack1|, 1
  {
    ScanAvoids(env.coerce, links, stepNo, out, f);
    if ScanLinks(env.coerce, LinksOf(links, stepNo), out).None? && |stack1| > 0 {
      PopAvoids(env, links, stack1, f);
    }
  }

  /** Popping a frame off a stack of containers resolves that container, which never yields f. */
  lemma {:induction false} PopAvoids(env: Env, links: LinkMap, stack: seq<int>, f: int)
    requires Keyed(env) && OnlyForkAt(env, f) && NoLinkTo(links, f) && ContainersOnly(env, stack) && |stack| > 0
    ensures var top := stack[|stack| - 1];
            Resolve(env, links, Int(top), Lookup(env.steps, Some(top)), true, stack[..|stack| - 1]).0 != Ok(Some(f))
    decreases |stack|, 0
  {
    var top := stack[|stack| - 1];
    assert top in env.steps && HasMode(env, env.steps[top], CONTAINER);
    ResolveAvoids(env, links, Int(top), Lookup(env.steps, Some(top)), true, stack[..|stack| - 1], f);
  }

  /** The link scan of a step never yields f when no link leads to f. */
  lemma ScanAvoids(coerce: Coercion, links: LinkMap, stepNo: int, output: Value, f: int)
    requires NoLinkTo(links, f)
    ensures ScanLinks(coerce, LinksOf(links, stepNo), output) != Some(Some(f))
  {
    var ls := LinksOf(links, stepNo);
    var scan := ScanLinks(coerce, ls, output);
    if scan.Some? {
      var i :| 0 <= i < |ls| && Takes(coerce, ls[i], output) && scan.value == ls[i].toStepNo
               && forall j :: 0 <= j < i ==> !Takes(coerce, ls[j], output);
      assert stepNo in links && ls == links[stepNo];
      assert scan.value == Destinations(ls)[i];
    }
  }

  /**
   * The setting of a branch: step numbers key the step map and ids are unique, f is the
   * only step that is not plain and no link leads to it, J is a step, and the stack
   * holds containers.
   */
  predicate BranchSetting(env: Env, j: int, f: int, st: RunState)
  {
    && Keyed(env) && UniqueIds(env.steps) && OnlyForkAt(env, f) && j in env.steps
    && NoLinkTo(st.links, f) && ContainersOnly(env, st.stack)
  }

  /**
   * A branch that starts anywhere but at the join J or at the fork step f, through
   * plain steps only, stops in front of J: it logs no entry for J and leaves the links
   * alone.
   */
  lemma {:induction false} BranchAvoidsJoin(env: Env, fuel: nat, stepNo: Option<int>, j: int, f: int, st: RunState)
    requires BranchSetting(env, j, f, st)
    requires stepNo != Some(j) && stepNo != Some(f)
    ensures var st' := RunLoop(env, fuel, stepNo, Some(j), st).1;
            st'.links == st.links && NoEntryFor(env.steps[j].id, st'.log, |st.log|)
    decreases fuel, 1, 0
  {
    if stepNo.Some? && fuel > 0 && stepNo.value in env.steps {
      var step := env.steps[stepNo.value];
      assert stepNo.value != f;
      assert Plain(env, step);
      assert step.stepNo == stepNo.value;
      PlainStepKeepsRun(env, fuel - 1, step, st);
      var (res, st1) := ExecStep(env, fuel - 1, step, st);
      if res.Done? {
        SettingCarries(env, j, f, st, st1);
        AdvanceAvoidsJoin(env, fuel - 1, step, res.value, j, f, st1);
      }
    }
  }

  lemma {:induction false} AdvanceAvoidsJoin(env: Env, fuel: nat, step: Step, out: StepOutput, j: int, f: int, st: RunState)
    requires BranchSetting(env, j, f, st)
    requires step.stepNo in env.steps && env.steps[step.stepNo] == step && step.stepNo != j && step.stepNo != f
    ensures var st' := Advance(env, fuel, step, out, Some(j), st).1;
            st'.links == st.links && NoEntryFor(env.steps[j].id, st'.log, |st.log|)
    decreases fuel, 2, 0
  {
    ResolveAvoids(env, st.links, out.data, Some(step), false, st.stack, f);
    ResolveStack(env, st.links, out.data, Some(step), false, st.stack);
    var (next, stack1) := Resolve(env, st.links, out.data, Some(step), false, st.stack);
    if next.Ok? {
      var st1 := st.(stack := stack1, seqNo := st.seqNo + 1, log := st.log + [LogEntry(step.id, st.seqNo, out.data, out.message)]);
      assert NoEntryFor(env.steps[j].id, st1.log, |st.log|);
      if !(next.value == Some(j)) && !out.halt {
        assert next.value != Some(f);
        SettingCarries(env, j, f, st, st1);
        BranchAvoidsJoin(env, fuel, next.value, j, f, st1);
        RunLoopKeeps(env, fuel, next.value, Some(j), st1);
        NoEntryTrans(env.steps[j].id, st.log, st1.log, RunLoop(env, fuel, next.value, Some(j), st1).1.log);
      }
    }
  }

  /** The branch setting depends on the run state only through its links and its stack. */
  lemma SettingCarries(env: Env, j: int, f: int, st: RunState, st1: RunState)
    requires BranchSetting(env, j, f, st) && st1.links == st.links && ContainersOnly(env, st1.stack)
    ensures BranchSetting(env, j, f, st1)
  {
  }

  lemma NoEntryTrans(id: int, a: seq<LogEntry>, b: seq<LogEntry>, c: seq<LogEntry>)
    requires a <= b <= c
    requires NoEntryFor(id, b, |a|) && NoEntryFor(id, c, |b|)
    ensures NoEntryFor(id, c, |a|)
  {
    forall i | |a| <= i < |c|
      ensures c[i].stepId != id
    {
      if i < |b| {
        assert c[i] == b[i];
      }
    }
  }

  // ------------------------------------------------------------------- forks

  /** One fork whose link leads neither to the join nor back to the fork step logs no entry for the join. */
  lemma ForkAvoidsJoin(env: Env, fuel: nat, hooks: ForkHooks, step: Step, link: Link, j: int, st: RunState)
    requires Keyed(env) && UniqueIds(env.steps) && OnlyForkAt(env, step.stepNo) && env.steps[step.stepNo] == step
    requires j in env.steps && j != step.stepNo
    requires NoLinkTo(st.links, step.stepNo) && ContainersOnly(env, st.stack)
    requires link.toStepNo !in {Some(j), Some(step.stepNo)}
    ensures var st' := ForkOne(env, fuel, hooks, step, link, Some(j), st).1;
            st'.links == st.links && NoEntryFor(env.steps[j].id, st'.log, |st.log|)
  {
    var st1 := st.(seqNo := st.seqNo + 1);
    var hook := hooks.conditionallyExecuteFork(step, link, st1.values);
    if hook.Ok? && hook.value.0.data == Bool(true) {
      var st2 := st1.(values := hook.value.1);
      BranchAvoidsJoin(env, fuel, link.toStepNo, j, step.stepNo, st2);
      RunLoopKeeps(env, fuel, link.toStepNo, Some(j), st2);
      var st3 := RunLoop(env, fuel, link.toStepNo, Some(j), st2).1;
      var e := LogEntry(step.id, st.seqNo, hook.value.0.data, hook.value.0.message);
      assert step.id != env.steps[j].id;
      NoEntryTrans(env.steps[j].id, st.log, st3.log, st3.log + [e]);
    }
  }

  /** The fork loop, bounded by the join, logs no entry for the join. */
  lemma {:induction false} ForksAvoidJoin(env: Env, fuel: nat, hooks: ForkHooks, step: Step, forks: seq<Link>, i: nat, j: int, st: RunState)
    requires i <= |forks|
    requires Keyed(env) && UniqueIds(env.steps) && OnlyForkAt(env, step.stepNo) && env.steps[step.stepNo] == step
    requires j in env.steps && j != step.stepNo
    requires NoLinkTo(st.links, step.stepNo) && ContainersOnly(env, st.stack)
    requires Some(j) !in Destinations(forks) && Some(step.stepNo) !in Destinations(forks)
    ensures var st' := ForkLoop(env, fuel, hooks, step, forks, i, Some(j), st).1;
            st'.links == st.links && NoEntryFor(env.steps[j].id, st'.log, |st.log|)
    decreases |forks| - i
  {
    if i < |forks| {
      assert forks[i].toStepNo == Destinations(forks)[i];
      ForkAvoidsJoin(env, fuel, hooks, step, forks[i], j, st);
      ForkOneKeeps(env, fuel, hooks, step, forks[i], Some(j), st);
      var (res, st1) := ForkOne(env, fuel, hooks, step, forks[i], Some(j), st);
      if res.Done? && !res.value {
        ForksAvoidJoin(env, fuel, hooks, step, forks, i + 1, j, st1);
        ForkLoopKeeps(env, fuel, hooks, step, forks, i + 1, Some(j), st1);
        NoEntryTrans(env.steps[j].id, st.log, st1.log, ForkLoop(env, fuel, hooks, step, forks, i + 1, Some(j), st1).1.log);
      }
    }
  }

  /** With no link into f, no link leads from any node to f. */
  lemma NoEdgeInto(links: LinkMap, a: Option<int>, f: int)
    requires NoLinkTo(links, f)
    ensures !Edge(links, a, Some(f))
  {
    if a.Some? && a.value in links {
      var k := a.value;
      assert k in links;
      assert Some(f) !in Destinations(links[k]);
      assert Neighbors(links, a) == links[k];
    } else {
      assert Destinations(Neighbors(links, a)) == [];
    }
  }

  /** A link graph with no link into f: f is not reached from any other start. */
  lemma ReachedOnlyByLinks(links: LinkMap, s: Option<int>, f: int)
    requires NoLinkTo(links, f) && s != Some(f)
    ensures !Reaches(links, s, Some(f))
  {
    if Reaches(links, s, Some(f)) {
      var p :| IsPath(links, p) && p[0] == s && p[|p| - 1] == Some(f);
      assert |p| >= 2;
      assert p[|p| - 2 + 1] == Some(f);
      NoEdgeInto(links, p[|p| - 2], f);
      assert false;
    }
  }

  /** The join of forks that avoid f, in a graph with no link into f, is not f. */
  lemma JoinIsNotFork(env: Env, forks: seq<Link>, links: LinkMap, f: int)
    requires Keyed(env) && NoLinkTo(links, f)
    requires Some(f) !in Destinations(forks)
    requires FirstJoin(Destinations(forks), env.steps, links).Joined?
    ensures FirstJoin(Destinations(forks), env.steps, links).stepNo != f
  {
    var starts := Destinations(forks);
    var r := FirstJoin(starts, env.steps, links);
    FirstJoinSound(starts, env.steps, links);
    var s1, s2 :| s1 in starts && s2 in starts && s1 != s2 && Reaches(links, s1, Some(r.node)) && Reaches(links, s2, Some(r.node));
    ReachedOnlyByLinks(links, s1, f);
  }

  /** After the fork loop, makeWorkflowStepOutput and postRun change only the context's values. */
  lemma ForkFinishKeepsLoop(env: Env, fuel: nat, hooks: ForkHooks, step: Step, forks: seq<Link>, stop: Option<int>, st: RunState)
    ensures var loop := ForkLoop(env, fuel, hooks, step, forks, 0, stop, st).1;
            var st' := ForkFinish(env, fuel, hooks, step, forks, stop, st).1;
            st' == loop.(values := st'.values)
  {
  }

  /**
   * Once a variable step with join J is logged, the loop stops when J is the stop step,
   * stops when the step asked to, and otherwise goes on at J, with the stack unchanged.
   */
  lemma VariableAdvancesToJoin(env: Env, fuel: nat, step: Step, out: StepOutput, stop: Option<int>, st: RunState, j: int)
    requires HasMode(env, step, VARIABLE) && step.stepNo in st.links
    requires var r := FirstJoin(Destinations(st.links[step.stepNo]), env.steps, st.links);
             r.Joined? && r.stepNo == j
    ensures var st1 := st.(seqNo := st.seqNo + 1, log := st.log + [LogEntry(step.id, st.seqNo, out.data, out.message)]);
            Advance(env, fuel, step, out, stop, st)
            == if stop == Some(j) then (Done(false), st1)
               else if out.halt then (Done(true), st1)
               else RunLoop(env, fuel, Some(j), stop, st1)
  {
    ResolveToJoin(env, st.links, out.data, step, st.stack, j);
    AdvanceResolved(env, fuel, step, out, stop, st, j);
  }

  /** Once a step resolves to J with the stack unchanged, the step is logged and the loop stops or goes on at J. */
  lemma AdvanceResolved(env: Env, fuel: nat, step: Step, out: StepOutput, stop: Option<int>, st: RunState, j: int)
    requires Resolve(env, st.links, out.data, Some(step), false, st.stack) == (Ok(Some(j)), st.stack)
    ensures var st1 := st.(seqNo := st.seqNo + 1, log := st.log + [LogEntry(step.id, st.seqNo, out.data, out.message)]);
            Advance(env, fuel, step, out, stop, st)
            == if stop == Some(j) then (Done(false), st1)
               else if out.halt then (Done(true), st1)
               else RunLoop(env, fuel, Some(j), stop, st1)
  {
  }

  /** A variable step whose links join at J resolves to J and leaves the stack alone. */
  lemma ResolveToJoin(env: Env, links: LinkMap, output: Value, step: Step, stack: seq<int>, j: int)
    requires HasMode(env, step, VARIABLE) && step.stepNo in links
    requires var r := FirstJoin(Destinations(links[step.stepNo]), env.steps, links);
             r.Joined? && r.stepNo == j
    ensures Resolve(env, links, output, Some(step), false, stack) == (Ok(Some(j)), stack)
  {
    ResolveVariable(env, links, output, step, false, stack);
  }

  /**
   * The setting of the join lemmas: step numbers key the step map and ids are unique;
   * the variable multi-forking step is the only step that is not plain and no link
   * leads back to it; the stack holds containers; preRun succeeds; and the sorted forks
   * lead neither to their first join J nor back to the step.
   */
  predicate ForkSetting(env: Env, hooks: ForkHooks, step: Step, st: RunState, j: int)
  {
    && Keyed(env) && UniqueIds(env.steps) && OnlyForkAt(env, step.stepNo) && env.steps[step.stepNo] == step
    && NoLinkTo(st.links, step.stepNo) && ContainersOnly(env, st.stack)
    && hooks.preRun(step, st.values).Ok? && step.stepNo in st.links
    && var forks := SortedForks(hooks, step, st);
       && Some(j) !in Destinations(forks) && Some(step.stepNo) !in Destinations(forks)
       && FirstJoin(Destinations(forks), env.steps, st.links[step.stepNo := forks]).Joined?
       && FirstJoin(Destinations(forks), env.steps, st.links[step.stepNo := forks]).stepNo == j
  }

  /**
   * A variable multi-forking step whose forks lead neither to their join J nor back to
   * the step, in a workflow where it is the only such step and no link leads back to
   * it, keeps its sorted links and logs no entry for J, whichever forks were activated.
   */
  lemma ForkStepAvoidsJoin(env: Env, fuel: nat, hooks: ForkHooks, step: Step, st: RunState, j: int)
    requires ForkSetting(env, hooks, step, st, j)
    ensures j in env.steps
    ensures var st' := ForkStep(env, fuel, hooks, step, st).1;
            && st'.links == st.links[step.stepNo := SortedForks(hooks, step, st)]
            && NoEntryFor(env.steps[j].id, st'.log, |st.log|)
  {
    var forks := SortedForks(hooks, step, st);
    var st1 := st.(values := hooks.preRun(step, st.values).value, links := st.links[step.stepNo := forks]);
    FirstJoinSound(Destinations(forks), env.steps, st1.links);
    assert NoLinkTo(st1.links, step.stepNo);
    JoinIsNotFork(env, forks, st1.links, step.stepNo);
    ForksUseSortedJoin(env, fuel, hooks, step, st);
    ForksAvoidJoin(env, fuel, hooks, step, forks, 0, j, st1);
    ForkFinishKeepsLoop(env, fuel, hooks, step, forks, Some(j), st1);
  }

  /**
   * The join runs once, after the forks: under the conditions of ForkStepAvoidsJoin the
   * forks log no entry for J, and once the step is logged the step loop goes on at J
   * (unless J is the enclosing stop step, or the step asked the workflow to stop).
   */
  lemma JoinRunsOnceAfterForks(env: Env, fuel: nat, hooks: ForkHooks, step: Step, st: RunState, j: int,
                               fuel': nat, out: StepOutput, stop: Option<int>)
    requires ForkSetting(env, hooks, step, st, j)
    ensures j in env.steps
    ensures var st' := ForkStep(env, fuel, hooks, step, st).1;
            var st'' := st'.(seqNo := st'.seqNo + 1, log := st'.log + [LogEntry(step.id, st'.seqNo, out.data, out.message)]);
            && NoEntryFor(env.steps[j].id, st'.log, |st.log|)
            && Advance(env, fuel', step, out, stop, st')
               == if stop == Some(j) then (Done(false), st'')
                  else if out.halt then (Done(true), st'')
                  else RunLoop(env, fuel', Some(j), stop, st'')
  {
    ForkStepAvoidsJoin(env, fuel, hooks, step, st, j);
    var st' := ForkStep(env, fuel, hooks, step, st).1;
    AdvanceOverForks(env, hooks, fuel', step, out, stop, st, st', j);
  }

  /** VariableAdvancesToJoin for the run state after the forks of a step in the setting above. */
  lemma AdvanceOverForks(env: Env, hooks: ForkHooks, fuel: nat, step: Step, out: StepOutput, stop: Option<int>, st0: RunState,
                         st: RunState, j: int)
    requires ForkSetting(env, hooks, step, st0, j) && st.links == st0.links[step.stepNo := SortedForks(hooks, step, st0)]
    ensures var st1 := st.(seqNo := st.seqNo + 1, log := st.log + [LogEntry(step.id, st.seqNo, out.data, out.message)]);
            Advance(env, fuel, step, out, stop, st)
            == if stop == Some(j) then (Done(false), st1)
               else if out.halt then (Done(true), st1)
               else RunLoop(env, fuel, Some(j), stop, st1)
  {
    var forks := SortedForks(hooks, step, st0);
    assert st.links[step.stepNo] == forks;
    VariableAdvancesToJoin(env, fuel, step, out, stop, st, j);
  }

  // ------------------------------------------------------------------- a fork straight to the join

  /**
   * As written: a fork whose link leads straight to the join J and whose inclusion hook
   * answers true runs its branch from J with J as the stop step, and the step loop
   * checks the stop step only after running a step, so the branch runs J: the first new
   * entry of a fork that ends normally is J's own, logged before the fork's entry.
   */
  lemma ForkToJoinRunsJoin(env: Env, fuel: nat, hooks: ForkHooks, step: Step, link: Link, st: RunState)
    requires Keyed(env)
    requires link.toStepNo.Some? && link.toStepNo.value in env.steps && Plain(env, env.steps[link.toStepNo.value])
    requires var hook := hooks.conditionallyExecuteFork(step, link, st.values);
             hook.Ok? && hook.value.0.data == Bool(true)
    ensures var (r, st') := ForkOne(env, fuel, hooks, step, link, link.toStepNo, st);
            r.Done? ==> && |st'.log| >= |st.log| + 2
                        && st'.log[|st.log|].stepId == env.steps[link.toStepNo.value].id
                        && st'.log[|st'.log| - 1].stepId == step.id
  {
    var j := link.toStepNo.value;
    var hook := hooks.conditionallyExecuteFork(step, link, st.values);
    var st2 := st.(seqNo := st.seqNo + 1, values := hook.value.1);
    var branch := RunLoop(env, fuel, link.toStepNo, link.toStepNo, st2);
    if branch.0.Done? {
      JoinRunsFirst(env, fuel, j, st2);
    }
  }

  /** A step loop started at its own stop step runs that step first, when it ends normally. */
  lemma JoinRunsFirst(env: Env, fuel: nat, j: int, st: RunState)
    requires Keyed(env) && j in env.steps && Plain(env, env.steps[j])
    ensures var (r, st') := RunLoop(env, fuel, Some(j), Some(j), st);
            r.Done? ==> |st'.log| > |st.log| && st'.log[|st.log|].stepId == env.steps[j].id
  {
    if fuel > 0 {
      var stepJ := env.steps[j];
      PlainStepKeepsRun(env, fuel - 1, stepJ, st);
      var (res, st3) := ExecStep(env, fuel - 1, stepJ, st);
      if res.Done? {
        var out := res.value;
        var (next, stack1) := Resolve(env, st3.links, out.data, Some(stepJ), false, st3.stack);
        if next.Ok? {
          var st4 := st3.(stack := stack1, seqNo := st3.seqNo + 1, log := st3.log + [LogEntry(stepJ.id, st3.seqNo, out.data, out.message)]);
          if !(next.value == Some(j)) && !out.halt {
            RunLoopKeeps(env, fuel - 1, next.value, Some(j), st4);
          }
        }
      }
    }
  }

  /**
   * Corrected: a fork whose link leads to the stop step has an empty branch, as the
   * graph builder reads it; its branch runs only when the hook answers true and the
   * link leads elsewhere.
   */
  function ForkOneFixed(env: Env, fuel: nat, hooks: ForkHooks, step: Step, link: Link, stop: Option<int>, st: RunState)
    : (Exec<bool>, RunState)
  {
    var seqNo := st.seqNo;
    var st1 := st.(seqNo := seqNo + 1);
    match hooks.conditionallyExecuteFork(step, link, st1.values)
    case Fail(e) => (Threw(e), st1)
    case Ok((out, values2)) =>
      var st2 := st1.(values := values2);
      var (branch, st3) :=
        if out.data == Bool(true) && !(stop.Some? && link.toStepNo == stop) then RunLoop(env, fuel, link.toStepNo, stop, st2)
        else (Done(false), st2);
      match branch
      case Threw(e) => (Threw(e), st3)
      case Diverged => (Diverged, st3)
      case Done(halt) => (Done(halt), st3.(log := st3.log + [LogEntry(step.id, seqNo, out.data, out.message)]))
  }

  /**
   * The corrected fork never runs the join: a fork straight to the stop step logs its
   * own entry and nothing else, and any other fork behaves as written.
   */
  lemma ForkOneFixedSkipsJoin(env: Env, fuel: nat, hooks: ForkHooks, step: Step, link: Link, stop: Option<int>, st: RunState)
    ensures var hook := hooks.conditionallyExecuteFork(step, link, st.values);
            stop.Some? && link.toStepNo == stop && hook.Ok? ==>
              ForkOneFixed(env, fuel, hooks, step, link, stop, st)
              == (Done(false), st.(seqNo := st.seqNo + 1, values := hook.value.1,
                                   log := st.log + [LogEntry(step.id, st.seqNo, hook.value.0.data, hook.value.0.message)]))
    ensures !(stop.Some? && link.toStepNo == stop) ==>
              ForkOneFixed(env, fuel, hooks, step, link, stop, st) == ForkOne(env, fuel, hooks, step, link, stop, st)
  {
  }
}
