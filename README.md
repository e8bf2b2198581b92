# qbit-workflows core, modelled in Dafny

This project models the core of the QBit Workflows engine.

- **Workflow model** (`Workflow`): a workflow revision is a list of numbered steps and a list of links. A link goes from a step to a step, optionally under a condition value.
  - `loadSteps` builds the step map, keyed by step number.
  - `loadLinks` builds the link map: for each step, its outbound links in list order.
- **Executor** (`ExecutionSpec`, `Execution`, `ExecutionProperties`): the `WorkflowExecutor`.
  - `execute` merges the input values into the context, opens or adopts a transaction and runs the step loop. It commits or rolls back, then closes.
  - The container stack belongs to the executor and `execute` never clears it, so a run starts from whatever an earlier run on the same executor left there.
  - `runStepLoop` runs a step and logs it with a sequence number. It then moves to the step `getNextStepNo` picks, and stops at a stop step or when a step asks to halt.
  - `getNextStepNo` resolves the next step from the output:
    - ZERO steps end the run;
    - containers push themselves and follow their "push" or "pop" link;
    - VARIABLE steps jump to their branches' join point;
    - other steps take the first link whose condition matches;
    - when nothing matches, the container stack is popped.
  - `executeStep` runs one step. Container steps are a shortcut that runs nothing.
  - The multi-forking step protocol runs: preRun; the ordering hook; one join-point search; one branch per activated fork, each logged after its branch; postRun.
  - Each method is proved to produce exactly what a pure specification function describes. The log discipline and the container-only stack are proved as invariants of that function.
  - `ExecutionJoin` composes the fork protocol with the step loop: the branches stop in front of the join, and the join runs once, after the forks.
- **Join-point search** (`JoinPoint`): `FindFirstJoinPoint` is a depth-first search from several start steps that returns the first step reachable from two of them. The search is proved sound and complete: it returns null iff no step is reachable from two different starts.
- **Graph builder** (`GraphBuilder`): `StepNodeGraphBuilder` turns a revision into a `NodeSequence` of step nodes. Branches and containers carry their sub-sequences, keyed by condition value or "push". `NodeSequence` is a class whose node list grows in place.
- **Registry** (`Registry`): `WorkflowsRegistry` holds workflow types and step types in insertion-ordered tables. `acceptHelpContent` attaches help content to a step type's description, label or input fields.
- **Revision store** (`StoreRevision`): `StoreNewWorkflowRevisionProcess` does the following, in one transaction:
  - checks its inputs;
  - numbers the new version;
  - stamps, summarises and validates every step;
  - either stores the revision or fails with one message listing every error.
- **Update-field step** (`RecordFieldStep`): `UpdateInputRecordFieldStep` covers the API field lookup, the summary sentence, validation against the API version, and `execute`. `execute` writes the value into the record being processed and marks the record for update.
- **Metadata adjuster** (`FilterAdjuster`): `UpdateInputRecordFieldMetaDataAdjuster` rewrites every `${input.X}` criterion value of a possible-value-source filter, and of its sub-filters, to `${input.X}??${input.workflow.X}`, in place. It also clears 'value' on an on-change event.

Outside services are parameters of the model: the database, JSON parsing, the QQQ instance's tables, the API field listings and value formatting. The step and workflow-type executors are parameters too. Exceptions are `Outcome` values carrying the exception's message.

## Model

| member | source | states |
|---|---|---|
| Workflow.Destinations | src/main/java/com/kingsrook/qbits/workflows/execution/FindFirstJoinPoint.java:49-63 | the destinations of the links, one per link, in link order |
| Workflow.LoadSteps | src/main/java/com/kingsrook/qbits/workflows/execution/WorkflowExecutor.java:480-489 | the loop builds exactly the step map StepMapOf describes |
| Workflow.LoadLinks | src/main/java/com/kingsrook/qbits/workflows/execution/WorkflowExecutor.java:495-504 | the loop builds exactly the link map LinkMapOf describes |
| Workflow.StepMapOfKeys | src/main/java/com/kingsrook/qbits/workflows/execution/WorkflowExecutor.java:480-489 | a number is a key of the step map iff some step has it |
| Workflow.StepMapOfLastWins | src/main/java/com/kingsrook/qbits/workflows/execution/WorkflowExecutor.java:480-489 | each step is the one stored under its number unless a later step has the same number |
| Workflow.LinkMapOfGroupsInOrder | src/main/java/com/kingsrook/qbits/workflows/execution/WorkflowExecutor.java:495-504 | each link-map entry is exactly the links leaving that step, in list order, and no entry is empty |
| Workflow.LinksFromMembers | src/main/java/com/kingsrook/qbits/workflows/execution/WorkflowExecutor.java:495-504 | the links grouped under a step are exactly the links whose from-step it is |
| Strings.IndexOf | src/main/java/com/kingsrook/qbits/workflows/implementations/recordworkflows/UpdateInputRecordFieldStep.java:119 | the first position of the character, or none when it does not occur |
| Strings.AfterFirst | src/main/java/com/kingsrook/qbits/workflows/implementations/recordworkflows/UpdateInputRecordFieldStep.java:119 | the text after the first "." when there is one (the name splits around it), else the whole name |
| Strings.ReplaceAllFreePrefix | src/main/java/com/kingsrook/qbits/workflows/implementations/recordworkflows/UpdateInputRecordFieldStep.java:228 | String.replace leaves untouched a prefix where no occurrence of the target starts |
| Strings.ReplaceAllAbsent | src/main/java/com/kingsrook/qbits/workflows/implementations/recordworkflows/UpdateInputRecordFieldMetaDataAdjuster.java:216 | String.replace changes nothing when the target does not occur |
| JoinPoint.Seed | src/main/java/com/kingsrook/qbits/workflows/execution/FindFirstJoinPoint.java:86-90 | after seeding, every queued pair is a start node visited by itself |
| JoinPoint.RecordShrinksPending | src/main/java/com/kingsrook/qbits/workflows/execution/FindFirstJoinPoint.java:116-147 | recording a new source at a node removes one (node, source) pair from the pending set, the termination measure |
| JoinPoint.Expand | src/main/java/com/kingsrook/qbits/workflows/execution/FindFirstJoinPoint.java:107-147 | the neighbour loop keeps queued sources among the starts and never grows the pending set |
| JoinPoint.FindFirstJoinPoint | src/main/java/com/kingsrook/qbits/workflows/execution/FindFirstJoinPoint.java:71-155 | the deque loop returns exactly what the search function FirstJoin computes |
| JoinPoint.ExpandNeighbors | src/main/java/com/kingsrook/qbits/workflows/execution/FindFirstJoinPoint.java:101-147 | the for-loop over one node's links leaves exactly what Expand describes |
| JoinPointProperties.SeedRecord | src/main/java/com/kingsrook/qbits/workflows/execution/FindFirstJoinPoint.java:86-90 | after seeding, a node is recorded only as visited by itself, a queued start node |
| JoinPointProperties.SeedStart | src/main/java/com/kingsrook/qbits/workflows/execution/FindFirstJoinPoint.java:86-90 | after seeding, every start node is recorded as visited by itself |
| JoinPointProperties.ExpandSound | src/main/java/com/kingsrook/qbits/workflows/execution/FindFirstJoinPoint.java:107-147 | expanding a node keeps every record and queue entry a real path from its source |
| JoinPointProperties.SearchSound | src/main/java/com/kingsrook/qbits/workflows/execution/FindFirstJoinPoint.java:93-150 | a node the search meets is reachable from two different start nodes |
| JoinPointProperties.FirstJoinSound | src/main/java/com/kingsrook/qbits/workflows/execution/FindFirstJoinPoint.java:126-141 | a reported join point is reachable from two different start nodes |
| JoinPointProperties.ExpandComplete | src/main/java/com/kingsrook/qbits/workflows/execution/FindFirstJoinPoint.java:107-147 | after expanding a pair, every recorded pair is queued or has all its link successors recorded |
| JoinPointProperties.PathPropagates | src/main/java/com/kingsrook/qbits/workflows/execution/FindFirstJoinPoint.java:116-147 | once nothing is queued, a source recorded at a node is recorded all along any path from it |
| JoinPointProperties.NoSharing | src/main/java/com/kingsrook/qbits/workflows/execution/FindFirstJoinPoint.java:151-154 | an exhausted search with one source per node means no node is reachable from two starts |
| JoinPointProperties.SearchComplete | src/main/java/com/kingsrook/qbits/workflows/execution/FindFirstJoinPoint.java:93-154 | a search that empties its queue leaves no node reachable from two different starts |
| JoinPointProperties.FirstJoinComplete | src/main/java/com/kingsrook/qbits/workflows/execution/FindFirstJoinPoint.java:151-154 | null is returned only when no node is reachable from two different starts |
| JoinPointProperties.FirstJoinExactly | src/main/java/com/kingsrook/qbits/workflows/execution/FindFirstJoinPoint.java:126-154 | no join iff no node is reachable from two different start nodes (both directions) |
| JoinPointProperties.SingleStartNoJoin | src/main/java/com/kingsrook/qbits/workflows/execution/FindFirstJoinPoint.java:126-154 | a single start (or copies of one destination) never has a join point |
| JoinPointExamples.Ex1 | src/test/java/com/kingsrook/qbits/workflows/execution/FindFirstJoinPointTest.java:78-80 | the starts [2,3,4] of the test graph join at 10, depth-first per start |
| JoinPointExamples.Ex2 | src/test/java/com/kingsrook/qbits/workflows/execution/FindFirstJoinPointTest.java:81-83 | the starts [6,7] of the test graph join at 9 |
| JoinPointExamples.Ex3 | src/test/java/com/kingsrook/qbits/workflows/execution/FindFirstJoinPointTest.java:85-92 | with the test graph's links pruned, no node is shared and the answer is null |
| ExecutionSpec.ScanLinks | src/main/java/com/kingsrook/qbits/workflows/execution/WorkflowExecutor.java:378-403 | the first link whose condition the output takes; none iff no link is taken |
| ExecutionProperties.ResolveStack | src/main/java/com/kingsrook/qbits/workflows/execution/WorkflowExecutor.java:344-359 | resolving pushes only the number of a container step, so the stack holds only containers |
| ExecutionProperties.ZeroNeverAdvances | src/main/java/com/kingsrook/qbits/workflows/execution/WorkflowExecutor.java:334-342 | a ZERO step yields no next step whatever its links, and leaves the stack alone |
| ExecutionProperties.ContainerResolves | src/main/java/com/kingsrook/qbits/workflows/execution/WorkflowExecutor.java:344-359 | a container entered forward pushes itself once and follows "push"; in pop mode it pushes nothing and follows "pop" |
| ExecutionProperties.NoMatchPops | src/main/java/com/kingsrook/qbits/workflows/execution/WorkflowExecutor.java:415-423 | with no link taken, an empty stack gives null and a non-empty one pops exactly one frame and resolves it in pop mode |
| ExecutionProperties.VariableJumpsToJoin | src/main/java/com/kingsrook/qbits/workflows/execution/WorkflowExecutor.java:364-372 | a VARIABLE step yields the join point of its links' destinations |
| ExecutionProperties.ResolveVariable | src/main/java/com/kingsrook/qbits/workflows/execution/WorkflowExecutor.java:364-372 | the resolution of a VARIABLE step is the join search over its links, a missing join step an exception |
| ExecutionProperties.NullOutputTakesFirstUnconditioned | src/main/java/com/kingsrook/qbits/workflows/execution/WorkflowExecutor.java:378-403 | a null output matches no condition: only an unconditioned link can be taken, the first one |
| ExecutionProperties.RunLoopKeeps | src/main/java/com/kingsrook/qbits/workflows/execution/WorkflowExecutor.java:236-248 | the step loop keeps the log discipline: entries only appended, numbers distinct and taken from the counter |
| ExecutionProperties.AdvanceKeeps | src/main/java/com/kingsrook/qbits/workflows/execution/WorkflowExecutor.java:236-260 | logging a step and resolving its successor keeps the log discipline and the container-only stack |
| ExecutionProperties.ExecStepKeeps | src/main/java/com/kingsrook/qbits/workflows/execution/WorkflowExecutor.java:431-460 | executing one step keeps the log discipline |
| ExecutionProperties.ForkStepKeeps | src/main/java/com/kingsrook/qbits/workflows/execution/WorkflowMultiForkingStepExecutorInterface.java:53-101 | the fork protocol keeps the log discipline |
| ExecutionProperties.ForkFinishKeeps | src/main/java/com/kingsrook/qbits/workflows/execution/WorkflowMultiForkingStepExecutorInterface.java:85-98 | the end of the fork protocol keeps the log discipline |
| ExecutionProperties.ForkLoopKeeps | src/main/java/com/kingsrook/qbits/workflows/execution/WorkflowMultiForkingStepExecutorInterface.java:67-84 | the loop over the forks keeps the log discipline |
| ExecutionProperties.ForkOneKeeps | src/main/java/com/kingsrook/qbits/workflows/execution/WorkflowMultiForkingStepExecutorInterface.java:67-83 | one fork keeps the log discipline |
| ExecutionProperties.ForkEntryAfterBranch | src/main/java/com/kingsrook/qbits/workflows/execution/WorkflowMultiForkingStepExecutorInterface.java:71 | appending the fork's entry after its branch, with the number taken before, keeps the discipline |
| ExecutionProperties.RunLogNumbering | src/main/java/com/kingsrook/qbits/workflows/execution/WorkflowExecutor.java:172 | after the loop every log entry has its own number below the counter, the old entries unchanged |
| ExecutionProperties.StackHoldsContainers | src/main/java/com/kingsrook/qbits/workflows/execution/WorkflowExecutor.java:344-359 | the container stack holds only container steps throughout a run |
| ExecutionProperties.MissingStepThrows | src/main/java/com/kingsrook/qbits/workflows/execution/WorkflowExecutor.java:228-234 | a step number missing from the map throws "Step not found by stepNo: N" rather than being skipped |
| ExecutionProperties.StopStepWinsOverHalt | src/main/java/com/kingsrook/qbits/workflows/execution/WorkflowExecutor.java:250-260 | a successor equal to the stop step returns false without running it, even when the step asked to halt |
| ExecutionProperties.HaltStopsLoop | src/main/java/com/kingsrook/qbits/workflows/execution/WorkflowExecutor.java:250-260 | a step asking to halt ends the loop with true once logged, unless its successor is the stop step |
| ExecutionProperties.ContainerRunsNothing | src/main/java/com/kingsrook/qbits/workflows/execution/WorkflowExecutor.java:439-442 | a container step runs nothing: empty output and unchanged state |
| ExecutionProperties.ForksUseSortedJoin | src/main/java/com/kingsrook/qbits/workflows/execution/WorkflowMultiForkingStepExecutorInterface.java:61-65 | the ordering hook runs first and the join is computed once from the reordered fork destinations |
| ExecutionProperties.ForkEntryPrecedesBranch | src/main/java/com/kingsrook/qbits/workflows/execution/WorkflowMultiForkingStepExecutorInterface.java:71-83 | a fork's number is below its branch's numbers yet its entry is appended after theirs; the branch runs only when the hook says true, from the link's destination up to the join |
| ExecutionProperties.HaltSkipsLaterForks | src/main/java/com/kingsrook/qbits/workflows/execution/WorkflowMultiForkingStepExecutorInterface.java:79-82 | after a branch signals halt no further fork runs |
| ExecutionProperties.ForkLoopLogsEachFork | src/main/java/com/kingsrook/qbits/workflows/execution/WorkflowMultiForkingStepExecutorInterface.java:67-84 | every fork processed gets exactly one log entry, activated or not, under the number it took before its branch ran; the loop processes every fork unless one asks the workflow to stop |
| ExecutionProperties.ForkHaltPropagates | src/main/java/com/kingsrook/qbits/workflows/execution/WorkflowMultiForkingStepExecutorInterface.java:85-98 | a halt from a branch is carried by the step's output; the aggregation hook and postRun still run |
| ExecutionProperties.ErrorMessageRecorded | src/main/java/com/kingsrook/qbits/workflows/execution/WorkflowExecutor.java:186-210 | a failing run records its exception's message unless a message with content was already there |
| ExecutionProperties.CallerTransactionNotOwned | src/main/java/com/kingsrook/qbits/workflows/execution/WorkflowExecutor.java:159-167 | a run given the caller's transaction never opens one of its own |
| ExecutionProperties.LeftoverStackCarried | src/main/java/com/kingsrook/qbits/workflows/execution/WorkflowExecutor.java:74 | execute never clears the executor's container stack: a run that fails before the step loop hands back the stack it was given and logs nothing; a loaded run starts from it and, given container steps only, leaves container steps only |
| ExecutionProperties.StepMapKeyed | src/main/java/com/kingsrook/qbits/workflows/execution/WorkflowExecutor.java:480-489 | every step of the loaded step map is stored under its own number |
| ExecutionProperties.CompletedRunNumbering | src/main/java/com/kingsrook/qbits/workflows/execution/WorkflowExecutor.java:172 | a completed run's log entries are numbered consecutively from 1 |
| ExecutionJoin.JoinRunsOnceAfterForks | src/main/java/com/kingsrook/qbits/workflows/execution/WorkflowMultiForkingStepExecutorInterface.java:65-83 | for a variable multi-forking step whose forks lead neither to their first join J nor back to it, the forks log no entry for J, and once the step is logged the step loop goes on at J (unless J is the stop step or the step asked to stop), whichever forks were activated |
| ExecutionJoin.ForkStepAvoidsJoin | src/main/java/com/kingsrook/qbits/workflows/execution/WorkflowMultiForkingStepExecutorInterface.java:61-83 | the fork step keeps its sorted links and the branches it runs, stopping at J, log no entry for J |
| ExecutionJoin.VariableAdvancesToJoin | src/main/java/com/kingsrook/qbits/workflows/execution/WorkflowExecutor.java:242-250 | after a variable step whose links join at J, the step is logged and the loop stops there, stops on halt, or goes on at J |
| ExecutionJoin.BranchAvoidsJoin | src/main/java/com/kingsrook/qbits/workflows/execution/WorkflowExecutor.java:226-261 | a branch of plain steps started elsewhere than J or the fork step, with stop step J, keeps the links and logs no entry for J |
| ExecutionJoin.ResolveAvoids | src/main/java/com/kingsrook/qbits/workflows/execution/WorkflowExecutor.java:331-423 | resolving the next step from anything but the fork step never yields the fork step when no link leads to it |
| ExecutionJoin.ForksAvoidJoin | src/main/java/com/kingsrook/qbits/workflows/execution/WorkflowMultiForkingStepExecutorInterface.java:67-90 | the fork loop over forks that avoid J and the fork step logs no entry for J |
| ExecutionJoin.JoinIsNotFork | src/main/java/com/kingsrook/qbits/workflows/execution/FindFirstJoinPoint.java:49-63 | the first join of forks that never lead back to the fork step is not the fork step |
| ExecutionJoin.ForkToJoinRunsJoin | src/main/java/com/kingsrook/qbits/workflows/execution/WorkflowMultiForkingStepExecutorInterface.java:77 | a fork whose link leads straight to J and whose hook answers true runs J inside its branch: its first new entry is J's, its last the fork's |
| ExecutionJoin.JoinRunsFirst | src/main/java/com/kingsrook/qbits/workflows/execution/WorkflowExecutor.java:226-254 | a step loop started at its own stop step runs that step before it can stop |
| ExecutionJoin.ForkOneFixedSkipsJoin | src/main/java/com/kingsrook/qbits/workflows/execution/WorkflowMultiForkingStepExecutorInterface.java:74-83 | with the corrected fork, a fork straight to the stop step logs only its own entry under the number it took, and any other fork behaves as written |
| Execution.WorkflowExecutor.constructor | src/main/java/com/kingsrook/qbits/workflows/execution/WorkflowExecutor.java:74 | the payload starts with a counter at 1 and an empty log over the container stack the executor holds, which is empty only for a new executor |
| Execution.WorkflowExecutor.GetNextStepNo | src/main/java/com/kingsrook/qbits/workflows/execution/WorkflowExecutor.java:331-424 | the result and the new container stack are those of Resolve; nothing else changes |
| Execution.WorkflowExecutor.NextStep | src/main/java/com/kingsrook/qbits/workflows/execution/WorkflowExecutor.java:331-424 | the next step number and container stack are those Resolve describes, a pop climbing the stack until a container has a pop link |
| Execution.WorkflowExecutor.NextOfVariable | src/main/java/com/kingsrook/qbits/workflows/execution/WorkflowExecutor.java:364-372 | after a VARIABLE step the next step is the first join point of its links' destinations, as VariableNext describes |
| Execution.WorkflowExecutor.RunStepLoop | src/main/java/com/kingsrook/qbits/workflows/execution/WorkflowExecutor.java:226-264 | the loop leaves the result and run state RunLoop describes |
| Execution.WorkflowExecutor.RunIteration | src/main/java/com/kingsrook/qbits/workflows/execution/WorkflowExecutor.java:228-260 | one pass of the while loop either ends the loop with the result RunLoop gives, or leaves the step number from which RunLoop with one less fuel gives the same outcome |
| Execution.WorkflowExecutor.LogAndAdvance | src/main/java/com/kingsrook/qbits/workflows/execution/WorkflowExecutor.java:242-260 | logging a step and choosing the next one ends or continues the loop exactly as Advance describes |
| Execution.WorkflowExecutor.ExecuteStep | src/main/java/com/kingsrook/qbits/workflows/execution/WorkflowExecutor.java:431-460 | the result and state ExecStep describes: the container shortcut, then the step's executor |
| Execution.WorkflowExecutor.ExecuteForks | src/main/java/com/kingsrook/qbits/workflows/execution/WorkflowMultiForkingStepExecutorInterface.java:53-101 | the result and state ForkStep describes: preRun, sort, one join, the forks, postRun |
| Execution.WorkflowExecutor.RunForks | src/main/java/com/kingsrook/qbits/workflows/execution/WorkflowMultiForkingStepExecutorInterface.java:67-84 | the for-loop leaves what ForkLoop describes, breaking after a halt |
| Execution.WorkflowExecutor.RunFork | src/main/java/com/kingsrook/qbits/workflows/execution/WorkflowMultiForkingStepExecutorInterface.java:71-83 | one fork leaves what ForkOne describes |
| Execution.Transaction.Commit | src/main/java/com/kingsrook/qbits/workflows/execution/WorkflowExecutor.java:179-182 | a commit is recorded after the earlier calls |
| Execution.Transaction.Rollback | src/main/java/com/kingsrook/qbits/workflows/execution/WorkflowExecutor.java:195-198 | a rollback is recorded after the earlier calls |
| Execution.Transaction.Close | src/main/java/com/kingsrook/qbits/workflows/execution/WorkflowExecutor.java:211-217 | a close is recorded after the earlier calls |
| Execution.StartValues | src/main/java/com/kingsrook/qbits/workflows/execution/WorkflowExecutor.java:88-117 | the context starts with the input values put over its own: every key of either, input values winning |
| Execution.Execute | src/main/java/com/kingsrook/qbits/workflows/execution/WorkflowExecutor.java:83-219 | the report ExecuteRun describes, starting from the container stack the executor holds; a caller's transaction is untouched; an owned one is committed on success or rolled back on error, then closed |
| Execution.Prepare | src/main/java/com/kingsrook/qbits/workflows/execution/WorkflowExecutor.java:134-167 | the load, type lookup, preRun and transaction choice end the run early or leave it ready as SetupRun describes; an early end has opened no transaction; a transaction is owned exactly when the caller gave none |
| Execution.FinishOwned | src/main/java/com/kingsrook/qbits/workflows/execution/WorkflowExecutor.java:179-217 | an owned transaction is committed when the run succeeded or rolled back when it failed, and then closed |
| Execution.ExecuteRevision | src/main/java/com/kingsrook/qbits/workflows/execution/WorkflowExecutor.java:120-178 | the payload and step loop of a loaded revision, from the executor's container stack, leave the report RunRevision describes, the stack included |
| GraphBuilder.NodeSequence.constructor | src/main/java/com/kingsrook/qbits/workflows/execution/nodes/NodeSequence.java:38-41 | a new sequence is empty |
| GraphBuilder.NodeSequence.Add | src/main/java/com/kingsrook/qbits/workflows/execution/nodes/NodeSequence.java:48-51 | the node is appended, the size grows by one, and every earlier node stays where it was |
| GraphBuilder.NodeSequence.Get | src/main/java/com/kingsrook/qbits/workflows/execution/nodes/NodeSequence.java:58-61 | the i-th node added for i below the size; List.get throws otherwise |
| GraphBuilder.NodeSequence.Size | src/main/java/com/kingsrook/qbits/workflows/execution/nodes/NodeSequence.java:68-71 | the number of nodes added |
| GraphBuilder.FirstWithConditionFinds | src/main/java/com/kingsrook/qbits/workflows/execution/nodes/StepNodeGraphBuilder.java:192-214 | the first link with the condition value, none iff no link has it |
| GraphBuilder.BuildNodeSequence | src/main/java/com/kingsrook/qbits/workflows/execution/nodes/StepNodeGraphBuilder.java:60-80 | a fresh sequence holding exactly the nodes BuildGraph describes, or the same exception |
| GraphBuilder.Fill | src/main/java/com/kingsrook/qbits/workflows/execution/nodes/StepNodeGraphBuilder.java:87-220 | the loop appends exactly the nodes Sequence describes to the sequence it is given |
| GraphBuilder.Turn | src/main/java/com/kingsrook/qbits/workflows/execution/nodes/StepNodeGraphBuilder.java:94-220 | one turn of the loop ends the sequence or continues at the step Sequence continues at |
| GraphBuilder.TurnByMode | src/main/java/com/kingsrook/qbits/workflows/execution/nodes/StepNodeGraphBuilder.java:139-220 | at a step with several or conditioned links the turn follows the type's mode as Sequence describes: a branching turn, a container turn, or the warning and the same step again |
| GraphBuilder.TurnAtBranch | src/main/java/com/kingsrook/qbits/workflows/execution/nodes/StepNodeGraphBuilder.java:141-187 | the turn at a branching step is the one BranchTurn describes |
| GraphBuilder.FillBranching | src/main/java/com/kingsrook/qbits/workflows/execution/nodes/StepNodeGraphBuilder.java:151-185 | with the join found, the filled branches, the added node and the continuation at the join are those BranchTurn describes |
| GraphBuilder.AddBranching | src/main/java/com/kingsrook/qbits/workflows/execution/nodes/StepNodeGraphBuilder.java:182-185 | the node keyed by the filled branches is added and the loop continues at the join step, as BranchTurn describes |
| GraphBuilder.TurnAtContainer | src/main/java/com/kingsrook/qbits/workflows/execution/nodes/StepNodeGraphBuilder.java:192-214 | the turn at a container is the one ContainerTurn describes |
| GraphBuilder.AddContainer | src/main/java/com/kingsrook/qbits/workflows/execution/nodes/StepNodeGraphBuilder.java:203-214 | the container node is added; with no pop link the sequence ends, otherwise it continues at the pop destination (or the same step) as ContainerTurn describes |
| GraphBuilder.FillBranches | src/main/java/com/kingsrook/qbits/workflows/execution/nodes/StepNodeGraphBuilder.java:151-180 | the for-loop over the links fills the map Branches describes |
| GraphBuilder.FillContainer | src/main/java/com/kingsrook/qbits/workflows/execution/nodes/StepNodeGraphBuilder.java:192-204 | the container's "push" sequence is the one ContainerContents describes |
| GraphBuilderProperties.Plain | src/main/java/com/kingsrook/qbits/workflows/execution/nodes/StepNodeGraphBuilder.java:120-137 | a list of steps as nodes with no sub-sequences, one per step |
| GraphBuilderProperties.SequenceAtPlain | src/main/java/com/kingsrook/qbits/workflows/execution/nodes/StepNodeGraphBuilder.java:120-137 | a step with one unconditioned link is added, then the loop follows the link unless it ends the sequence |
| GraphBuilderProperties.SequenceAtLast | src/main/java/com/kingsrook/qbits/workflows/execution/nodes/StepNodeGraphBuilder.java:113-118 | a registered step with no outbound links is added and ends the sequence |
| GraphBuilderProperties.SequenceAtBranch | src/main/java/com/kingsrook/qbits/workflows/execution/nodes/StepNodeGraphBuilder.java:141-187 | a TWO or VARIABLE step's turn is the branch turn |
| GraphBuilderProperties.SequenceAtContainer | src/main/java/com/kingsrook/qbits/workflows/execution/nodes/StepNodeGraphBuilder.java:192-214 | a CONTAINER step's turn is the container turn |
| GraphBuilderProperties.SequenceAtWarning | src/main/java/com/kingsrook/qbits/workflows/execution/nodes/StepNodeGraphBuilder.java:216-219 | a ZERO or ONE step with several links only draws the warning and is re-added |
| GraphBuilderProperties.BranchTurnParts | src/main/java/com/kingsrook/qbits/workflows/execution/nodes/StepNodeGraphBuilder.java:141-187 | a completed branch turn is the step's node then the sequence from the join |
| GraphBuilderProperties.ChainBuildsFlat | src/main/java/com/kingsrook/qbits/workflows/execution/nodes/StepNodeGraphBuilder.java:120-137 | a chain of single unconditioned links yields one flat sequence in chain order |
| GraphBuilderProperties.JoinNeverAdded | src/main/java/com/kingsrook/qbits/workflows/execution/nodes/StepNodeGraphBuilder.java:101-107 | no node added is the join step, and every node added has a registered type (an unknown type ends the sequence) |
| GraphBuilderProperties.JoinNeverAddedByMode | src/main/java/com/kingsrook/qbits/workflows/execution/nodes/StepNodeGraphBuilder.java:101-107 | a turn its mode decides keeps the join out when the later turns do |
| GraphBuilderProperties.BranchesKeys | src/main/java/com/kingsrook/qbits/workflows/execution/nodes/StepNodeGraphBuilder.java:151-180 | the branch map has one key per condition value of the links |
| GraphBuilderProperties.BranchesKeepOthers | src/main/java/com/kingsrook/qbits/workflows/execution/nodes/StepNodeGraphBuilder.java:151-180 | the branch loop leaves alone every entry no later link writes |
| GraphBuilderProperties.BranchesEntry | src/main/java/com/kingsrook/qbits/workflows/execution/nodes/StepNodeGraphBuilder.java:151-180 | each condition value holds the branch of its last link: empty when it goes to the join or nowhere, else the sequence up to the join |
| GraphBuilderProperties.BranchStepContinuesAtJoin | src/main/java/com/kingsrook/qbits/workflows/execution/nodes/StepNodeGraphBuilder.java:146 | a branching step continues at the join step, ends when there is none, and throws for a join with no step |
| GraphBuilderProperties.BranchStepSubSequences | src/main/java/com/kingsrook/qbits/workflows/execution/nodes/StepNodeGraphBuilder.java:151-180 | a branching step keys one sub-sequence per condition value; a link to the join gives an empty one |
| GraphBuilderProperties.SingleConditionedBranch | src/main/java/com/kingsrook/qbits/workflows/execution/nodes/StepNodeGraphBuilder.java:120 | a branch with one conditioned link gets that sub-sequence with no join bound, and the outer sequence ends |
| GraphBuilderProperties.ContainerStepShape | src/main/java/com/kingsrook/qbits/workflows/execution/nodes/StepNodeGraphBuilder.java:192-214 | a container holds its contents under "push", built with no join bound, and continues at "pop" or ends without one |
| GraphBuilderProperties.WarningStepDiverges | src/main/java/com/kingsrook/qbits/workflows/execution/nodes/StepNodeGraphBuilder.java:216-219 | a non-branch step with several or conditioned links makes the loop re-add it forever |
| GraphBuilderProperties.PopToNowhereNeverEnds | src/main/java/com/kingsrook/qbits/workflows/execution/nodes/StepNodeGraphBuilder.java:203-210 | a container whose pop link has no destination is re-added every turn and never completes |
| GraphBuilderExamples.SimpleFlat | src/test/java/com/kingsrook/qbits/workflows/execution/nodes/StepNodeGraphBuilderTest.java:59-76 | three action steps 1 -> 2 -> 3 build the flat sequence 1, 2, 3 |
| GraphBuilderExamples.OneSidedBranch | src/test/java/com/kingsrook/qbits/workflows/execution/nodes/StepNodeGraphBuilderTest.java:104-114 | action 1 -> branch 2 -> "true" action 3 builds [1, 2] with "true" = [3] under the branch |
| Registry.Put | src/main/java/com/kingsrook/qbits/workflows/definition/WorkflowsRegistry.java:140-163 | the table stays well formed: each name once, in first-registration order |
| Registry.PutThenGet | src/main/java/com/kingsrook/qbits/workflows/definition/WorkflowsRegistry.java:140-163 | after a put, get returns the new entry and every other name is unchanged |
| Registry.PutKeepsOrder | src/main/java/com/kingsrook/qbits/workflows/definition/WorkflowsRegistry.java:63-64 | re-registering keeps the name's place and replaces only its entry; a new name goes to the end |
| Registry.HelpTouchesOnlyNamedStepType | src/main/java/com/kingsrook/qbits/workflows/definition/WorkflowsRegistry.java:212-217 | help content edits at most the step type it names; without a known step type nothing changes |
| Registry.DescriptionSlot | src/main/java/com/kingsrook/qbits/workflows/definition/WorkflowsRegistry.java:218-221 | the "description" slot sets the description, and null help clears it |
| Registry.LabelSlot | src/main/java/com/kingsrook/qbits/workflows/definition/WorkflowsRegistry.java:222-231 | the "label" slot sets the label, and null help leaves it unchanged |
| Registry.DescriptionFieldAppended | src/main/java/com/kingsrook/qbits/workflows/definition/WorkflowsRegistry.java:235-244 | help for "qswdDescription" appends exactly one input field |
| Registry.FieldHelpOnMatchingFields | src/main/java/com/kingsrook/qbits/workflows/definition/WorkflowsRegistry.java:245-258 | help for any other field sets or clears help on the fields of that name only |
| Registry.HelpContentScenario | src/test/java/com/kingsrook/qbits/workflows/definition/WorkflowsRegistryTest.java:62-93 | the registry test's description, label and field help sequence |
| Registry.WorkflowsRegistry.constructor | src/main/java/com/kingsrook/qbits/workflows/definition/WorkflowsRegistry.java:61-65 | a new registry has two empty tables |
| Registry.WorkflowsRegistry.GetWorkflowType | src/main/java/com/kingsrook/qbits/workflows/definition/WorkflowsRegistry.java:100-103 | null iff the workflow type is unregistered |
| Registry.WorkflowsRegistry.GetAllWorkflowTypes | src/main/java/com/kingsrook/qbits/workflows/definition/WorkflowsRegistry.java:110-113 | the workflow types in first-registration order |
| Registry.WorkflowsRegistry.GetWorkflowStepType | src/main/java/com/kingsrook/qbits/workflows/definition/WorkflowsRegistry.java:120-123 | null iff the step type is unregistered |
| Registry.WorkflowsRegistry.GetAllWorkflowStepTypes | src/main/java/com/kingsrook/qbits/workflows/definition/WorkflowsRegistry.java:130-133 | the step types in first-registration order |
| Registry.WorkflowsRegistry.RegisterWorkflowType | src/main/java/com/kingsrook/qbits/workflows/definition/WorkflowsRegistry.java:140-148 | the workflow-type table is the put of the type; the step types are unchanged |
| Registry.WorkflowsRegistry.RegisterWorkflowStepType | src/main/java/com/kingsrook/qbits/workflows/definition/WorkflowsRegistry.java:155-163 | the step-type table is the put of the step type; the workflow types are unchanged |
| Registry.WorkflowsRegistry.AcceptHelpContent | src/main/java/com/kingsrook/qbits/workflows/definition/WorkflowsRegistry.java:210-258 | the step-type table is the one AcceptHelp describes; the workflow types are unchanged |
| StoreRevision.ValidatePrefix | src/main/java/com/kingsrook/qbits/workflows/processes/StoreNewWorkflowRevisionProcess.java:245-294 | the loop over the first n steps stamps exactly n steps |
| StoreRevision.ValidateSteps | src/main/java/com/kingsrook/qbits/workflows/processes/StoreNewWorkflowRevisionProcess.java:245-294 | the forEach loop leaves the stamped steps and errors ValidatePrefix describes |
| StoreRevision.ProcessStep | src/main/java/com/kingsrook/qbits/workflows/processes/StoreNewWorkflowRevisionProcess.java:249-293 | one pass over a step leaves the stamped step, its errors and the leftover list StepPass describes |
| StoreRevision.Attempt | src/main/java/com/kingsrook/qbits/workflows/processes/StoreNewWorkflowRevisionProcess.java:121-335 | the try block ends as Store describes, a user-facing exception from a workflow-type validator passing through unchanged |
| StoreRevision.Run | src/main/java/com/kingsrook/qbits/workflows/processes/StoreNewWorkflowRevisionProcess.java:121-361 | ends as Store describes; the transaction is committed then closed on success, rolled back then closed on any failure |
| StoreRevisionProperties.InputChecksInOrder | src/main/java/com/kingsrook/qbits/workflows/processes/StoreNewWorkflowRevisionProcess.java:133-175 | inputs are rejected in order: id, workflow, steps missing or unparsable, links missing or unparsable |
| StoreRevisionProperties.MaxOf | src/main/java/com/kingsrook/qbits/workflows/processes/StoreNewWorkflowRevisionProcess.java:187-197 | the largest of the stored versions |
| StoreRevisionProperties.NextVersionExceedsExisting | src/main/java/com/kingsrook/qbits/workflows/processes/StoreNewWorkflowRevisionProcess.java:187-197 | the new version is the largest stored version plus one, 1 with none, so above every stored version |
| StoreRevisionProperties.StepPassStamps | src/main/java/com/kingsrook/qbits/workflows/processes/StoreNewWorkflowRevisionProcess.java:251-270 | one pass stamps the step with the revision id and changes nothing else but its summary |
| StoreRevisionProperties.StepsStamped | src/main/java/com/kingsrook/qbits/workflows/processes/StoreNewWorkflowRevisionProcess.java:245-294 | every step is stamped with the revision id, in order |
| StoreRevisionProperties.ErrorsOnlyGrow | src/main/java/com/kingsrook/qbits/workflows/processes/StoreNewWorkflowRevisionProcess.java:245-294 | errors are only ever appended, so every step is validated before failing |
| StoreRevisionProperties.UnparsableInputsReported | src/main/java/com/kingsrook/qbits/workflows/processes/StoreNewWorkflowRevisionProcess.java:262-263 | a step of a registered type whose input values do not parse is reported as "Error processing Step N: " with the parser's message |
| StoreRevisionProperties.TypeValidatorThrowDecides | src/main/java/com/kingsrook/qbits/workflows/processes/StoreNewWorkflowRevisionProcess.java:299-304 | once the revision is inserted, a workflow-type validator that throws a user-facing exception ends the save with that exception's own message, any other throw ends it with "Error storing workflow revision", whatever errors the steps collected |
| StoreRevisionProperties.UnknownTypeReported | src/main/java/com/kingsrook/qbits/workflows/processes/StoreNewWorkflowRevisionProcess.java:253-257 | a step of unknown type is reported as "Error processing Step N: ..." |
| StoreRevisionProperties.ThrowingValidatorReported | src/main/java/com/kingsrook/qbits/workflows/processes/StoreNewWorkflowRevisionProcess.java:276-292 | a validator that throws is reported against its own step |
| StoreRevisionProperties.StoredShape | src/main/java/com/kingsrook/qbits/workflows/processes/StoreNewWorkflowRevisionProcess.java:187-335 | a saved revision has the next version, the start step (first step's number, else 1), the commit message and author, and every step registered and stamped |
| StoreRevisionProperties.ErrorSummaryCount | src/main/java/com/kingsrook/qbits/workflows/processes/StoreNewWorkflowRevisionProcess.java:306-310 | the aborting message begins with the error count, singular for one |
| StoreRevisionProperties.ErrorsInSummary | src/main/java/com/kingsrook/qbits/workflows/processes/StoreNewWorkflowRevisionProcess.java:306-310 | the aborting message contains every collected error |
| StoreRevisionProperties.TwoErrorSummary | src/main/java/com/kingsrook/qbits/workflows/processes/StoreNewWorkflowRevisionProcess.java:306-310 | the aborting message for two errors, written out |
| StoreRevisionProperties.UnknownTypesReportedTogether | src/test/java/com/kingsrook/qbits/workflows/processes/StoreNewWorkflowRevisionProcessTest.java:85-88 | two steps of unregistered types are both reported, numbered, in order |
| StoreRevisionProperties.IntendedIsPerStep | src/main/java/com/kingsrook/qbits/workflows/processes/StoreNewWorkflowRevisionProcess.java:245-294 | with a fresh error list per step, validating two runs of steps reports what each reports |
| StoreRevisionProperties.AsWrittenAgreesWhenThrowsClean | src/main/java/com/kingsrook/qbits/workflows/processes/StoreNewWorkflowRevisionProcess.java:276-292 | while no validator adds errors and then throws, the loop as written reports what the intended loop reports |
| StoreRevisionProperties.LeftoverMisattributed | src/main/java/com/kingsrook/qbits/workflows/processes/StoreNewWorkflowRevisionProcess.java:276-292 | a validator that adds "bad field" then throws leaves it to be reported as "Step 2: bad field" by the next step |
| RecordFieldStep.AsString | src/main/java/com/kingsrook/qbits/workflows/implementations/recordworkflows/UpdateInputRecordFieldStep.java:161-162 | getValueAsString: null iff the value is null |
| RecordFieldStep.FirstNamedFinds | src/main/java/com/kingsrook/qbits/workflows/implementations/recordworkflows/UpdateInputRecordFieldStep.java:124 | the first field of the name, none iff no field has it |
| RecordFieldStep.StepSummary | src/main/java/com/kingsrook/qbits/workflows/implementations/recordworkflows/UpdateInputRecordFieldStep.java:184-251 | a summary exists iff the looked-up label has content; otherwise null |
| RecordFieldStep.RecordWorkflowContext.constructor | src/main/java/com/kingsrook/qbits/workflows/implementations/recordworkflows/UpdateInputRecordFieldStep.java:259-263 | a context with its record and a clear needs-update flag |
| RecordFieldStep.RecordWorkflowContext.Execute | src/main/java/com/kingsrook/qbits/workflows/implementations/recordworkflows/UpdateInputRecordFieldStep.java:259-283 | writes the value under the field (the API's name for it through an API), sets the flag, outputs the value with the past-tense summary; when the API field cannot be resolved it throws and changes nothing |
| RecordFieldStepProperties.AfterFirstOfQualified | src/main/java/com/kingsrook/qbits/workflows/implementations/recordworkflows/UpdateInputRecordFieldStep.java:119 | a table-qualified name is cut to the text after its first "." |
| RecordFieldStepProperties.GetApiFieldFinds | src/main/java/com/kingsrook/qbits/workflows/implementations/recordworkflows/UpdateInputRecordFieldStep.java:117-126 | getApiField throws iff the field listing does; else the first API field named like the unqualified name, none iff there is none |
| RecordFieldStepProperties.QualifiedAndPlainAgree | src/main/java/com/kingsrook/qbits/workflows/implementations/recordworkflows/UpdateInputRecordFieldStep.java:119 | "person.firstName" and "firstName" name the same API field |
| RecordFieldStepProperties.NoFieldNameNoSummary | src/main/java/com/kingsrook/qbits/workflows/implementations/recordworkflows/UpdateInputRecordFieldStep.java:189 | without a field name there is no summary |
| RecordFieldStepProperties.LabelFallsBackToFieldName | src/main/java/com/kingsrook/qbits/workflows/implementations/recordworkflows/UpdateInputRecordFieldStep.java:209-212 | a failed label lookup uses the field name as the label |
| RecordFieldStepProperties.TenseOnlyChangesVerb | src/main/java/com/kingsrook/qbits/workflows/implementations/recordworkflows/UpdateInputRecordFieldStep.java:217 | the past and future summaries differ only in "was" against "will be" |
| RecordFieldStepProperties.SetOrClearedOut | src/main/java/com/kingsrook/qbits/workflows/implementations/recordworkflows/UpdateInputRecordFieldStep.java:215-247 | a summary ends with "set to '...'" iff there is a value with content, and with "cleared out" otherwise |
| RecordFieldStepProperties.NoQualifierInside | src/main/java/com/kingsrook/qbits/workflows/implementations/recordworkflows/UpdateInputRecordFieldStep.java:226-228 | no "table." occurrence starts inside a name without a "." |
| RecordFieldStepProperties.DisplayStripsTablePrefix | src/main/java/com/kingsrook/qbits/workflows/implementations/recordworkflows/UpdateInputRecordFieldStep.java:226-233 | the formatter is asked about "firstName" for "person.firstName" of table person |
| RecordFieldStepProperties.DisplayFallsBackToRaw | src/main/java/com/kingsrook/qbits/workflows/implementations/recordworkflows/UpdateInputRecordFieldStep.java:235-240 | when formatting throws the raw value is shown |
| RecordFieldStepProperties.ValidationReportsMissingApiField | src/main/java/com/kingsrook/qbits/workflows/implementations/recordworkflows/UpdateInputRecordFieldStep.java:345-358 | validate adds exactly one error iff the revision uses an API lacking the field, none otherwise; it throws for a null name or a failed listing |
| RecordFieldStepProperties.ValidationWithoutApiAccepts | src/main/java/com/kingsrook/qbits/workflows/implementations/recordworkflows/UpdateInputRecordFieldStep.java:347 | a revision not going through an API accepts any field |
| RecordFieldStepProperties.ValidatorThrowsClean | src/main/java/com/kingsrook/qbits/workflows/implementations/recordworkflows/UpdateInputRecordFieldStep.java:345-358 | validate never adds an error and then throws |
| RecordFieldStepProperties.RecordKeyWithoutApi | src/main/java/com/kingsrook/qbits/workflows/implementations/recordworkflows/UpdateInputRecordFieldStep.java:273-276 | without an API the value is written under the field name as entered |
| RecordFieldStepProperties.RecordKeyThroughApi | src/main/java/com/kingsrook/qbits/workflows/implementations/recordworkflows/UpdateInputRecordFieldStep.java:268-271 | through an API the unqualified field goes to the conversion and the first converted field is the key; none is the "Couldn't find field" error |
| RecordFieldStepProperties.SummaryThroughTable | src/main/java/com/kingsrook/qbits/workflows/implementations/recordworkflows/UpdateInputRecordFieldStep.java:159-177 | the summary uses the table field's name and label when the revision has no API |
| RecordFieldStepProperties.ChangeOfUnprefixed | src/main/java/com/kingsrook/qbits/workflows/implementations/recordworkflows/UpdateInputRecordFieldStep.java:226-233 | a name without the table prefix goes to the formatter unchanged |
| RecordFieldStepExamples.ApiFieldVersionOneFinds | src/test/java/com/kingsrook/qbits/workflows/implementations/recordworkflows/UpdateInputRecordFieldStepTest.java:57-61 | API version 1 finds firstName, qualified or not, and shoeCount |
| RecordFieldStepExamples.ApiFieldVersionOneLacksUnknown | src/test/java/com/kingsrook/qbits/workflows/implementations/recordworkflows/UpdateInputRecordFieldStepTest.java:63-73 | API version 1 has no noSuchField, qualified or not, and no debt |
| RecordFieldStepExamples.ApiFieldVersionOneLacksLater | src/test/java/com/kingsrook/qbits/workflows/implementations/recordworkflows/UpdateInputRecordFieldStepTest.java:78-79 | API version 1 has neither salary nor noOfShoes |
| RecordFieldStepExamples.ApiFieldVersionTwo | src/test/java/com/kingsrook/qbits/workflows/implementations/recordworkflows/UpdateInputRecordFieldStepTest.java:90-91 | version 2 renames shoeCount to noOfShoes |
| RecordFieldStepExamples.ApiFieldVersionThree | src/test/java/com/kingsrook/qbits/workflows/implementations/recordworkflows/UpdateInputRecordFieldStepTest.java:81-82 | version 3 adds salary |
| RecordFieldStepExamples.FirstNameSetSummaries | src/test/java/com/kingsrook/qbits/workflows/implementations/recordworkflows/UpdateInputRecordFieldStepTest.java:108-112 | "First Name will be set to 'John'" and "First Name was set to 'John'" |
| RecordFieldStepExamples.FirstNameClearedSummaries | src/test/java/com/kingsrook/qbits/workflows/implementations/recordworkflows/UpdateInputRecordFieldStepTest.java:114-118 | an empty or missing value gives "will be cleared out" / "was cleared out" |
| RecordFieldStepExamples.FavoriteShapeSummaries | src/test/java/com/kingsrook/qbits/workflows/implementations/recordworkflows/UpdateInputRecordFieldStepTest.java:120-126 | a possible-value field shows "Square" for "1" in both tenses |
| RecordFieldStepExamples.DebtValidation | src/test/java/com/kingsrook/qbits/workflows/implementations/recordworkflows/UpdateInputRecordFieldStepTest.java:137-145 | person.debt is accepted without an API and gets the one "Could not find field" error under API version 1; firstName gets none |
| RecordFieldStepStore.RecordFieldStepsValidateCleanly | src/main/java/com/kingsrook/qbits/workflows/processes/StoreNewWorkflowRevisionProcess.java:276-292 | steps validated by this step type are immune to the leftover-error defect: the store reports what each step reports |
| FilterAdjuster.Rewritten | src/main/java/com/kingsrook/qbits/workflows/implementations/recordworkflows/UpdateInputRecordFieldMetaDataAdjuster.java:213-219 | a value that is not a string starting with "${input." is unchanged; one that is gets "??${input.workflow." appended after itself |
| FilterAdjuster.AdjustValues | src/main/java/com/kingsrook/qbits/workflows/implementations/recordworkflows/UpdateInputRecordFieldMetaDataAdjuster.java:209-220 | the ListIterator pass leaves the array holding the rewrite of its old contents |
| FilterAdjuster.AdjustFilterInputs | src/main/java/com/kingsrook/qbits/workflows/implementations/recordworkflows/UpdateInputRecordFieldMetaDataAdjuster.java:200-227 | every value list of the filter and its sub-filters is rewritten in place; a null filter changes nothing |
| FilterAdjuster.AdjustFilter | src/main/java/com/kingsrook/qbits/workflows/implementations/recordworkflows/UpdateInputRecordFieldMetaDataAdjuster.java:207-226 | the filter's contents become RewrittenFilter of the old contents |
| FilterAdjuster.AdjustCriteria | src/main/java/com/kingsrook/qbits/workflows/implementations/recordworkflows/UpdateInputRecordFieldMetaDataAdjuster.java:207-221 | each criterion's list is rewritten in place |
| FilterAdjuster.AdjustSubFilters | src/main/java/com/kingsrook/qbits/workflows/implementations/recordworkflows/UpdateInputRecordFieldMetaDataAdjuster.java:223-226 | each sub-filter is rewritten by the same rule |
| FilterAdjuster.FieldsToClear | src/main/java/com/kingsrook/qbits/workflows/implementations/recordworkflows/UpdateInputRecordFieldMetaDataAdjuster.java:162-168 | "value" is cleared iff the event is on-change |
| FilterAdjusterProperties.InputReferenceRewritten | src/main/java/com/kingsrook/qbits/workflows/implementations/recordworkflows/UpdateInputRecordFieldMetaDataAdjuster.java:214-218 | "${input.X}" becomes "${input.X}??${input.workflow.X}" |
| FilterAdjusterProperties.NoInputReferencesUnchanged | src/main/java/com/kingsrook/qbits/workflows/implementations/recordworkflows/UpdateInputRecordFieldMetaDataAdjuster.java:200-227 | a filter with no input reference anywhere is left exactly as it was |
| FilterAdjusterExamples.NumberKept | src/test/java/com/kingsrook/qbits/workflows/implementations/recordworkflows/UpdateInputRecordFieldMetaDataAdjusterTest.java:110-112 | a criterion on the number 1 keeps it |
| FilterAdjusterExamples.InputReferenceWidened | src/test/java/com/kingsrook/qbits/workflows/implementations/recordworkflows/UpdateInputRecordFieldMetaDataAdjusterTest.java:114-116 | "${input.someId}" becomes "${input.someId}??${input.workflow.someId}" |
| FilterAdjusterExamples.SubFilterWidened | src/test/java/com/kingsrook/qbits/workflows/implementations/recordworkflows/UpdateInputRecordFieldMetaDataAdjusterTest.java:118-120 | the same rewrite reaches a criterion inside a sub-filter |

## Left out

- Database reads and writes, JSON parsing and the QQQ instance are parameters: `Backend` for the revision store, the loaded revision for the executor, `Lookups` for the update-field step. Their own behaviour is not part of this model.
- `WorkflowStepUtils.useApi`, `GetTableApiFieldsAction`, `FieldAndJoinTable`, `QValueFormatter` and `QRecordApiAdapter` are arbitrary functions in `Lookups`. Only how the step uses their results is modelled.
- `RecordWorkflowContext` is modelled only by its record, its needs-update flag, its table name and its revision.
- The `workflowRevision` entry that the summary reads from the input values is passed as an optional parameter. The `instanceof Map` test is not modelled.
- Value lists shared between two criteria of one filter (aliasing) are excluded by `FilterAdjuster.Unshared`. With shared lists, Java would rewrite a shared list once per criterion.
- The rest of the metadata adjuster's `execute` is not modelled: the field lookup, the possible-value display value on load and the frontend metadata. Only the filter rewrite and the fields to clear are modelled.
- The workflow editor UI widget and `RecordWorkflowUtils` are not part of this model.
- Timestamps, logging and the tracer are not modelled. The log entries keep their step, output, message and sequence number.
- `QCodeLoader` and reflection are not modelled. The step, workflow-type and validator executors are functions given with the types.
- The wording of the exception Java throws on a null dereference is not modelled. It is one fixed message.
- `sortForks` sorts the link list in place. The model replaces the step's links with the hook's result.
- Hooks that change the context's values and then throw: Java keeps the changes in the context's values map, but a failed hook is an `Outcome` `Fail` that carries only the message, so a failed run reports the values as they were before that hook.
- A commit or close that throws is not modelled. Transaction calls are recorded in order.
- `ExecutionSpec.RunLoop`, `ExecutionSpec.ForkStep`, `GraphBuilder.Sequence`: a `fuel` bound replaces unbounded looping and recursion. Running out of fuel gives `Diverged`; the run report (`Execution.RunRevision`) turns it into `OutOfFuel`. A workflow that loops forever in Java is only modelled as far as the fuel reaches.
- `GraphBuilder.BuildNodeSequence`: Java adds a step node to its sequence before filling its sub-sequences through the node's mutable map. The model builds the node first, then adds it. Nothing reads the sequence in between.
- `ExecutionJoin.JoinRunsOnceAfterForks`: stated for a workflow whose only variable or multi-forking step is the fork step, so the branches hold no nested forks. Nested forks are modelled by `ExecutionSpec.ForkStep` but not covered by this lemma.
- The arguments a workflow-type validator receives are not modelled. Its added errors, or its throw (user-facing or not), are fixed per workflow type.
- `QInstance` registration of the registry and its metadata `validate` hooks are not part of this model.
- `FilterAdjuster.Rewritten`: the ensures states only that the rewrite starts with the old value followed by "??${input.workflow.". The full rewritten string is proved for plain names in `FilterAdjusterProperties.InputReferenceRewritten`.
- `RecordFieldStep.StepSummary`: the ensures states when a summary exists. Its wording is proved in `RecordFieldStepProperties`.

## Findings

| source | as written | input that shows it | evidently intended | confidence | as-written member | corrected member |
|---|---|---|---|---|---|---|
| src/main/java/com/kingsrook/qbits/workflows/processes/StoreNewWorkflowRevisionProcess.java:276-292 | `errorsForThisStep` is cleared only after a validator returns normally. After a validator adds an error and then throws, the error stays in the shared list. The next step whose validator returns reports it under its own number | step 1's validator adds "bad field" then throws "boom"; step 2's validator returns and adds nothing; the errors are ["Error processing Step 1: boom", "Step 2: bad field"] | a fresh list per step (`ValidateIntended`): the errors are ["Error processing Step 1: boom"], and each step's errors belong to that step | not executed | StoreRevisionProperties.LeftoverMisattributed | StoreRevisionProperties.IntendedIsPerStep |
| src/main/java/com/kingsrook/qbits/workflows/execution/WorkflowMultiForkingStepExecutorInterface.java:77 | a fork's branch is `runStepLoop(link.getToStepNo(), context, stopStepNo)`, and `runStepLoop` (WorkflowExecutor.java:226-254) compares the next step with the stop step only after running a step. A fork link that leads straight to the join J therefore runs J, and what follows it, inside the branch; the step loop then runs J again after the forks | fork step F (variable, multi-forking) with links F→A and F→J, a link A→J, and J a plain step; the inclusion hook answers true for F→J. The branch from J logs J's entry before F's fork entry, and the loop goes on at J afterwards | a fork link to the join is an empty branch, as the graph builder reads it: the fork logs its own entry and runs nothing, and J runs once, after the forks | not executed | ExecutionJoin.ForkToJoinRunsJoin | ExecutionJoin.ForkOneFixedSkipsJoin |
