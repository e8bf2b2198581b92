/**
 * StoreNewWorkflowRevisionProcess: checks the submitted workflow id, steps and links,
 * numbers the new revision, inserts it, validates every step (collecting prefixed
 * errors), runs the workflow type's validator, and then either saves the steps and
 * links and commits, or rolls back; the transaction is closed either way.
 *
 * The database reads and writes are the Backend's: the workflow lookup, the JSON
 * parsers, the MAX(versionNo) aggregate, the revision insert and the registered types.
 */
module StoreRevision {
  import opened Wrappers
  import opened Strings
  import opened Workflow
  import opened Execution

  /**
   * A submitted WorkflowStep; the process stamps the revision id and a fresh summary on
   * it. Its inputs are its inputValuesJson as ValueUtils.getValueAsMap reads it: the
   * map, or the message of the exception thrown when the JSON does not parse.
   */
  datatype SubmittedStep = SubmittedStep(stepNo: Option<int>, typeName: Option<string>, inputs: Outcome<Values>, revisionId: Option<int>, summary: Option<string>)

  /** The process's input fields. */
  datatype StoreInput = StoreInput(
    workflowId: Option<int>,
    stepsJson: Option<string>,
    linksJson: Option<string>,
    commitMessage: Option<string>,
    apiName: Option<string>,
    apiVersion: Option<string>)

  /** The WorkflowRevision record the process inserts. */
  datatype RevisionRecord = RevisionRecord(
    workflowId: int,
    versionNo: int,
    commitMessage: string,
    apiName: Option<string>,
    apiVersion: Option<string>,
    author: string,
    startStepNo: int)

  /** The inserted revision record: its generated id, and its errors as a string when it has any. */
  datatype InsertResult = InsertResult(id: Option<int>, errors: Option<string>)

  /**
   * What the process reads from and writes to: the stored workflows (each with its type
   * name), the JSON parsers (a failure carries the parser's message), the rows of the
   * MAX(versionNo) aggregate for a workflow, the session user's name ("Unknown" when
   * there is none), the revision insert, the registry's types, and whether one of the
   * later writes (steps, links, workflow update, commit) throws.
   */
  datatype Backend = Backend(
    workflowTypeNames: map<int, string>,
    parseSteps: string -> Outcome<seq<SubmittedStep>>,
    parseLinks: string -> Outcome<seq<Link>>,
    maxVersionRows: int -> seq<Option<int>>,
    userName: string,
    insertRevision: RevisionRecord -> InsertResult,
    stepTypes: map<string, StepType>,
    workflowTypes: map<string, WorkflowType>,
    writesThrow: bool)

  /** How a run ends: saved, a QUserFacingException, or another exception rethrown as a QException. */
  datatype StoreResult =
    | Stored(workflowId: int, revisionId: int, versionNo: int, revision: RevisionRecord, steps: seq<SubmittedStep>, links: seq<Link>)
    | UserError(message: string)
    | InternalError(message: string)

  /** The inputs once every check has passed. */
  datatype Checked = Checked(workflowId: int, workflowTypeName: string, steps: seq<SubmittedStep>, links: seq<Link>)

  const IdRequired: string := "Workflow id is required for storing new workflow revision."
  const StepsMissing: string := "Workflow steps input was not provided."
  const LinksMissing: string := "Workflow links input was not provided."
  const NoVersion: string := "Error getting next version number for workflow."
  const StoreFailed: string := "Error storing workflow revision"
  const UnknownType: string := "Unknown workflow step type "

  /** The input checks, in the order the process makes them. */
  function CheckInputs(input: StoreInput, b: Backend): Outcome<Checked>
  {
    if input.workflowId.None? then Fail(IdRequired)
    else if input.workflowId.value !in b.workflowTypeNames then Fail("Workflow not found by id: " + IntToString(input.workflowId.value))
    else if !HasContent(input.stepsJson) then Fail(StepsMissing)
    else match b.parseSteps(input.stepsJson.value)
      case Fail(e) => Fail("Error parsing workflow steps json: " + e)
      case Ok(steps) =>
        if !HasContent(input.linksJson) then Fail(LinksMissing)
        else match b.parseLinks(input.linksJson.value)
          case Fail(e) => Fail("Error parsing workflow links json: " + e)
          case Ok(links) => Ok(Checked(input.workflowId.value, b.workflowTypeNames[input.workflowId.value], steps, links))
  }

  /** The next version number from the aggregate's rows: the first row's maximum (null as 0) plus one; no rows, none. */
  function NextVersion(rows: seq<Option<int>>): Option<int>
  {
    if |rows| == 0 then None
    else Some((if rows[0].Some? then rows[0].value else 0) + 1)
  }

  /** The revision's start step: the first submitted step's number, otherwise 1. */
  function StartStepNo(steps: seq<SubmittedStep>): int
  {
    if |steps| > 0 && steps[0].stepNo.Some? then steps[0].stepNo.value else 1
  }

  /** The given commit message, or one naming the author when it has no content. */
  function CommitMessage(given: Option<string>, userName: string): string
  {
    if HasContent(given) then given.value else "New workflow revision created by  " + userName
  }

  function RevisionFor(c: Checked, versionNo: int, input: StoreInput, userName: string): RevisionRecord
  {
    RevisionRecord(c.workflowId, versionNo, CommitMessage(input.commitMessage, userName), input.apiName, input.apiVersion, userName, StartStepNo(c.steps))
  }

  function InsertFailure(ins: InsertResult): string
  {
    "Error inserting new workflow revision" + (if ins.errors.Some? then ": " + ins.errors.value else "")
  }

  /** A step number as string concatenation renders it. */
  function StepLabel(stepNo: Option<int>): string
  {
    if stepNo.Some? then IntToString(stepNo.value) else "null"
  }

  function ProcessingError(stepNo: Option<int>, message: string): string
  {
    "Error processing Step " + StepLabel(stepNo) + ": " + message
  }

  /** Validator errors with the step's number in front of each. */
  function Prefixed(stepNo: Option<int>, errors: seq<string>): (r: seq<string>)
    ensures |r| == |errors|
    ensures forall i :: 0 <= i < |errors| ==> r[i] == "Step " + StepLabel(stepNo) + ": " + errors[i]
  {
    seq(|errors|, i requires 0 <= i < |errors| => "Step " + StepLabel(stepNo) + ": " + errors[i])
  }

  /**
   * One step's pass through the validation loop: the stamped step, the errors it adds,
   * and what is left in the errorsForThisStep list shared by all steps.
   */
  datatype Pass = Pass(step: SubmittedStep, errors: seq<string>, pending: seq<string>)

  function StepPass(s: SubmittedStep, stepTypes: map<string, StepType>, workflowId: int, revisionId: int, pending: seq<string>): Pass
  {
    var stamped := s.(revisionId := Some(revisionId));
    if s.typeName.None? || s.typeName.value !in stepTypes then
      Pass(stamped, [ProcessingError(s.stepNo, UnknownType + JavaStr(s.typeName))], pending)
    else if s.inputs.Fail? then Pass(stamped, [ProcessingError(s.stepNo, s.inputs.error)], pending)
    else
      var st := stepTypes[s.typeName.value];
      var summarized := match st.dynamicSummary(workflowId, s.inputs.value)
        case Ok(summary) => stamped.(summary := summary)
        case Fail(_) => stamped;
      if st.validator.None? then Pass(summarized, [], pending)
      else
        var run := st.validator.value(s.inputs.value);
        var collected := pending + run.added;
        if run.thrown.Some? then Pass(summarized, [ProcessingError(s.stepNo, run.thrown.value)], collected)
        else Pass(summarized, Prefixed(s.stepNo, collected), [])
  }

  /** The stamped steps, the errors and the leftover list after the loop has passed the first n steps. */
  datatype Validation = Validation(steps: seq<SubmittedStep>, errors: seq<string>, pending: seq<string>)

  function ValidatePrefix(steps: seq<SubmittedStep>, stepTypes: map<string, StepType>, workflowId: int, revisionId: int, n: nat): (r: Validation)
    requires n <= |steps|
    ensures |r.steps| == n
  {
    if n == 0 then Validation([], [], [])
    else
      var prev := ValidatePrefix(steps, stepTypes, workflowId, revisionId, n - 1);
      var p := StepPass(steps[n - 1], stepTypes, workflowId, revisionId, prev.pending);
      Validation(prev.steps + [p.step], prev.errors + p.errors, p.pending)
  }

  /** The first line of the message that aborts the save, counting the errors. */
  function SummaryHead(count: nat): string
  {
    IntToString(count) + " validation error" + Plural(count) + " occurred" + SummaryTail
  }

  const SummaryTail: string := " before the workflow could be saved:\n"

  /** The message that aborts the save: the count line, then the errors one per line. */
  function ErrorSummary(errors: seq<string>): string
  {
    SummaryHead(|errors|) + Join("\n", errors)
  }

  /** The process, from its input to how it ends (the body of its try block). */
  function Store(input: StoreInput, b: Backend): StoreResult
  {
    match CheckInputs(input, b)
    case Fail(m) => UserError(m)
    case Ok(c) =>
      var version := NextVersion(b.maxVersionRows(c.workflowId));
      if version.None? then UserError(NoVersion)
      else
        var rev := RevisionFor(c, version.value, input, b.userName);
        var ins := b.insertRevision(rev);
        if ins.id.None? then UserError(InsertFailure(ins))
        else
          var v := ValidatePrefix(c.steps, b.stepTypes, c.workflowId, ins.id.value, |c.steps|);
          if c.workflowTypeName !in b.workflowTypes then InternalError(StoreFailed)
          else
            var wt := b.workflowTypes[c.workflowTypeName];
            if wt.validator.Some? && wt.validator.value.thrown.Some? then
              match wt.validator.value.thrown.value
              case UserFacing(m) => UserError(m)
              case Internal(_) => InternalError(StoreFailed)
            else
              var errors := if wt.validator.Some? then v.errors + wt.validator.value.added else v.errors;
              if |errors| > 0 then UserError(ErrorSummary(errors))
              else if b.writesThrow then InternalError(StoreFailed)
              else Stored(c.workflowId, ins.id.value, version.value, rev, v.steps, c.links)
  }

  /** The per-step loop: stamps, summarizes and validates every step, collecting their errors. */
  method ValidateSteps(steps: seq<SubmittedStep>, stepTypes: map<string, StepType>, workflowId: int, revisionId: int)
    returns (stamped: seq<SubmittedStep>, errors: seq<string>)
    ensures ValidatePrefix(steps, stepTypes, workflowId, revisionId, |steps|).steps == stamped
    ensures ValidatePrefix(steps, stepTypes, workflowId, revisionId, |steps|).errors == errors
  {
    stamped, errors := [], [];
    var errorsForThisStep: seq<string> := [];
    for i := 0 to |steps|
      invariant ValidatePrefix(steps, stepTypes, workflowId, revisionId, i) == Validation(stamped, errors, errorsForThisStep)
    {
      var p := ProcessStep(steps[i], stepTypes, workflowId, revisionId, errorsForThisStep);
      stamped := stamped + [p.step];
      errors := errors + p.errors;
      errorsForThisStep := p.pending;
    }
  }

  /**
   * The body of the loop for one step: stamp it with the revision id, read its input
   * values, put a fresh summary on it, run its validator; the errors it adds and the
   * shared list left behind.
   */
  method ProcessStep(s: SubmittedStep, stepTypes: map<string, StepType>, workflowId: int, revisionId: int, errorsForThisStep: seq<string>)
    returns (p: Pass)
    ensures p == StepPass(s, stepTypes, workflowId, revisionId, errorsForThisStep)
  {
    var step := s.(revisionId := Some(revisionId));
    if step.typeName.None? || step.typeName.value !in stepTypes {
      return Pass(step, [ProcessingError(step.stepNo, UnknownType + JavaStr(step.typeName))], errorsForThisStep);
    }
    if step.inputs.Fail? {
      return Pass(step, [ProcessingError(step.stepNo, step.inputs.error)], errorsForThisStep);
    }
    var inputs := step.inputs.value;
    var st := stepTypes[step.typeName.value];
    var summary := st.dynamicSummary(workflowId, inputs);
    if summary.Ok? {
      step := step.(summary := summary.value);
    }
    if st.validator.None? {
      return Pass(step, [], errorsForThisStep);
    }
    var run := st.validator.value(inputs);
    var collected := errorsForThisStep + run.added;
    if run.thrown.Some? {
      return Pass(step, [ProcessingError(step.stepNo, run.thrown.value)], collected);
    }
    if |collected| > 0 {
      return Pass(step, Prefixed(step.stepNo, collected), []);
    }
    return Pass(step, [], collected);
  }

  /** The try block of run: every check and write up to the commit. */
  method Attempt(input: StoreInput, b: Backend) returns (result: StoreResult)
    ensures result == Store(input, b)
  {
    var checked := CheckInputs(input, b);
    if checked.Fail? {
      return UserError(checked.error);
    }
    var c := checked.value;
    var version := NextVersion(b.maxVersionRows(c.workflowId));
    if version.None? {
      return UserError(NoVersion);
    }
    var rev := RevisionFor(c, version.value, input, b.userName);
    var ins := b.insertRevision(rev);
    if ins.id.None? {
      return UserError(InsertFailure(ins));
    }
    var stamped, errors := ValidateSteps(c.steps, b.stepTypes, c.workflowId, ins.id.value);
    if c.workflowTypeName !in b.workflowTypes {
      return InternalError(StoreFailed);
    }
    var wt := b.workflowTypes[c.workflowTypeName];
    if wt.validator.Some? {
      match wt.validator.value.thrown {
        case Some(UserFacing(m)) => return UserError(m);
        case Some(Internal(_)) => return InternalError(StoreFailed);
        case None =>
      }
      errors := errors + wt.validator.value.added;
    }
    if |errors| > 0 {
      return UserError(ErrorSummary(errors));
    }
    if b.writesThrow {
      return InternalError(StoreFailed);
    }
    result := Stored(c.workflowId, ins.id.value, version.value, rev, stamped, c.links);
  }

  /**
   * run: opens a transaction, attempts the save, commits on success and rolls back on
   * any failure, and closes the transaction in every case.
   */
  method Run(input: StoreInput, b: Backend) returns (result: StoreResult, tx: Transaction)
    ensures fresh(tx)
    ensures result == Store(input, b)
    ensures tx.events == if result.Stored? then [Committed, Closed] else [RolledBack, Closed]
  {
    tx := new Transaction();
    result := Attempt(input, b);
    if result.Stored? {
      tx.Commit();
    } else {
      tx.Rollback();
    }
    tx.Close();
  }
}
