/** What the revision store promises: check order, numbering, stamping, error collection. */
module StoreRevisionProperties {
  import opened Wrappers
  import opened Strings
  import opened Workflow
  import opened StoreRevision

  /** The inputs are rejected in order: id, workflow, steps present, steps parse, links present, links parse. */
  lemma InputChecksInOrder(input: StoreInput, b: Backend)
    ensures input.workflowId.None? ==> Store(input, b) == UserError(IdRequired)
    ensures input.workflowId.Some? && input.workflowId.value !in b.workflowTypeNames ==>
              Store(input, b) == UserError("Workflow not found by id: " + IntToString(input.workflowId.value))
    ensures input.workflowId.Some? && input.workflowId.value in b.workflowTypeNames && !HasContent(input.stepsJson) ==>
              Store(input, b) == UserError(StepsMissing)
    ensures input.workflowId.Some? && input.workflowId.value in b.workflowTypeNames && HasContent(input.stepsJson) ==>
              var parsed := b.parseSteps(input.stepsJson.value);
              && (parsed.Fail? ==> Store(input, b) == UserError("Error parsing workflow steps json: " + parsed.error))
              && (parsed.Ok? && !HasContent(input.linksJson) ==> Store(input, b) == UserError(LinksMissing))
              && (parsed.Ok? && HasContent(input.linksJson) && b.parseLinks(input.linksJson.value).Fail? ==>
                    Store(input, b) == UserError("Error parsing workflow links json: " + b.parseLinks(input.linksJson.value).error))
  {
  }

  /** The largest of a non-empty list of version numbers. */
  function MaxOf(vs: seq<int>): (m: int)
    requires |vs| > 0
    ensures forall i :: 0 <= i < |vs| ==> vs[i] <= m
    ensures exists i :: 0 <= i < |vs| && vs[i] == m
  {
    if |vs| == 1 then vs[0]
    else
      var rest := MaxOf(vs[1..]);
      assert forall i :: 1 <= i < |vs| ==> vs[i] == vs[1..][i - 1];
      if vs[0] >= rest then vs[0] else rest
  }

  /** What MAX(versionNo) returns for a workflow's stored versions: one row, null when there are none. */
  function MaxRows(versions: seq<int>): seq<Option<int>>
  {
    [if |versions| == 0 then None else Some(MaxOf(versions))]
  }

  /**
   * The new version number is one more than the largest stored version, or 1 when there
   * is none, so it is larger than every stored version.
   */
  lemma NextVersionExceedsExisting(versions: seq<int>)
    ensures var v := NextVersion(MaxRows(versions));
            && v.Some?
            && (forall i :: 0 <= i < |versions| ==> versions[i] < v.value)
            && (|versions| == 0 ==> v.value == 1)
            && (|versions| > 0 ==> exists i :: 0 <= i < |versions| && versions[i] == v.value - 1)
  {
  }

  /** `r` is `s` stamped with the revision id, with nothing else changed but its summary. */
  predicate Stamped(r: SubmittedStep, s: SubmittedStep, revisionId: int)
  {
    r.revisionId == Some(revisionId) && r.stepNo == s.stepNo && r.typeName == s.typeName && r.inputs == s.inputs
  }

  /** One pass stamps its step with the revision id and changes nothing else but its summary. */
  lemma StepPassStamps(s: SubmittedStep, stepTypes: map<string, StepType>, workflowId: int, revisionId: int, pending: seq<string>)
    ensures Stamped(StepPass(s, stepTypes, workflowId, revisionId, pending).step, s, revisionId)
  {
  }

  /** The loop stamps every step with the revision id and changes nothing else but its summary. */
  lemma {:induction false} StepsStamped(steps: seq<SubmittedStep>, stepTypes: map<string, StepType>, workflowId: int, revisionId: int, n: nat)
    requires n <= |steps|
    ensures var r := ValidatePrefix(steps, stepTypes, workflowId, revisionId, n);
            forall i :: 0 <= i < n ==> Stamped(r.steps[i], steps[i], revisionId)
  {
    if n > 0 {
      StepsStamped(steps, stepTypes, workflowId, revisionId, n - 1);
      var prev := ValidatePrefix(steps, stepTypes, workflowId, revisionId, n - 1);
      var r := ValidatePrefix(steps, stepTypes, workflowId, revisionId, n);
      LastStamped(steps, stepTypes, workflowId, revisionId, n);
      StampedAppend(prev.steps, r.steps[n - 1], r.steps, steps, n, revisionId);
    }
  }

  /** The pass over step n - 1 appends that step, stamped, to the steps stamped before it. */
  lemma LastStamped(steps: seq<SubmittedStep>, stepTypes: map<string, StepType>, workflowId: int, revisionId: int, n: nat)
    requires 0 < n <= |steps|
    ensures var r := ValidatePrefix(steps, stepTypes, workflowId, revisionId, n);
            && r.steps == ValidatePrefix(steps, stepTypes, workflowId, revisionId, n - 1).steps + [r.steps[n - 1]]
            && Stamped(r.steps[n - 1], steps[n - 1], revisionId)
  {
    var prev := ValidatePrefix(steps, stepTypes, workflowId, revisionId, n - 1);
    StepPassStamps(steps[n - 1], stepTypes, workflowId, revisionId, prev.pending);
    PrefixUnfolds(steps, stepTypes, workflowId, revisionId, n);
  }

  /** Stamped steps followed by one more stamped step are stamped, position by position. */
  lemma StampedAppend(stamped: seq<SubmittedStep>, last: SubmittedStep, all: seq<SubmittedStep>, steps: seq<SubmittedStep>, n: nat,
                      revisionId: int)
    requires |stamped| + 1 == n <= |steps| && all == stamped + [last]
    requires forall i :: 0 <= i < |stamped| ==> Stamped(stamped[i], steps[i], revisionId)
    requires Stamped(last, steps[|stamped|], revisionId)
    ensures forall i :: 0 <= i < n ==> Stamped(all[i], steps[i], revisionId)
  {
    forall i | 0 <= i < n
      ensures Stamped(all[i], steps[i], revisionId)
    {
      if i < |stamped| {
        assert all[i] == stamped[i];
      }
    }
  }

  /** Errors are only ever appended: the errors after m steps begin the errors after n >= m steps. */
  lemma {:induction false} ErrorsOnlyGrow(steps: seq<SubmittedStep>, stepTypes: map<string, StepType>, workflowId: int, revisionId: int, m: nat, n: nat)
    requires m <= n <= |steps|
    ensures var early := ValidatePrefix(steps, stepTypes, workflowId, revisionId, m).errors;
            var late := ValidatePrefix(steps, stepTypes, workflowId, revisionId, n).errors;
            |early| <= |late| && late[..|early|] == early
    decreases n
  {
    if m < n {
      ErrorsOnlyGrow(steps, stepTypes, workflowId, revisionId, m, n - 1);
      var early := ValidatePrefix(steps, stepTypes, workflowId, revisionId, m).errors;
      var mid := ValidatePrefix(steps, stepTypes, workflowId, revisionId, n - 1).errors;
      var prev := ValidatePrefix(steps, stepTypes, workflowId, revisionId, n - 1);
      var p := StepPass(steps[n - 1], stepTypes, workflowId, revisionId, prev.pending);
      PrefixUnfolds(steps, stepTypes, workflowId, revisionId, n);
      PrefixThenAppend(early, mid, p.errors);
    }
  }

  /** The loop after n steps is the loop after n - 1 steps followed by one pass. */
  lemma PrefixUnfolds(steps: seq<SubmittedStep>, stepTypes: map<string, StepType>, workflowId: int, revisionId: int, n: nat)
    requires 0 < n <= |steps|
    ensures var prev := ValidatePrefix(steps, stepTypes, workflowId, revisionId, n - 1);
            var p := StepPass(steps[n - 1], stepTypes, workflowId, revisionId, prev.pending);
            ValidatePrefix(steps, stepTypes, workflowId, revisionId, n) == Validation(prev.steps + [p.step], prev.errors + p.errors, p.pending)
  {
  }

  /** A prefix of a sequence is a prefix of that sequence with more appended. */
  lemma PrefixThenAppend(early: seq<string>, mid: seq<string>, more: seq<string>)
    requires |early| <= |mid| && mid[..|early|] == early
    ensures |early| <= |mid + more| && (mid + more)[..|early|] == early
  {
    assert (mid + more)[..|early|] == mid[..|early|];
  }

  /** Every step of an unknown type is reported, whatever the steps after it do. */
  lemma UnknownTypeReported(steps: seq<SubmittedStep>, stepTypes: map<string, StepType>, workflowId: int, revisionId: int, i: nat)
    requires i < |steps|
    requires steps[i].typeName.None? || steps[i].typeName.value !in stepTypes
    ensures ProcessingError(steps[i].stepNo, UnknownType + JavaStr(steps[i].typeName))
              in ValidatePrefix(steps, stepTypes, workflowId, revisionId, |steps|).errors
  {
    ErrorsOnlyGrow(steps, stepTypes, workflowId, revisionId, i + 1, |steps|);
    PrefixUnfolds(steps, stepTypes, workflowId, revisionId, i + 1);
    var here := ValidatePrefix(steps, stepTypes, workflowId, revisionId, i + 1).errors;
    var all := ValidatePrefix(steps, stepTypes, workflowId, revisionId, |steps|).errors;
    assert here[|here| - 1] == all[|here| - 1];
  }

  /** A step of a registered type whose input values do not parse is reported with the parser's message. */
  lemma UnparsableInputsReported(steps: seq<SubmittedStep>, stepTypes: map<string, StepType>, workflowId: int, revisionId: int, i: nat)
    requires i < |steps|
    requires steps[i].typeName.Some? && steps[i].typeName.value in stepTypes && steps[i].inputs.Fail?
    ensures ProcessingError(steps[i].stepNo, steps[i].inputs.error) in ValidatePrefix(steps, stepTypes, workflowId, revisionId, |steps|).errors
  {
    ErrorsOnlyGrow(steps, stepTypes, workflowId, revisionId, i + 1, |steps|);
    PrefixUnfolds(steps, stepTypes, workflowId, revisionId, i + 1);
    var here := ValidatePrefix(steps, stepTypes, workflowId, revisionId, i + 1).errors;
    var all := ValidatePrefix(steps, stepTypes, workflowId, revisionId, |steps|).errors;
    assert here[|here| - 1] == all[|here| - 1];
  }

  /** A validator that throws is reported against its own step, whatever the steps after it do. */
  lemma ThrowingValidatorReported(steps: seq<SubmittedStep>, stepTypes: map<string, StepType>, workflowId: int, revisionId: int, i: nat)
    requires i < |steps|
    requires steps[i].typeName.Some? && steps[i].typeName.value in stepTypes && steps[i].inputs.Ok?
    requires stepTypes[steps[i].typeName.value].validator.Some?
    requires stepTypes[steps[i].typeName.value].validator.value(steps[i].inputs.value).thrown.Some?
    ensures ProcessingError(steps[i].stepNo, stepTypes[steps[i].typeName.value].validator.value(steps[i].inputs.value).thrown.value)
              in ValidatePrefix(steps, stepTypes, workflowId, revisionId, |steps|).errors
  {
    ErrorsOnlyGrow(steps, stepTypes, workflowId, revisionId, i + 1, |steps|);
    PrefixUnfolds(steps, stepTypes, workflowId, revisionId, i + 1);
    var here := ValidatePrefix(steps, stepTypes, workflowId, revisionId, i + 1).errors;
    var all := ValidatePrefix(steps, stepTypes, workflowId, revisionId, |steps|).errors;
    assert here[|here| - 1] == all[|here| - 1];
  }

  /**
   * A saved revision passed every check: it carries the next version number, the start
   * step and commit-message rules and the author, and every submitted step, in order,
   * is of a registered type and stamped with the new revision's id.
   */
  lemma StoredShape(input: StoreInput, b: Backend)
    requires Store(input, b).Stored?
    ensures var r := Store(input, b);
            var c := CheckInputs(input, b);
            && c.Ok?
            && r.workflowId == c.value.workflowId == input.workflowId.value
            && r.links == c.value.links
            && NextVersion(b.maxVersionRows(r.workflowId)) == Some(r.versionNo)
            && r.revision.workflowId == r.workflowId
            && r.revision.versionNo == r.versionNo
            && r.revision.startStepNo == StartStepNo(c.value.steps)
            && r.revision.commitMessage == CommitMessage(input.commitMessage, b.userName)
            && r.revision.author == b.userName
            && b.insertRevision(r.revision).id == Some(r.revisionId)
            && |r.steps| == |c.value.steps|
            && forall i :: 0 <= i < |r.steps| ==>
                 && c.value.steps[i].typeName.Some? && c.value.steps[i].typeName.value in b.stepTypes
                 && c.value.steps[i].inputs.Ok?
                 && r.steps[i].revisionId == Some(r.revisionId)
                 && r.steps[i].stepNo == c.value.steps[i].stepNo
                 && r.steps[i].typeName == c.value.steps[i].typeName
                 && r.steps[i].inputs == c.value.steps[i].inputs
  {
    var r := Store(input, b);
    var c := CheckInputs(input, b).value;
    StepsStamped(c.steps, b.stepTypes, c.workflowId, r.revisionId, |c.steps|);
    var v := ValidatePrefix(c.steps, b.stepTypes, c.workflowId, r.revisionId, |c.steps|);
    assert v.errors == [];
    forall i | 0 <= i < |c.steps|
      ensures c.steps[i].typeName.Some? && c.steps[i].typeName.value in b.stepTypes && c.steps[i].inputs.Ok?
    {
      if c.steps[i].typeName.None? || c.steps[i].typeName.value !in b.stepTypes {
        UnknownTypeReported(c.steps, b.stepTypes, c.workflowId, r.revisionId, i);
      } else if c.steps[i].inputs.Fail? {
        UnparsableInputsReported(c.steps, b.stepTypes, c.workflowId, r.revisionId, i);
      }
    }
  }

  /**
   * Once the revision is inserted, a workflow-type validator that throws decides how the
   * save ends, whatever errors the steps collected: a QUserFacingException reaches the
   * user with its own message, any other exception becomes the generic storing error.
   */
  lemma TypeValidatorThrowDecides(input: StoreInput, b: Backend)
    requires CheckInputs(input, b).Ok?
    requires var c := CheckInputs(input, b).value;
             && NextVersion(b.maxVersionRows(c.workflowId)).Some?
             && b.insertRevision(RevisionFor(c, NextVersion(b.maxVersionRows(c.workflowId)).value, input, b.userName)).id.Some?
             && c.workflowTypeName in b.workflowTypes
             && b.workflowTypes[c.workflowTypeName].validator.Some?
    ensures var thrown := b.workflowTypes[CheckInputs(input, b).value.workflowTypeName].validator.value.thrown;
            && (thrown.Some? && thrown.value.UserFacing? ==> Store(input, b) == UserError(thrown.value.message))
            && (thrown.Some? && thrown.value.Internal? ==> Store(input, b) == InternalError(StoreFailed))
            && (thrown.None? ==> !Store(input, b).InternalError? || b.writesThrow)
  {
  }

  /** s occurs in t at position k. */
  predicate OccursAt(t: string, s: string, k: int)
  {
    0 <= k <= |t| - |s| && t[k..k + |s|] == s
  }

  /** s occurs in t. */
  ghost predicate Contains(t: string, s: string)
  {
    exists k :: OccursAt(t, s, k)
  }

  lemma {:induction false} JoinContainsParts(sep: string, parts: seq<string>, i: nat)
    requires i < |parts|
    ensures Contains(Join(sep, parts), parts[i])
    decreases |parts|
  {
    var j := Join(sep, parts);
    if |parts| == 1 {
      assert OccursAt(j, parts[0], 0);
    } else if i == 0 {
      assert j == parts[0] + (sep + Join(sep, parts[1..]));
      assert OccursAt(j, parts[0], 0);
    } else {
      JoinContainsParts(sep, parts[1..], i - 1);
      var rest := Join(sep, parts[1..]);
      assert parts[1..][i - 1] == parts[i];
      var k :| OccursAt(rest, parts[i], k);
      var head := parts[0] + sep;
      assert j == head + rest;
      assert j[|head| + k..|head| + k + |parts[i]|] == rest[k..k + |parts[i]|];
      assert OccursAt(j, parts[i], |head| + k);
    }
  }

  lemma PrefixOfConcat(a: string, b: string)
    ensures StartsWith(a + b, a)
  {
    assert (a + b)[..|a|] == a;
  }

  /** The count line for one error is in the singular. */
  lemma OneErrorLine()
    ensures IntToString(1) + " validation error" + Plural(1) + " occurred" == "1 validation error occurred"
  {
    assert IntToString(1) == "1";
    assert Plural(1) == "";
  }

  /** The count line for several errors is in the plural. */
  lemma ManyErrorsLine(n: nat)
    requires n > 1
    ensures IntToString(n) + " validation error" + Plural(n) + " occurred" == IntToString(n) + " validation errors occurred"
  {
    assert Plural(n) == "s";
  }

  /** The message that aborts the save begins with the number of errors, in the singular for exactly one. */
  lemma ErrorSummaryCount(errors: seq<string>)
    requires |errors| > 0
    ensures |errors| == 1 ==> StartsWith(ErrorSummary(errors), "1 validation error occurred")
    ensures |errors| > 1 ==> StartsWith(ErrorSummary(errors), IntToString(|errors|) + " validation errors occurred")
  {
    var n := |errors|;
    var longer := IntToString(n) + " validation error" + Plural(n) + " occurred";
    var rest := SummaryTail;
    assert SummaryHead(n) == longer + rest;
    assert ErrorSummary(errors) == longer + (rest + Join("\n", errors));
    PrefixOfConcat(longer, rest + Join("\n", errors));
    if n == 1 {
      OneErrorLine();
    } else {
      ManyErrorsLine(n);
    }
  }

  /** The message that aborts the save contains every collected error. */
  lemma ErrorsInSummary(errors: seq<string>)
    ensures forall i :: 0 <= i < |errors| ==> Contains(ErrorSummary(errors), errors[i])
  {
    var head := SummaryHead(|errors|);
    var msg := ErrorSummary(errors);
    var join := Join("\n", errors);
    forall i | 0 <= i < |errors|
      ensures Contains(msg, errors[i])
    {
      JoinContainsParts("\n", errors, i);
      var k :| OccursAt(join, errors[i], k);
      assert msg[|head| + k..|head| + k + |errors[i]|] == join[k..k + |errors[i]|];
      assert OccursAt(msg, errors[i], |head| + k);
    }
  }

  /** The count line for two errors, written out. */
  lemma TwoErrorsHead()
    ensures SummaryHead(2) == "2 validation errors occurred" + SummaryTail
  {
    ManyErrorsLine(2);
    TwoWritten();
    assert SummaryHead(2) == "2" + " validation errors occurred" + SummaryTail;
    assert "2" + " validation errors occurred" == "2 validation errors occurred";
  }

  /** Integer.toString(2). */
  lemma TwoWritten()
    ensures IntToString(2) == "2"
  {
    assert NatToString(2) == [DigitChar(2)];
  }

  /** The aborting message for two errors. */
  lemma TwoErrorSummary(e1: string, e2: string)
    ensures ErrorSummary([e1, e2]) == "2 validation errors occurred" + SummaryTail + e1 + "\n" + e2
  {
    TwoErrorsHead();
    assert [e1, e2][1..] == [e2];
    assert Join("\n", [e1, e2]) == e1 + "\n" + e2;
  }

  /** The processing error of steps 1 and 2, written out. */
  lemma ProcessingErrorOfOneAndTwo(m: string)
    ensures ProcessingError(Some(1), m) == "Error processing Step 1: " + m
    ensures ProcessingError(Some(2), m) == "Error processing Step 2: " + m
  {
    assert StepLabel(Some(1)) == "1" && StepLabel(Some(2)) == "2";
    assert "Error processing Step " + "1" + ": " == "Error processing Step 1: ";
    assert "Error processing Step " + "2" + ": " == "Error processing Step 2: ";
  }

  /** Two steps of unregistered types are both reported, numbered, in step order. */
  lemma UnknownTypesReportedTogether(stepTypes: map<string, StepType>, workflowId: int, revisionId: int, s1: SubmittedStep, s2: SubmittedStep)
    requires s1.stepNo == Some(1) && s1.typeName == Some("myStepType") && "myStepType" !in stepTypes
    requires s2.stepNo == Some(2) && s2.typeName == Some("yourStepType") && "yourStepType" !in stepTypes
    ensures ValidatePrefix([s1, s2], stepTypes, workflowId, revisionId, 2).errors
            == ["Error processing Step 1: " + UnknownType + "myStepType",
                "Error processing Step 2: " + UnknownType + "yourStepType"]
  {
    assert JavaStr(Some("myStepType")) == "myStepType" && JavaStr(Some("yourStepType")) == "yourStepType";
    ProcessingErrorOfOneAndTwo(UnknownType + "myStepType");
    ProcessingErrorOfOneAndTwo(UnknownType + "yourStepType");
    var e1 := ProcessingError(Some(1), UnknownType + JavaStr(Some("myStepType")));
    var e2 := ProcessingError(Some(2), UnknownType + JavaStr(Some("yourStepType")));
    assert [s1, s2][0] == s1 && [s1, s2][1] == s2;
    assert ValidatePrefix([s1, s2], stepTypes, workflowId, revisionId, 0) == Validation([], [], []);
    assert StepPass(s1, stepTypes, workflowId, revisionId, []).errors == [e1];
    assert [] + [e1] == [e1];
    var first := ValidatePrefix([s1, s2], stepTypes, workflowId, revisionId, 1);
    assert first.errors == [e1];
    assert StepPass(s2, stepTypes, workflowId, revisionId, first.pending).errors == [e2];
    assert [e1] + [e2] == [e1, e2];
    assert e1 == "Error processing Step 1: " + (UnknownType + "myStepType");
    assert e1 == "Error processing Step 1: " + UnknownType + "myStepType";
    assert e2 == "Error processing Step 2: " + UnknownType + "yourStepType";
  }

  /**
   * The errors each step's pass reports with an empty errorsForThisStep list, in step
   * order: the loop as it is evidently meant to work, each validator's errors kept to
   * its own step.
   */
  function ValidateIntended(steps: seq<SubmittedStep>, stepTypes: map<string, StepType>, workflowId: int, revisionId: int): seq<string>
  {
    if |steps| == 0 then []
    else StepPass(steps[0], stepTypes, workflowId, revisionId, []).errors + ValidateIntended(steps[1..], stepTypes, workflowId, revisionId)
  }

  /** With a fresh list per step, validating two runs of steps reports what validating each reports. */
  lemma {:induction false} IntendedIsPerStep(xs: seq<SubmittedStep>, ys: seq<SubmittedStep>, stepTypes: map<string, StepType>, workflowId: int, revisionId: int)
    ensures ValidateIntended(xs + ys, stepTypes, workflowId, revisionId)
            == ValidateIntended(xs, stepTypes, workflowId, revisionId) + ValidateIntended(ys, stepTypes, workflowId, revisionId)
    decreases |xs|
  {
    if |xs| == 0 {
      assert xs + ys == ys;
    } else {
      assert (xs + ys)[0] == xs[0];
      assert (xs + ys)[1..] == xs[1..] + ys;
      IntendedIsPerStep(xs[1..], ys, stepTypes, workflowId, revisionId);
    }
  }

  /** The step's validator, if it throws, has added nothing first. */
  predicate ThrowsClean(s: SubmittedStep, stepTypes: map<string, StepType>)
  {
    s.typeName.Some? && s.typeName.value in stepTypes && s.inputs.Ok? && stepTypes[s.typeName.value].validator.Some? ==>
      var run := stepTypes[s.typeName.value].validator.value(s.inputs.value);
      run.thrown.Some? ==> run.added == []
  }

  /**
   * As long as no validator adds errors and then throws, the loop as written reports
   * exactly what the intended loop reports, and leaves nothing behind.
   */
  lemma {:induction false} AsWrittenAgreesWhenThrowsClean(steps: seq<SubmittedStep>, stepTypes: map<string, StepType>, workflowId: int, revisionId: int, n: nat)
    requires n <= |steps|
    requires forall i :: 0 <= i < |steps| ==> ThrowsClean(steps[i], stepTypes)
    ensures ValidatePrefix(steps, stepTypes, workflowId, revisionId, n).errors == ValidateIntended(steps[..n], stepTypes, workflowId, revisionId)
    ensures ValidatePrefix(steps, stepTypes, workflowId, revisionId, n).pending == []
  {
    if n > 0 {
      AsWrittenAgreesWhenThrowsClean(steps, stepTypes, workflowId, revisionId, n - 1);
      assert steps[..n] == steps[..n - 1] + [steps[n - 1]];
      IntendedIsPerStep(steps[..n - 1], [steps[n - 1]], stepTypes, workflowId, revisionId);
      IntendedOfOne(steps[n - 1], stepTypes, workflowId, revisionId);
      CleanPassLeavesNothing(steps[n - 1], stepTypes, workflowId, revisionId);
    } else {
      assert steps[..0] == [];
    }
  }

  /** The intended loop over one step reports what one pass from an empty list reports. */
  lemma IntendedOfOne(s: SubmittedStep, stepTypes: map<string, StepType>, workflowId: int, revisionId: int)
    ensures ValidateIntended([s], stepTypes, workflowId, revisionId) == StepPass(s, stepTypes, workflowId, revisionId, []).errors
  {
    assert [s][1..] == [];
    var e := StepPass(s, stepTypes, workflowId, revisionId, []).errors;
    assert e + [] == e;
  }

  /** A pass from an empty list whose validator does not add and then throw leaves the list empty. */
  lemma CleanPassLeavesNothing(s: SubmittedStep, stepTypes: map<string, StepType>, workflowId: int, revisionId: int)
    requires ThrowsClean(s, stepTypes)
    ensures StepPass(s, stepTypes, workflowId, revisionId, []).pending == []
  {
    if s.typeName.Some? && s.typeName.value in stepTypes && s.inputs.Ok? && stepTypes[s.typeName.value].validator.Some? {
      var run := stepTypes[s.typeName.value].validator.value(s.inputs.value);
      assert [] + run.added == run.added;
    }
  }

  /**
   * A validator that adds "bad field" and then throws "boom" leaves "bad field" in the
   * shared list; the next step whose validator runs cleanly reports it as its own.
   */
  lemma LeftoverMisattributed(stepTypes: map<string, StepType>, workflowId: int, revisionId: int, s1: SubmittedStep, s2: SubmittedStep)
    requires s1.stepNo == Some(1) && s1.typeName.Some? && s1.typeName.value in stepTypes && s1.inputs.Ok?
    requires stepTypes[s1.typeName.value].validator.Some?
    requires stepTypes[s1.typeName.value].validator.value(s1.inputs.value) == ValidationRun(["bad field"], Some("boom"))
    requires s2.stepNo == Some(2) && s2.typeName.Some? && s2.typeName.value in stepTypes && s2.inputs.Ok?
    requires stepTypes[s2.typeName.value].validator.Some?
    requires stepTypes[s2.typeName.value].validator.value(s2.inputs.value) == ValidationRun([], None)
    ensures ValidatePrefix([s1, s2], stepTypes, workflowId, revisionId, 2).errors == ["Error processing Step 1: boom", "Step 2: bad field"]
    ensures ValidateIntended([s1, s2], stepTypes, workflowId, revisionId) == ["Error processing Step 1: boom"]
  {
    assert IntToString(1) == "1" && IntToString(2) == "2";
    assert StepLabel(Some(1)) == "1" && StepLabel(Some(2)) == "2";
    assert ProcessingError(Some(1), "boom") == "Error processing Step 1: boom";
    var prefixed := Prefixed(Some(2), ["bad field"]);
    assert prefixed[0] == "Step " + StepLabel(Some(2)) + ": " + ["bad field"][0];
    assert prefixed[0] == "Step 2: bad field";
    assert prefixed == ["Step 2: bad field"];
    assert StepPass(s1, stepTypes, workflowId, revisionId, []).errors == ["Error processing Step 1: boom"];
    var bad: seq<string> := ["bad field"];
    assert [] + bad == bad && bad + [] == bad;
    assert StepPass(s1, stepTypes, workflowId, revisionId, []).pending == bad;
    assert [s1, s2][0] == s1 && [s1, s2][1] == s2;
    assert ValidatePrefix([s1, s2], stepTypes, workflowId, revisionId, 0) == Validation([], [], []);
    var boom: seq<string> := ["Error processing Step 1: boom"];
    assert [] + boom == boom && boom + [] == boom;
    var first := ValidatePrefix([s1, s2], stepTypes, workflowId, revisionId, 1);
    assert first.errors == boom && first.pending == bad;
    assert StepPass(s2, stepTypes, workflowId, revisionId, bad).errors == ["Step 2: bad field"];
    assert StepPass(s2, stepTypes, workflowId, revisionId, []).errors == [];
    assert [s1, s2][1..] == [s2] && [s2][1..] == [];
    assert ValidateIntended([s2], stepTypes, workflowId, revisionId) == [];
  }
}
