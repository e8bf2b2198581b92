/** UpdateInputRecordFieldStep's validator as the revision store runs it. */
module RecordFieldStepStore {
  import opened Wrappers
  import opened Workflow
  import opened StoreRevision
  import opened StoreRevisionProperties
  import opened RecordFieldStep
  import opened RecordFieldStepProperties

  /** The step type's validator, for a fixed table, revision and lookups. */
  ghost predicate ValidatesAsRecordField(s: SubmittedStep, stepTypes: map<string, StepType>, tableName: Option<string>, revision: Option<ApiRevision>, env: Lookups)
  {
    s.typeName.Some? && s.typeName.value in stepTypes && s.inputs.Ok? && stepTypes[s.typeName.value].validator.Some? ==>
      stepTypes[s.typeName.value].validator.value(s.inputs.value) == AsValidationRun(tableName, s.inputs.value, revision, env)
  }

  /**
   * A revision whose validated steps are all UpdateInputRecordField steps is not hit by
   * the leftover-errors defect of the revision store: the loop as written reports what
   * each step reports on its own.
   */
  lemma RecordFieldStepsValidateCleanly(steps: seq<SubmittedStep>, stepTypes: map<string, StepType>, workflowId: int, revisionId: int,
                                        tableName: Option<string>, revision: Option<ApiRevision>, env: Lookups)
    requires forall i :: 0 <= i < |steps| ==> ValidatesAsRecordField(steps[i], stepTypes, tableName, revision, env)
    ensures ValidatePrefix(steps, stepTypes, workflowId, revisionId, |steps|).errors == ValidateIntended(steps, stepTypes, workflowId, revisionId)
  {
    forall i | 0 <= i < |steps|
      ensures ThrowsClean(steps[i], stepTypes)
    {
      assert ValidatesAsRecordField(steps[i], stepTypes, tableName, revision, env);
      if steps[i].inputs.Ok? {
        ValidatorThrowsClean(tableName, steps[i].inputs.value, revision, env);
      }
    }
    AsWrittenAgreesWhenThrowsClean(steps, stepTypes, workflowId, revisionId, |steps|);
    assert steps[..|steps|] == steps;
  }
}
