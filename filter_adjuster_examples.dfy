/**
 * The filters of the adjuster's unit test, built fresh and rewritten in place: a null
 * filter, a criterion on the number 1, a criterion on "${input.someId}", and the same
 * criterion inside a sub-filter.
 */
module FilterAdjusterExamples {
  import opened Wrappers
  import opened Workflow
  import opened FilterAdjuster
  import opened FilterAdjusterProperties

  /** A filter with one criterion "someId EQUALS <value>" and nothing else. */
  method SingleCriterion(value: Value) returns (f: QueryFilter, values: array<Value>)
    ensures fresh(values) && values[..] == [value]
    ensures f == QueryFilter([FilterCriteria("someId", "EQUALS", values)], [])
    ensures Unshared(f) && Lists(f) == {values}
  {
    values := new Value[1](_ => value);
    f := QueryFilter([FilterCriteria("someId", "EQUALS", values)], []);
    assert f.criteria[0].values == values;
  }

  /** The test's expected value for "${input.someId}", as the rewrite assembles it. */
  function SomeIdWidened(): (r: string)
    ensures r == "${input.someId}??${input.workflow.someId}"
  {
    InputPrefix + "someId" + "}" + WorkflowPrefix + "someId" + "}"
  }

  /** A criterion on a number keeps its value. */
  method NumberKept() returns (r: Value)
    ensures r == Int(1)
  {
    var f, values := SingleCriterion(Int(1));
    AdjustFilterInputs(Some(f));
    assert Contents(f).criteria[0] == values[..];
    r := values[0];
  }

  /** "${input.someId}" becomes "${input.someId}??${input.workflow.someId}". */
  method InputReferenceWidened() returns (r: Value)
    ensures r == Str(SomeIdWidened())
  {
    var f, values := SingleCriterion(Str(InputPrefix + "someId" + "}"));
    AdjustFilterInputs(Some(f));
    assert Contents(f).criteria[0] == values[..];
    InputReferenceRewritten("someId");
    r := values[0];
  }

  /** The same rewrite reaches a criterion inside a sub-filter. */
  method SubFilterWidened() returns (r: Value)
    ensures r == Str(SomeIdWidened())
  {
    var sub, values := SingleCriterion(Str(InputPrefix + "someId" + "}"));
    var f := QueryFilter([], [sub]);
    assert f.subFilters[0] == sub;
    assert Lists(f) == {values};
    AdjustFilterInputs(Some(f));
    assert Contents(f).subFilters[0].criteria[0] == values[..];
    InputReferenceRewritten("someId");
    r := values[0];
  }
}
