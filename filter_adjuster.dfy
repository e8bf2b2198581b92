/**
 * UpdateInputRecordFieldMetaDataAdjuster: when the 'fieldName' input of an update-field
 * step changes, the form's 'value' field takes on the chosen field's metadata. Two parts
 * of that are modelled here: the possible-value-source filter of the new field gets every
 * "${input.X}" criterion value widened to "${input.X}??${input.workflow.X}", rewriting
 * the value lists in place and descending into sub-filters; and an on-change event asks
 * the form to clear 'value' while an on-load event does not.
 */
module FilterAdjuster {
  import opened Wrappers
  import opened Strings
  import opened Workflow

  const InputPrefix: string := "${input."
  const WorkflowPrefix: string := "??${input.workflow."

  /**
   * A filter criterion: a field, an operator and the list of values it compares with.
   * A criterion without a value list behaves as one with an empty list.
   */
  datatype FilterCriteria = FilterCriteria(fieldName: string, operator: string, values: array<Value>)

  /** A query filter: its criteria and its sub-filters (missing lists behave as empty ones). */
  datatype QueryFilter = QueryFilter(criteria: seq<FilterCriteria>, subFilters: seq<QueryFilter>)

  /** What one criterion value becomes: an input reference also falls back to the workflow's field of that name. */
  function Rewritten(v: Value): (r: Value)
    ensures !(v.Str? && StartsWith(v.s, InputPrefix)) ==> r == v
    ensures v.Str? && StartsWith(v.s, InputPrefix) ==> r.Str? && StartsWith(r.s, v.s + WorkflowPrefix)
  {
    if v.Str? && StartsWith(v.s, InputPrefix) then
      var inputFieldName := ReplaceAll(ReplaceAll(v.s, InputPrefix, ""), "}", "");
      var r := v.s + WorkflowPrefix + inputFieldName + "}";
      assert r[..|v.s + WorkflowPrefix|] == v.s + WorkflowPrefix;
      Str(r)
    else v
  }

  /** A value list after the rewrite: same length, each position rewritten on its own. */
  function RewrittenAll(values: seq<Value>): (r: seq<Value>)
    ensures |r| == |values|
    ensures forall i :: 0 <= i < |values| ==> r[i] == Rewritten(values[i])
  {
    seq(|values|, i requires 0 <= i < |values| => Rewritten(values[i]))
  }

  /** The value lists of a filter's own criteria. */
  ghost function CriteriaLists(f: QueryFilter): set<array<Value>>
  {
    set c | c in f.criteria :: c.values
  }

  /** The value lists of a filter and of all its sub-filters. */
  ghost function Lists(f: QueryFilter): set<array<Value>>
    decreases f
  {
    CriteriaLists(f) + (set k, a | 0 <= k < |f.subFilters| && a in Lists(f.subFilters[k]) :: a)
  }

  lemma {:induction false} ListsAllocated(f: QueryFilter)
    ensures forall a :: a in Lists(f) ==> allocated(a)
    decreases f
  {
    forall k | 0 <= k < |f.subFilters|
      ensures forall a :: a in Lists(f.subFilters[k]) ==> allocated(a)
    {
      ListsAllocated(f.subFilters[k]);
    }
  }

  /** No value list is shared between two criteria anywhere in the filter. */
  ghost predicate Unshared(f: QueryFilter)
    decreases f
  {
    && (forall i, j :: 0 <= i < j < |f.criteria| ==> f.criteria[i].values != f.criteria[j].values)
    && (forall k :: 0 <= k < |f.subFilters| ==> CriteriaLists(f) !! Lists(f.subFilters[k]))
    && (forall k, l :: 0 <= k < l < |f.subFilters| ==> Lists(f.subFilters[k]) !! Lists(f.subFilters[l]))
    && (forall k :: 0 <= k < |f.subFilters| ==> Unshared(f.subFilters[k]))
  }

  /** The values a filter holds: its criteria's value lists and those of its sub-filters. */
  datatype FilterValues = FilterValues(criteria: seq<seq<Value>>, subFilters: seq<FilterValues>)

  ghost function CriteriaValues(f: QueryFilter): (r: seq<seq<Value>>)
    reads CriteriaLists(f)
    ensures |r| == |f.criteria|
    ensures forall i :: 0 <= i < |f.criteria| ==> r[i] == f.criteria[i].values[..]
  {
    seq(|f.criteria|, i requires 0 <= i < |f.criteria| reads CriteriaLists(f) => f.criteria[i].values[..])
  }

  /** The current contents of every value list of the filter, in the filter's shape. */
  ghost function Contents(f: QueryFilter): (r: FilterValues)
    reads Lists(f)
    ensures |r.criteria| == |f.criteria| && |r.subFilters| == |f.subFilters|
    ensures r.criteria == CriteriaValues(f)
    decreases f
  {
    FilterValues(CriteriaValues(f),
      seq(|f.subFilters|, k requires 0 <= k < |f.subFilters| reads Lists(f) => Contents(f.subFilters[k])))
  }

  /** The filter's values after the rewrite: every list rewritten, the shape kept. */
  function RewrittenFilter(v: FilterValues): (r: FilterValues)
    ensures |r.criteria| == |v.criteria| && |r.subFilters| == |v.subFilters|
    ensures forall i :: 0 <= i < |v.criteria| ==> r.criteria[i] == RewrittenAll(v.criteria[i])
    ensures forall k :: 0 <= k < |v.subFilters| ==> r.subFilters[k] == RewrittenFilter(v.subFilters[k])
    decreases v
  {
    FilterValues(
      seq(|v.criteria|, i requires 0 <= i < |v.criteria| => RewrittenAll(v.criteria[i])),
      seq(|v.subFilters|, k requires 0 <= k < |v.subFilters| => RewrittenFilter(v.subFilters[k])))
  }

  /** The ListIterator pass over one criterion's values: each element is replaced by its rewrite, in place. */
  method AdjustValues(values: array<Value>)
    modifies values
    ensures values[..] == RewrittenAll(old(values[..]))
  {
    var i := 0;
    while i < values.Length
      invariant 0 <= i <= values.Length
      invariant values[..i] == RewrittenAll(old(values[..i]))
      invariant values[i..] == old(values[i..])
    {
      values[i] := Rewritten(values[i]);
      i := i + 1;
    }
    assert values[..] == values[..i];
    assert old(values[..]) == old(values[..i]);
  }

  /**
   * adjustPossibleValueSourceFilterCriteriaInputs: every value list of the filter, its
   * criteria's and its sub-filters', is rewritten in place; a null filter is left alone.
   */
  method AdjustFilterInputs(filter: Option<QueryFilter>)
    requires filter.Some? ==> Unshared(filter.value)
    modifies if filter.Some? then Lists(filter.value) else {}
    ensures filter.Some? ==> Contents(filter.value) == RewrittenFilter(old(Contents(filter.value)))
  {
    if filter.None? {
      return;
    }
    AdjustFilter(filter.value);
  }

  method AdjustFilter(f: QueryFilter)
    requires Unshared(f)
    modifies Lists(f)
    ensures Contents(f) == RewrittenFilter(old(Contents(f)))
    decreases f, 1
  {
    ListsAllocated(f);
    label before:
    AdjustCriteria(f);
    forall k | 0 <= k < |f.subFilters|
      ensures Contents(f.subFilters[k]) == old@before(Contents(f.subFilters[k]))
    {
      assert CriteriaLists(f) !! Lists(f.subFilters[k]);
    }
    label between:
    AdjustSubFilters(f);
    assert CriteriaValues(f) == old@between(CriteriaValues(f));
    assert Contents(f).criteria == RewrittenFilter(old(Contents(f))).criteria;
    assert Contents(f).subFilters == RewrittenFilter(old(Contents(f))).subFilters;
  }

  /** The first loop: each criterion's value list in turn. */
  method AdjustCriteria(f: QueryFilter)
    requires Unshared(f)
    modifies CriteriaLists(f)
    ensures forall i :: 0 <= i < |f.criteria| ==> f.criteria[i].values[..] == RewrittenAll(old(f.criteria[i].values[..]))
  {
    var i := 0;
    while i < |f.criteria|
      invariant 0 <= i <= |f.criteria|
      invariant forall j :: 0 <= j < i ==> f.criteria[j].values[..] == RewrittenAll(old(f.criteria[j].values[..]))
      invariant forall j :: i <= j < |f.criteria| ==> f.criteria[j].values[..] == old(f.criteria[j].values[..])
    {
      AdjustValues(f.criteria[i].values);
      i := i + 1;
    }
  }

  /** The second loop: each sub-filter, by the same procedure. */
  method AdjustSubFilters(f: QueryFilter)
    requires Unshared(f)
    modifies Lists(f) - CriteriaLists(f)
    ensures forall k :: 0 <= k < |f.subFilters| ==> Contents(f.subFilters[k]) == RewrittenFilter(old(Contents(f.subFilters[k])))
    decreases f, 0
  {
    var k := 0;
    while k < |f.subFilters|
      invariant 0 <= k <= |f.subFilters|
      invariant forall l :: 0 <= l < k ==> Contents(f.subFilters[l]) == RewrittenFilter(old(Contents(f.subFilters[l])))
      invariant forall l :: k <= l < |f.subFilters| ==> Contents(f.subFilters[l]) == old(Contents(f.subFilters[l]))
    {
      ListsAllocated(f);
      label before:
      AdjustFilter(f.subFilters[k]);
      forall l | 0 <= l < |f.subFilters| && l != k
        ensures Contents(f.subFilters[l]) == old@before(Contents(f.subFilters[l]))
      {
        assert Lists(f.subFilters[k]) !! Lists(f.subFilters[l]);
      }
      k := k + 1;
    }
  }

  /** The form events the adjuster tells apart. */
  datatype FormEvent = OnChange | OnLoad | OtherEvent(name: string)

  /** The fields the adjuster asks the form to clear: 'value' on a change, nothing otherwise. */
  function FieldsToClear(event: FormEvent): (r: set<string>)
    ensures "value" in r <==> event == OnChange
    ensures r <= {"value"}
  {
    if event == OnChange then {"value"} else {}
  }
}
