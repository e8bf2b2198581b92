/**
 * What the possible-value-source filter rewrite does to the values it meets: an input
 * reference "${input.X}" becomes "${input.X}??${input.workflow.X}", and a filter with no
 * input reference anywhere keeps every value it holds.
 */
module FilterAdjusterProperties {
  import opened Strings
  import opened Workflow
  import opened FilterAdjuster

  /** A plain input field name: no closing brace and no '$' to start another reference. */
  predicate PlainName(x: string)
  {
    forall i :: 0 <= i < |x| ==> x[i] != '}' && x[i] != '$'
  }

  lemma NoInputPrefixInside(s: string)
    requires forall i :: 0 <= i < |s| ==> s[i] != '$'
    ensures forall i :: 0 <= i < |s| ==> !StartsWith(s[i..], InputPrefix)
  {
    forall i | 0 <= i < |s|
      ensures !StartsWith(s[i..], InputPrefix)
    {
      assert s[i..][0] == s[i];
    }
  }

  /** "${input.X}" is widened with the workflow field of the same name. */
  lemma InputReferenceRewritten(x: string)
    requires PlainName(x)
    ensures Rewritten(Str(InputPrefix + x + "}")) == Str(InputPrefix + x + "}" + WorkflowPrefix + x + "}")
  {
    var s := InputPrefix + x + "}";
    assert s[..|InputPrefix|] == InputPrefix;
    assert s[|InputPrefix|..] == x + "}";
    assert ReplaceAll(s, InputPrefix, "") == ReplaceAll(x + "}", InputPrefix, "");
    NoInputPrefixInside(x + "}");
    ReplaceAllAbsent(x + "}", InputPrefix, "");
    forall i | 0 <= i < |x|
      ensures !StartsWith((x + "}")[i..], "}")
    {
      assert (x + "}")[i..][0] == x[i];
    }
    ReplaceAllFreePrefix(x, "}", "}", "");
    assert ReplaceAll("}", "}", "") == "";
  }

  /** No value anywhere in the filter is an input reference. */
  ghost predicate NoInputReferences(v: FilterValues)
    decreases v
  {
    && (forall i, j :: 0 <= i < |v.criteria| && 0 <= j < |v.criteria[i]| ==>
          !(v.criteria[i][j].Str? && StartsWith(v.criteria[i][j].s, InputPrefix)))
    && (forall k :: 0 <= k < |v.subFilters| ==> NoInputReferences(v.subFilters[k]))
  }

  /** A filter that refers to no input is left exactly as it was, at every depth. */
  lemma {:induction false} NoInputReferencesUnchanged(v: FilterValues)
    requires NoInputReferences(v)
    ensures RewrittenFilter(v) == v
    decreases v
  {
    var r := RewrittenFilter(v);
    forall i | 0 <= i < |v.criteria|
      ensures r.criteria[i] == v.criteria[i]
    {
      assert RewrittenAll(v.criteria[i]) == v.criteria[i];
    }
    forall k | 0 <= k < |v.subFilters|
      ensures r.subFilters[k] == v.subFilters[k]
    {
      NoInputReferencesUnchanged(v.subFilters[k]);
    }
    assert r.criteria == v.criteria;
    assert r.subFilters == v.subFilters;
  }
}
