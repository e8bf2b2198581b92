/** What UpdateInputRecordFieldStep promises: its lookups, summaries, validation and record update. */
module RecordFieldStepProperties {
  import opened Wrappers
  import opened Strings
  import opened Workflow
  import opened RecordFieldStep

  /** A field name qualified by its table, as the field pickers write it. */
  function Qualified(t: string, f: string): string
  {
    t + "." + f
  }

  /** A field name qualified by a table name without a "." loses exactly the table part. */
  lemma AfterFirstOfQualified(t: string, f: string)
    requires '.' !in t
    ensures AfterFirst(Qualified(t, f), '.') == f
  {
    var s := t + "." + f;
    assert s[|t|] == '.';
    assert forall k :: 0 <= k < |t| ==> s[k] == t[k];
    var i := IndexOf(s, '.');
    assert i.Some? && i.value == |t|;
    assert s[|t| + 1..] == f;
  }

  /** The API field found is the first one named like the field, past its first "."; none means no such field. */
  lemma GetApiFieldFinds(fieldName: string, tableName: Option<string>, revision: ApiRevision, env: Lookups)
    ensures env.apiFields(tableName, revision).Fail? <==> GetApiField(fieldName, tableName, revision, env).Fail?
    ensures var fields := env.apiFields(tableName, revision);
            var found := GetApiField(fieldName, tableName, revision, env);
            fields.Ok? ==>
              && (found.value.None? <==> forall i :: 0 <= i < |fields.value| ==> fields.value[i].name != AfterFirst(fieldName, '.'))
              && (found.value.Some? ==> found.value.value.name == AfterFirst(fieldName, '.') && found.value.value in fields.value)
  {
    if env.apiFields(tableName, revision).Ok? {
      FirstNamedFinds(env.apiFields(tableName, revision).value, AfterFirst(fieldName, '.'));
    }
  }

  /** "person.firstName" and "firstName" name the same API field of table "person". */
  lemma QualifiedAndPlainAgree(t: string, f: string, revision: ApiRevision, env: Lookups)
    requires '.' !in t
    requires '.' !in f
    ensures GetApiField(Qualified(t, f), Some(t), revision, env) == GetApiField(f, Some(t), revision, env)
  {
    AfterFirstOfQualified(t, f);
    assert forall k :: 0 <= k < |f| ==> f[k] != '.';
    assert IndexOf(f, '.').None?;
  }

  /** Without a field name there is no summary. */
  lemma NoFieldNameNoSummary(fieldName: Option<string>, tableName: Option<string>, revision: ApiRevision, value: Option<string>, pastTense: bool, env: Lookups)
    requires !HasContent(fieldName)
    ensures StepSummary(fieldName, tableName, revision, value, pastTense, env) == None
  {
    assert FieldLabel(fieldName, tableName, revision, env).labelText == None;
  }

  /** The lookup that throws, for the way the revision reaches its fields. */
  predicate LookupThrows(fieldName: string, tableName: Option<string>, revision: ApiRevision, env: Lookups)
  {
    if env.useApi(revision) then env.apiFields(tableName, revision).Fail? else env.tableField(tableName, fieldName).Fail?
  }

  /** When the label lookup throws, the summary still names the field, by its own name. */
  lemma LabelFallsBackToFieldName(fieldName: string, tableName: Option<string>, revision: ApiRevision, value: Option<string>, pastTense: bool, env: Lookups)
    requires HasContent(Some(fieldName))
    requires LookupThrows(fieldName, tableName, revision, env)
    ensures var r := StepSummary(Some(fieldName), tableName, revision, value, pastTense, env);
            r.Some? && StartsWith(r.value, fieldName + " " + Verb(pastTense) + " ")
  {
    var r := StepSummary(Some(fieldName), tableName, revision, value, pastTense, env);
    var found := FieldLabel(Some(fieldName), tableName, revision, env);
    assert found.labelText == Some(fieldName);
    var head := fieldName + " " + Verb(pastTense) + " ";
    assert r.value == head + Change(found.name, tableName, value, env);
  }

  /** The past-tense and the future-tense summaries of the same input, label first. */
  ghost predicate Tensed(past: string, future: string, labelText: string, rest: string)
  {
    past == labelText + " was " + rest && future == labelText + " will be " + rest
  }

  /** execute's summary and getDynamicStepSummary's differ only in "was" against "will be". */
  lemma TenseOnlyChangesVerb(fieldName: Option<string>, tableName: Option<string>, revision: ApiRevision, value: Option<string>, env: Lookups)
    ensures var past, future := StepSummary(fieldName, tableName, revision, value, true, env), StepSummary(fieldName, tableName, revision, value, false, env);
            && (past.Some? <==> future.Some?)
            && (past.Some? ==> exists rest :: Tensed(past.value, future.value, FieldLabel(fieldName, tableName, revision, env).labelText.value, rest))
  {
    var found := FieldLabel(fieldName, tableName, revision, env);
    if HasContent(found.labelText) {
      var labelText, rest := found.labelText.value, Change(found.name, tableName, value, env);
      assert labelText + " " + "was" + " " + rest == labelText + " was " + rest;
      assert labelText + " " + "will be" + " " + rest == labelText + " will be " + rest;
      assert Tensed(StepSummary(fieldName, tableName, revision, value, true, env).value,
                    StepSummary(fieldName, tableName, revision, value, false, env).value, labelText, rest);
    }
  }

  predicate EndsWith(s: string, suffix: string)
  {
    |suffix| <= |s| && s[|s| - |suffix|..] == suffix
  }

  /** A summary reports a new value (closing quote) exactly when there is one, and "cleared out" otherwise. */
  lemma SetOrClearedOut(fieldName: Option<string>, tableName: Option<string>, revision: ApiRevision, value: Option<string>, pastTense: bool, env: Lookups)
    ensures var r := StepSummary(fieldName, tableName, revision, value, pastTense, env);
            r.Some? ==>
              && |r.value| > 0
              && (r.value[|r.value| - 1] == '\'' <==> HasContent(value))
              && (!HasContent(value) ==> EndsWith(r.value, " cleared out"))
  {
    var r := StepSummary(fieldName, tableName, revision, value, pastTense, env);
    if r.Some? {
      var found := FieldLabel(fieldName, tableName, revision, env);
      var head, change := found.labelText.value + " " + Verb(pastTense), Change(found.name, tableName, value, env);
      assert r.value == head + " " + change;
      if !HasContent(value) {
        assert r.value == head + " cleared out";
      } else {
        assert change[|change| - 1] == '\'';
      }
    }
  }

  /** No occurrence of t + "." starts anywhere in a name without a ".". */
  lemma NoQualifierInside(t: string, f: string)
    requires '.' !in f
    ensures forall i :: 0 <= i < |f| ==> !StartsWith(f[i..], t + ".")
  {
    forall i | 0 <= i < |f|
      ensures !StartsWith(f[i..], t + ".")
    {
      if |t| + 1 <= |f[i..]| {
        assert f[i..][..|t| + 1][|t|] == f[i + |t|] != '.';
        assert (t + ".")[|t|] == '.';
      }
    }
  }

  /** The formatter is asked about "firstName" when the summary's field is "person.firstName" of table "person". */
  lemma DisplayStripsTablePrefix(t: string, f: string, value: string, env: Lookups)
    requires '.' !in f
    ensures DisplayOf(Some(Qualified(t, f)), Some(t), value, env)
            == match env.displayValue(Some(t), Some(f), value) case Ok(d) => JavaStr(d) case Fail(_) => value
  {
    var prefix := t + ".";
    assert JavaStr(Some(t)) + "." == prefix;
    var s := t + "." + f;
    assert s[..|prefix|] == prefix;
    assert s[|prefix|..] == f;
    NoQualifierInside(t, f);
    ReplaceAllAbsent(f, prefix, "");
    assert prefix + f == s;
    assert ReplaceAll(s, prefix, "") == "" + ReplaceAll(f, prefix, "");
    assert "" + f == f;
  }

  /** When the formatter throws for every field, the value is shown as entered. */
  lemma DisplayFallsBackToRaw(fieldName: Option<string>, tableName: Option<string>, value: string, env: Lookups)
    requires forall field :: env.displayValue(tableName, field, value).Fail?
    ensures DisplayOf(fieldName, tableName, value, env) == value
  {
    var prefix := JavaStr(tableName) + ".";
    var field := if fieldName.Some? && StartsWith(fieldName.value, prefix) then Some(ReplaceAll(fieldName.value, prefix, "")) else fieldName;
    assert env.displayValue(tableName, field, value).Fail?;
  }

  /** The message validate adds for a field the API version lacks. */
  function MissingFieldError(fieldName: string, tableName: Option<string>, revision: ApiRevision): string
  {
    "Could not find field '" + fieldName + "' in table '" + JavaStr(tableName) + "' for API '"
    + JavaStr(revision.apiName) + "' version '" + JavaStr(revision.apiVersion) + "'"
  }

  /**
   * validate adds at most one error: exactly when the revision goes through an API and
   * that API version has no field of the name; it throws when the field name is null
   * or the API field list cannot be read.
   */
  lemma ValidationReportsMissingApiField(tableName: Option<string>, inputs: Values, revision: Option<ApiRevision>, env: Lookups)
    ensures var r := ValidationErrors(tableName, inputs, revision, env);
            var fieldName := InputString(inputs, "fieldName");
            var viaApi := revision.Some? && env.useApi(revision.value);
            && (r.Fail? <==> viaApi && (fieldName.None? || env.apiFields(tableName, revision.value).Fail?))
            && (r.Ok? ==> |r.value| <= 1)
            && (r.Ok? && |r.value| == 1 <==>
                  viaApi && fieldName.Some? && env.apiFields(tableName, revision.value).Ok?
                  && forall i :: 0 <= i < |env.apiFields(tableName, revision.value).value| ==>
                                   env.apiFields(tableName, revision.value).value[i].name != AfterFirst(fieldName.value, '.'))
            && (r.Ok? && |r.value| == 1 ==> r.value[0] == MissingFieldError(fieldName.value, tableName, revision.value))
  {
    var fieldName := InputString(inputs, "fieldName");
    if revision.Some? && env.useApi(revision.value) && fieldName.Some? {
      GetApiFieldFinds(fieldName.value, tableName, revision.value, env);
    }
  }

  /** A revision that does not go through an API accepts any field. */
  lemma ValidationWithoutApiAccepts(tableName: Option<string>, inputs: Values, revision: Option<ApiRevision>, env: Lookups)
    requires revision.None? || !env.useApi(revision.value)
    ensures ValidationErrors(tableName, inputs, revision, env) == Ok([])
  {
  }

  /** The step's validator never adds an error and then throws. */
  lemma ValidatorThrowsClean(tableName: Option<string>, inputs: Values, revision: Option<ApiRevision>, env: Lookups)
    ensures var run := AsValidationRun(tableName, inputs, revision, env);
            run.thrown.Some? ==> run.added == []
  {
  }

  /** Without an API, execute writes under the field name as entered. */
  lemma RecordKeyWithoutApi(fieldName: Option<string>, value: Option<string>, tableName: Option<string>, revision: ApiRevision, env: Lookups)
    requires !env.useApi(revision)
    ensures RecordKey(fieldName, value, tableName, revision, env) == Ok(fieldName)
  {
  }

  /**
   * Through an API, execute hands the unqualified field to the API conversion and writes
   * under the first field of the converted record; a record with no field is an error
   * naming the field and the API version.
   */
  lemma RecordKeyThroughApi(t: string, f: string, value: Option<string>, tableName: Option<string>, revision: ApiRevision, env: Lookups)
    requires '.' !in t
    requires env.useApi(revision)
    ensures var key := RecordKey(Some(Qualified(t, f)), value, tableName, revision, env);
            match env.apiRecordFields(tableName, revision, f, value)
            case Fail(e) => key == Fail(e)
            case Ok(names) =>
              if |names| > 0 then key == Ok(Some(names[0]))
              else key == Fail("Couldn't find field " + f + " in API: " + JavaStr(revision.apiName) + " Version: " + JavaStr(revision.apiVersion))
  {
    AfterFirstOfQualified(t, f);
  }

  /** The input values of a step that sets a field. */
  function FieldInputs(fieldName: string, value: Option<string>): Values
  {
    if value.Some? then map["fieldName" := Str(fieldName), "value" := Str(value.value)] else map["fieldName" := Str(fieldName)]
  }

  /** The summary of a step whose field the table finds with a label, when the revision does not go through an API. */
  lemma SummaryThroughTable(f: string, t: string, n: string, labelText: string, value: Option<string>, pastTense: bool, env: Lookups)
    requires !env.useApi(ApiRevision(None, None))
    requires HasContent(Some(f)) && HasContent(Some(labelText))
    requires env.tableField(Some(t), f) == Ok(TableField(n, Some(labelText)))
    ensures InputsSummary(FieldInputs(f, value), Some(t), None, pastTense, env)
            == Some(labelText + " " + Verb(pastTense) + " " + Change(Some(n), Some(t), value, env))
  {
    assert FieldInputs(f, value)["fieldName"] == Str(f);
    assert value.Some? ==> FieldInputs(f, value)["value"] == Str(value.value);
    assert value.None? ==> "value" !in FieldInputs(f, value);
  }

  /** A field name that does not start with the table's prefix is passed to the formatter as it is. */
  lemma ChangeOfUnprefixed(n: string, t: string, value: string, display: string, env: Lookups)
    requires HasContent(Some(value))
    requires !StartsWith(n, t + ".")
    requires env.displayValue(Some(t), Some(n), value) == Ok(Some(display))
    ensures Change(Some(n), Some(t), Some(value), env) == "set to '" + display + "'"
  {
    assert JavaStr(Some(t)) + "." == t + ".";
  }

}
