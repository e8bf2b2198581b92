/**
 * UpdateInputRecordFieldStep: the record-workflow step that sets one field of the record
 * being processed. It describes itself with a summary sentence ("<label> will be set
 * to '<value>'"), checks that the field exists in the revision's API version, and, when
 * run, writes the value into the record and marks the record as needing an update.
 *
 * The table metadata, API field lists, value formatting and API record conversion are
 * the Lookups' functions; WorkflowStepUtils.useApi is the Lookups' useApi.
 */
module RecordFieldStep {
  import opened Wrappers
  import opened Strings
  import opened Workflow

  /** A field of a table as an API version exposes it. */
  datatype ApiField = ApiField(name: string, labelText: Option<string>)

  /** A workflow revision's API name and version. */
  datatype ApiRevision = ApiRevision(apiName: Option<string>, apiVersion: Option<string>)

  /** The field a FieldAndJoinTable lookup finds: its name and label. */
  datatype TableField = TableField(name: string, labelText: Option<string>)

  /**
   * The outside lookups the step relies on; a Fail is the exception the lookup throws:
   * - useApi: whether a revision with this API name and version goes through the API;
   * - apiFields: GetTableApiFieldsAction for a table, API name and version;
   * - tableField: FieldAndJoinTable.get for a table and field name;
   * - displayValue: the display value QValueFormatter sets for a table, field and value;
   * - apiRecordFields: the field names of the record QRecordApiAdapter makes from the
   *   API object {field: value}, for a table, API name and version.
   */
  datatype Lookups = Lookups(
    useApi: ApiRevision -> bool,
    apiFields: (Option<string>, ApiRevision) -> Outcome<seq<ApiField>>,
    tableField: (Option<string>, string) -> Outcome<TableField>,
    displayValue: (Option<string>, Option<string>, string) -> Outcome<Option<string>>,
    apiRecordFields: (Option<string>, ApiRevision, string, Option<string>) -> Outcome<seq<string>>)

  /** ValueUtils.getValueAsString: null stays null, anything else becomes its text. */
  function AsString(v: Value): (r: Option<string>)
    ensures r.None? <==> v == Null
  {
    match v
    case Null => None
    case Bool(b) => Some(if b then "true" else "false")
    case Int(i) => Some(IntToString(i))
    case Str(s) => Some(s)
    case Other(_, text) => Some(text)
  }

  /** getValueAsString(inputValues.get(key)). */
  function InputString(inputs: Values, key: string): Option<string>
  {
    if key in inputs then AsString(inputs[key]) else None
  }

  /** The first field with the given name, if any. */
  function FirstNamed(fields: seq<ApiField>, name: string): (r: Option<ApiField>)
  {
    if |fields| == 0 then None
    else if fields[0].name == name then Some(fields[0])
    else FirstNamed(fields[1..], name)
  }

  lemma {:induction false} FirstNamedFinds(fields: seq<ApiField>, name: string)
    ensures FirstNamed(fields, name).None? <==> forall i :: 0 <= i < |fields| ==> fields[i].name != name
    ensures FirstNamed(fields, name).Some? ==>
              exists i :: 0 <= i < |fields| && fields[i] == FirstNamed(fields, name).value
                          && fields[i].name == name && forall j :: 0 <= j < i ==> fields[j].name != name
  {
    if |fields| > 0 && fields[0].name != name {
      FirstNamedFinds(fields[1..], name);
      if FirstNamed(fields, name).Some? {
        var i :| 0 <= i < |fields[1..]| && fields[1..][i] == FirstNamed(fields, name).value
                 && fields[1..][i].name == name && forall j :: 0 <= j < i ==> fields[1..][j].name != name;
        assert fields[i + 1] == fields[1..][i];
        assert forall j :: 1 <= j < i + 1 ==> fields[j] == fields[1..][j - 1];
      } else {
        assert forall i :: 1 <= i < |fields| ==> fields[i] == fields[1..][i - 1];
      }
    } else if |fields| > 0 {
      assert fields[0] == FirstNamed(fields, name).value;
    }
  }

  /**
   * getApiField: the API's field named by what follows the first "." of the given name
   * (the whole name when it has none).
   */
  function GetApiField(fieldName: string, tableName: Option<string>, revision: ApiRevision, env: Lookups): Outcome<Option<ApiField>>
  {
    match env.apiFields(tableName, revision)
    case Fail(e) => Fail(e)
    case Ok(fields) => Ok(FirstNamed(fields, AfterFirst(fieldName, '.')))
  }

  /** The field name and label the summary uses once the lookups have run. */
  datatype Labelled = Labelled(name: Option<string>, labelText: Option<string>)

  /**
   * The label lookup of getStepSummary: through the API when the revision uses one,
   * otherwise through the table; when the lookup throws, the label is the field name.
   */
  function FieldLabel(fieldName: Option<string>, tableName: Option<string>, revision: ApiRevision, env: Lookups): Labelled
  {
    if !HasContent(fieldName) then Labelled(fieldName, None)
    else if env.useApi(revision) then
      match GetApiField(fieldName.value, tableName, revision, env)
      case Fail(_) => Labelled(fieldName, fieldName)
      case Ok(None) => Labelled(fieldName, None)
      case Ok(Some(f)) => Labelled(fieldName, f.labelText)
    else
      match env.tableField(tableName, fieldName.value)
      case Fail(_) => Labelled(fieldName, fieldName)
      case Ok(f) => Labelled(Some(f.name), f.labelText)
  }

  /**
   * The value as the summary shows it: formatted for the field (its "<table>." prefix
   * removed), or the raw value when formatting throws.
   */
  function DisplayOf(fieldName: Option<string>, tableName: Option<string>, value: string, env: Lookups): string
  {
    var prefix := JavaStr(tableName) + ".";
    var field := if fieldName.Some? && StartsWith(fieldName.value, prefix) then Some(ReplaceAll(fieldName.value, prefix, "")) else fieldName;
    match env.displayValue(tableName, field, value)
    case Ok(display) => JavaStr(display)
    case Fail(_) => value
  }

  function Verb(pastTense: bool): string
  {
    if pastTense then "was" else "will be"
  }

  /** What the summary says happens to the field: "set to '<value>'" or "cleared out". */
  function Change(fieldName: Option<string>, tableName: Option<string>, value: Option<string>, env: Lookups): string
  {
    if HasContent(value) then "set to '" + DisplayOf(fieldName, tableName, value.value, env) + "'" else "cleared out"
  }

  /** getStepSummary: a sentence about the field's label and new value, or null when there is no label. */
  function StepSummary(fieldName: Option<string>, tableName: Option<string>, revision: ApiRevision, value: Option<string>, pastTense: bool, env: Lookups): (r: Option<string>)
    ensures r.Some? <==> HasContent(FieldLabel(fieldName, tableName, revision, env).labelText)
  {
    var found := FieldLabel(fieldName, tableName, revision, env);
    if !HasContent(found.labelText) then None
    else Some(found.labelText.value + " " + Verb(pastTense) + " " + Change(found.name, tableName, value, env))
  }

  /**
   * getStepSummary over a step's input values; the API name and version are those of
   * the "workflowRevision" entry, when the inputs have one.
   */
  function InputsSummary(inputs: Values, tableName: Option<string>, revision: Option<ApiRevision>, pastTense: bool, env: Lookups): Option<string>
  {
    var apiRevision := if revision.Some? then revision.value else ApiRevision(None, None);
    StepSummary(InputString(inputs, "fieldName"), tableName, apiRevision, InputString(inputs, "value"), pastTense, env)
  }

  /**
   * The static validate: when the revision goes through an API, the one error naming
   * the field, table, API and version if that API version lacks the field.
   */
  function ValidationErrors(tableName: Option<string>, inputs: Values, revision: Option<ApiRevision>, env: Lookups): Outcome<seq<string>>
  {
    if revision.None? || !env.useApi(revision.value) then Ok([])
    else
      var fieldName := InputString(inputs, "fieldName");
      if fieldName.None? then Fail(NullDereference)
      else match GetApiField(fieldName.value, tableName, revision.value, env)
        case Fail(e) => Fail(e)
        case Ok(Some(_)) => Ok([])
        case Ok(None) =>
          Ok(["Could not find field '" + fieldName.value + "' in table '" + JavaStr(tableName) + "' for API '"
              + JavaStr(revision.value.apiName) + "' version '" + JavaStr(revision.value.apiVersion) + "'"])
  }

  /** The step's validator as the revision store runs it: what it adds to the error list, or what it throws. */
  function AsValidationRun(tableName: Option<string>, inputs: Values, revision: Option<ApiRevision>, env: Lookups): ValidationRun
  {
    match ValidationErrors(tableName, inputs, revision, env)
    case Ok(added) => ValidationRun(added, None)
    case Fail(e) => ValidationRun([], Some(e))
  }

  /**
   * getActualFieldNameThroughApi: the first field name of the record the API object
   * {field: value} converts to, the field being what follows the first "."; none is an
   * error naming the field, API and version.
   */
  function ActualFieldName(fieldName: Option<string>, value: Option<string>, tableName: Option<string>, revision: ApiRevision, env: Lookups): Outcome<string>
  {
    if fieldName.None? then Fail(NullDereference)
    else
      var field := AfterFirst(fieldName.value, '.');
      match env.apiRecordFields(tableName, revision, field, value)
      case Fail(e) => Fail(e)
      case Ok(names) =>
        if |names| > 0 then Ok(names[0])
        else Fail("Couldn't find field " + field + " in API: " + JavaStr(revision.apiName) + " Version: " + JavaStr(revision.apiVersion))
  }

  /** The record key execute writes: the API's field name when the revision uses the API, otherwise the input field name. */
  function RecordKey(fieldName: Option<string>, value: Option<string>, tableName: Option<string>, revision: ApiRevision, env: Lookups): Outcome<Option<string>>
  {
    if env.useApi(revision) then
      match ActualFieldName(fieldName, value, tableName, revision, env)
      case Fail(e) => Fail(e)
      case Ok(name) => Ok(Some(name))
    else Ok(fieldName)
  }

  function ValueOf(s: Option<string>): Value
  {
    if s.Some? then Str(s.value) else Null
  }

  /** The RecordWorkflowContext parts execute uses: the record being processed and its needs-update flag. */
  class RecordWorkflowContext {
    var record: map<Option<string>, Option<string>>
    var doesRecordNeedUpdated: bool
    const tableName: Option<string>
    const revision: ApiRevision

    constructor (record: map<Option<string>, Option<string>>, tableName: Option<string>, revision: ApiRevision)
      ensures this.record == record && !doesRecordNeedUpdated
      ensures this.tableName == tableName && this.revision == revision
    {
      this.record := record;
      this.doesRecordNeedUpdated := false;
      this.tableName := tableName;
      this.revision := revision;
    }

    /**
     * execute: writes the input value under the field (through the API when the revision
     * uses one), sets the needs-update flag, and outputs the value with the past-tense
     * summary; when the API field cannot be resolved it throws and changes nothing.
     */
    method Execute(inputs: Values, env: Lookups) returns (r: Outcome<StepOutput>)
      modifies this
      ensures var fieldName, value := InputString(inputs, "fieldName"), InputString(inputs, "value");
              var key := RecordKey(fieldName, value, tableName, revision, env);
              && (r.Ok? <==> key.Ok?)
              && (key.Ok? ==>
                    && record == old(record)[key.value := value]
                    && doesRecordNeedUpdated
                    && r.value == StepOutput(ValueOf(value), StepSummary(fieldName, tableName, revision, value, true, env), false))
              && (key.Fail? ==>
                    && record == old(record)
                    && doesRecordNeedUpdated == old(doesRecordNeedUpdated)
                    && r.error == key.error)
    {
      var fieldName := InputString(inputs, "fieldName");
      var value := InputString(inputs, "value");
      var key: Option<string>;
      if env.useApi(revision) {
        var actual := ActualFieldName(fieldName, value, tableName, revision, env);
        if actual.Fail? {
          return Fail(actual.error);
        }
        key := Some(actual.value);
      } else {
        key := fieldName;
      }
      record := record[key := value];
      doesRecordNeedUpdated := true;
      var summary := StepSummary(fieldName, tableName, revision, value, true, env);
      r := Ok(StepOutput(ValueOf(value), summary, false));
    }
  }
}
