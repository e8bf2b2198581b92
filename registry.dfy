/**
 * WorkflowsRegistry: the insertion-ordered tables of workflow types and workflow step
 * types by name, and the help-content rule that edits a registered step type's
 * description, label and input-field help.
 */
module Registry {
  import opened Wrappers
  import opened Workflow

  /**
   * A LinkedHashMap from names: the entries, and the names in the order they were first
   * put, each once.
   */
  datatype Table<V> = Table(names: seq<string>, entries: map<string, V>)

  predicate ValidTable<V>(t: Table<V>)
  {
    && (forall i, j :: 0 <= i < j < |t.names| ==> t.names[i] != t.names[j])
    && t.entries.Keys == set n | n in t.names
  }

  /** put: replace the entry under the name, or append the name when it is new. */
  function Put<V>(t: Table<V>, name: string, v: V): (r: Table<V>)
    requires ValidTable(t)
    ensures ValidTable(r)
  {
    Table(if name in t.entries then t.names else t.names + [name], t.entries[name := v])
  }

  /** get: the entry under the name, or null. */
  function Get<V>(t: Table<V>, name: string): (r: Option<V>)
    ensures r.None? <==> name !in t.entries
    ensures r.Some? ==> r.value == t.entries[name]
  {
    if name in t.entries then Some(t.entries[name]) else None
  }

  /** new ArrayList(values()): the entries in the order of their names. */
  function InOrder<V>(t: Table<V>): (r: seq<V>)
    requires ValidTable(t)
    ensures |r| == |t.names|
    ensures forall i :: 0 <= i < |t.names| ==> r[i] == t.entries[t.names[i]]
  {
    seq(|t.names|, i requires 0 <= i < |t.names| => t.entries[t.names[i]])
  }

  /** Putting a name makes get return the new entry there and leaves every other name alone. */
  lemma PutThenGet<V>(t: Table<V>, name: string, v: V, other: string)
    requires ValidTable(t)
    ensures Get(Put(t, name, v), name) == Some(v)
    ensures other != name ==> Get(Put(t, name, v), other) == Get(t, other)
  {
  }

  /**
   * Putting a registered name again keeps its place in the listing and replaces only
   * its entry; a new name goes to the end.
   */
  lemma PutKeepsOrder<V>(t: Table<V>, name: string, v: V)
    requires ValidTable(t)
    ensures name in t.entries ==>
              |InOrder(Put(t, name, v))| == |InOrder(t)|
              && forall i :: 0 <= i < |t.names| ==> InOrder(Put(t, name, v))[i] == if t.names[i] == name then v else InOrder(t)[i]
    ensures name !in t.entries ==> InOrder(Put(t, name, v)) == InOrder(t) + [v]
  {
    if name !in t.entries {
      var r := Put(t, name, v);
      assert forall i :: 0 <= i < |t.names| ==> t.names[i] != name;
      assert forall i :: 0 <= i < |t.names| ==> InOrder(r)[i] == InOrder(t)[i];
    }
  }

  /** The help content a field or slot gets: null, or a one-element list. */
  function HelpList(help: Option<HelpContent>): Option<seq<HelpContent>>
  {
    if help.None? then None else Some([help.value])
  }

  /** The input field the "qswdDescription" help content adds to a step type. */
  function DescriptionField(help: Option<HelpContent>): FieldMetaData
  {
    FieldMetaData("qswdDescription", Some("Step Description"), StringType, Some(12), HelpList(help))
  }

  /** A field's help after help content for the named field arrives. */
  function WithFieldHelp(f: FieldMetaData, fieldName: string, help: Option<HelpContent>): FieldMetaData
  {
    if f.name == fieldName then f.(helpContents := HelpList(help)) else f
  }

  /** Every input field, with help set on those of the given name. */
  function FieldsWithHelp(fields: seq<FieldMetaData>, fieldName: string, help: Option<HelpContent>): (r: seq<FieldMetaData>)
    ensures |r| == |fields|
    ensures forall i :: 0 <= i < |fields| ==> r[i] == WithFieldHelp(fields[i], fieldName, help)
  {
    seq(|fields|, i requires 0 <= i < |fields| => WithFieldHelp(fields[i], fieldName, help))
  }

  /** The slot named by the "slot" pair, if any. */
  function Slot(pairs: map<string, string>): Option<string>
  {
    if "slot" in pairs then Some(pairs["slot"]) else None
  }

  /** A registered step type after help content for it arrives. */
  function StepTypeWithHelp(st: StepType, help: Option<HelpContent>, pairs: map<string, string>): StepType
  {
    if Slot(pairs) == Some("description") then
      st.(description := if help.None? then None else Some(help.value.contentAsHtml))
    else if Slot(pairs) == Some("label") then
      if help.Some? then st.(labelText := Some(help.value.content)) else st
    else if "field" in pairs then
      if pairs["field"] == "qswdDescription" then st.(inputFields := st.inputFields + [DescriptionField(help)])
      else st.(inputFields := FieldsWithHelp(st.inputFields, pairs["field"], help))
    else st
  }

  /** The step-type table after acceptHelpContent. */
  function AcceptHelp(t: Table<StepType>, help: Option<HelpContent>, pairs: map<string, string>): Table<StepType>
  {
    if "workflowStepType" in pairs && pairs["workflowStepType"] in t.entries then
      var name := pairs["workflowStepType"];
      Table(t.names, t.entries[name := StepTypeWithHelp(t.entries[name], help, pairs)])
    else t
  }

  /**
   * Help content edits at most the step type it names: the listing order and every other
   * step type stay as they were, and without a known step type nothing changes.
   */
  lemma HelpTouchesOnlyNamedStepType(t: Table<StepType>, help: Option<HelpContent>, pairs: map<string, string>)
    requires ValidTable(t)
    ensures var r := AcceptHelp(t, help, pairs);
            && ValidTable(r)
            && r.names == t.names
            && r.entries.Keys == t.entries.Keys
            && (forall n :: n in t.entries && ("workflowStepType" !in pairs || n != pairs["workflowStepType"]) ==> r.entries[n] == t.entries[n])
            && ("workflowStepType" !in pairs || pairs["workflowStepType"] !in t.entries ==> r == t)
  {
  }

  /** The "description" slot sets the description to the help's HTML, or clears it for null help; nothing else changes. */
  lemma DescriptionSlot(st: StepType, help: Option<HelpContent>, pairs: map<string, string>)
    requires Slot(pairs) == Some("description")
    ensures var r := StepTypeWithHelp(st, help, pairs);
            && (help.Some? ==> r.description == Some(help.value.contentAsHtml))
            && (help.None? ==> r.description.None?)
            && r.(description := st.description) == st
  {
  }

  /** The "label" slot sets the label to the help's content; null help leaves the step type as it was. */
  lemma LabelSlot(st: StepType, help: Option<HelpContent>, pairs: map<string, string>)
    requires Slot(pairs) == Some("label")
    ensures var r := StepTypeWithHelp(st, help, pairs);
            && (help.Some? ==> r == st.(labelText := Some(help.value.content)))
            && (help.None? ==> r == st)
  {
  }

  /**
   * Help for the "qswdDescription" field appends exactly one input field, the step
   * description field, after the existing ones.
   */
  lemma DescriptionFieldAppended(st: StepType, help: Option<HelpContent>, pairs: map<string, string>)
    requires Slot(pairs) != Some("description") && Slot(pairs) != Some("label")
    requires "field" in pairs && pairs["field"] == "qswdDescription"
    ensures var r := StepTypeWithHelp(st, help, pairs);
            && |r.inputFields| == |st.inputFields| + 1
            && r.inputFields[..|st.inputFields|] == st.inputFields
            && r.inputFields[|st.inputFields|].name == "qswdDescription"
            && r.inputFields[|st.inputFields|].helpContents == HelpList(help)
            && r.(inputFields := st.inputFields) == st
  {
    var r := StepTypeWithHelp(st, help, pairs);
    assert r.inputFields == st.inputFields + [DescriptionField(help)];
  }

  /**
   * Help for any other field name sets (or, for null help, clears) the help of the input
   * fields of that name only, keeping their number and order.
   */
  lemma FieldHelpOnMatchingFields(st: StepType, help: Option<HelpContent>, pairs: map<string, string>)
    requires Slot(pairs) != Some("description") && Slot(pairs) != Some("label")
    requires "field" in pairs && pairs["field"] != "qswdDescription"
    ensures var r := StepTypeWithHelp(st, help, pairs);
            && |r.inputFields| == |st.inputFields|
            && (forall i :: 0 <= i < |st.inputFields| && st.inputFields[i].name == pairs["field"] ==>
                  r.inputFields[i] == st.inputFields[i].(helpContents := HelpList(help)))
            && (forall i :: 0 <= i < |st.inputFields| && st.inputFields[i].name != pairs["field"] ==>
                  r.inputFields[i] == st.inputFields[i])
            && r.(inputFields := st.inputFields) == st
  {
  }

  /** The help-content sequence of the registry test, over one registered step type with one field. */
  lemma HelpContentScenario(st: StepType, name: string)
    requires st.name == name && |st.inputFields| == 1 && st.inputFields[0].name == "myField"
    ensures var t0 := Put(Table([], map[]), name, st);
            var desc := HelpContent("newDescription", "newDescription");
            var t1 := AcceptHelp(t0, Some(desc), map["workflowStepType" := name, "slot" := "description"]);
            var t2 := AcceptHelp(t1, None, map["workflowStepType" := name, "slot" := "description"]);
            var t3 := AcceptHelp(t2, Some(HelpContent("newLabel", "newLabel")), map["workflowStepType" := name, "slot" := "label"]);
            var t4 := AcceptHelp(t3, None, map["workflowStepType" := name, "slot" := "label"]);
            var fieldHelp := HelpContent("fieldHelp", "fieldHelp");
            var t5 := AcceptHelp(t4, Some(fieldHelp), map["workflowStepType" := name, "field" := "myField"]);
            var t6 := AcceptHelp(t5, None, map["workflowStepType" := name, "field" := "myField"]);
            && Get(t1, name).value.description == Some("newDescription")
            && Get(t2, name).value.description == None
            && Get(t3, name).value.labelText == Some("newLabel")
            && Get(t4, name).value.labelText == Some("newLabel")
            && Get(t5, name).value.inputFields[0].helpContents == Some([fieldHelp])
            && Get(t6, name).value.inputFields[0].helpContents == None
  {
    assert Slot(map["workflowStepType" := name, "field" := "myField"]) == None;
  }

  /** WorkflowsRegistry: the two tables, kept in registration order. */
  class WorkflowsRegistry {
    var workflowTypes: Table<WorkflowType>
    var workflowStepTypes: Table<StepType>

    predicate Valid()
      reads this
    {
      ValidTable(workflowTypes) && ValidTable(workflowStepTypes)
    }

    /** A registry with no workflow types and no step types. */
    constructor ()
      ensures Valid()
      ensures workflowTypes == Table([], map[]) && workflowStepTypes == Table([], map[])
    {
      workflowTypes := Table([], map[]);
      workflowStepTypes := Table([], map[]);
    }

    function GetWorkflowType(name: string): (r: Option<WorkflowType>)
      reads this
      ensures r.None? <==> name !in workflowTypes.entries
    {
      Get(workflowTypes, name)
    }

    function GetAllWorkflowTypes(): (r: seq<WorkflowType>)
      requires Valid()
      reads this
      ensures |r| == |workflowTypes.names|
    {
      InOrder(workflowTypes)
    }

    function GetWorkflowStepType(name: string): (r: Option<StepType>)
      reads this
      ensures r.None? <==> name !in workflowStepTypes.entries
    {
      Get(workflowStepTypes, name)
    }

    function GetAllWorkflowStepTypes(): (r: seq<StepType>)
      requires Valid()
      reads this
      ensures |r| == |workflowStepTypes.names|
    {
      InOrder(workflowStepTypes)
    }

    /** registerWorkflowType: put under the type's name, replacing any type registered there. */
    method RegisterWorkflowType(workflowType: WorkflowType)
      requires Valid()
      modifies this
      ensures Valid()
      ensures workflowTypes == Put(old(workflowTypes), workflowType.name, workflowType)
      ensures workflowStepTypes == old(workflowStepTypes)
    {
      workflowTypes := Put(workflowTypes, workflowType.name, workflowType);
    }

    /** registerWorkflowStepType: put under the step type's name, replacing any step type registered there. */
    method RegisterWorkflowStepType(stepType: StepType)
      requires Valid()
      modifies this
      ensures Valid()
      ensures workflowStepTypes == Put(old(workflowStepTypes), stepType.name, stepType)
      ensures workflowTypes == old(workflowTypes)
    {
      workflowStepTypes := Put(workflowStepTypes, stepType.name, stepType);
    }

    /** acceptHelpContent: edits the named step type's description, label or input fields. */
    method AcceptHelpContent(help: Option<HelpContent>, pairs: map<string, string>)
      requires Valid()
      modifies this
      ensures Valid()
      ensures workflowStepTypes == AcceptHelp(old(workflowStepTypes), help, pairs)
      ensures workflowTypes == old(workflowTypes)
    {
      if "workflowStepType" !in pairs {
        return;
      }
      var name := pairs["workflowStepType"];
      if name !in workflowStepTypes.entries {
        return;
      }
      var st := workflowStepTypes.entries[name];
      if "slot" in pairs && pairs["slot"] == "description" {
        st := st.(description := if help.None? then None else Some(help.value.contentAsHtml));
      } else if "slot" in pairs && pairs["slot"] == "label" {
        if help.Some? {
          st := st.(labelText := Some(help.value.content));
        }
      } else if "field" in pairs {
        if pairs["field"] == "qswdDescription" {
          st := st.(inputFields := st.inputFields + [DescriptionField(help)]);
        } else {
          var fields := SetFieldHelp(st.inputFields, pairs["field"], help);
          st := st.(inputFields := fields);
        }
      }
      workflowStepTypes := Table(workflowStepTypes.names, workflowStepTypes.entries[name := st]);
    }

    /** The loop over a step type's input fields that sets the help of those with the given name. */
    static method SetFieldHelp(fields: seq<FieldMetaData>, fieldName: string, help: Option<HelpContent>)
      returns (r: seq<FieldMetaData>)
      ensures r == FieldsWithHelp(fields, fieldName, help)
    {
      r := fields;
      for i := 0 to |fields|
        invariant |r| == |fields|
        invariant forall k :: 0 <= k < i ==> r[k] == WithFieldHelp(fields[k], fieldName, help)
        invariant forall k :: i <= k < |fields| ==> r[k] == fields[k]
      {
        if r[i].name == fieldName {
          r := r[i := r[i].(helpContents := HelpList(help))];
        }
      }
    }
  }
}
