/** The person-table cases of the UpdateInputRecordFieldStep tests, over the model. */
module RecordFieldStepExamples {
  import opened Wrappers
  import opened Strings
  import opened Workflow
  import opened RecordFieldStep
  import opened RecordFieldStepProperties

  /** A name of the person table, qualified or not, is looked up as it is among the API fields. */
  lemma PersonLookup(f: string, revision: ApiRevision, env: Lookups, fields: seq<ApiField>)
    requires '.' !in f
    requires env.apiFields(Some("person"), revision) == Ok(fields)
    ensures GetApiField(Qualified("person", f), Some("person"), revision, env) == Ok(FirstNamed(fields, f))
    ensures GetApiField(f, Some("person"), revision, env) == Ok(FirstNamed(fields, f))
  {
    QualifiedAndPlainAgree("person", f, revision, env);
    assert forall k :: 0 <= k < |f| ==> f[k] != '.';
    assert IndexOf(f, '.').None?;
  }

  lemma FirstNamedOfTwo(a: ApiField, b: ApiField, name: string)
    ensures FirstNamed([a, b], name) == if a.name == name then Some(a) else if b.name == name then Some(b) else None
  {
    assert [a, b][1..] == [b];
    assert [b][1..] == [];
    assert FirstNamed([], name) == None;
    assert FirstNamed([b], name) == if b.name == name then Some(b) else None;
  }

  lemma FirstNamedOfThree(a: ApiField, b: ApiField, c: ApiField, name: string)
    ensures FirstNamed([a, b, c], name) == if a.name == name then Some(a) else FirstNamed([b, c], name)
  {
    assert [a, b, c][1..] == [b, c];
  }

  lemma DifferAt(a: string, b: string, i: nat)
    requires i < |a| && i < |b| && a[i] != b[i]
    ensures a != b
  {
  }

  /** The field names of the tests: none holds a ".", and no two are alike. */
  lemma FieldNames()
    ensures '.' !in "firstName" && '.' !in "shoeCount" && '.' !in "noOfShoes" && '.' !in "salary"
    ensures '.' !in "noSuchField" && '.' !in "debt"
    ensures "firstName" != "shoeCount" && "firstName" != "noOfShoes" && "noOfShoes" != "shoeCount"
    ensures "salary" != "firstName" && "salary" != "shoeCount" && "salary" != "noOfShoes"
    ensures "noSuchField" != "firstName" && "noSuchField" != "shoeCount"
    ensures "debt" != "firstName" && "debt" != "shoeCount"
  {
    DifferAt("firstName", "shoeCount", 0);
    DifferAt("firstName", "noOfShoes", 0);
    DifferAt("noOfShoes", "shoeCount", 0);
    DifferAt("salary", "firstName", 0);
    DifferAt("salary", "shoeCount", 1);
    DifferAt("salary", "noOfShoes", 0);
    DifferAt("noSuchField", "firstName", 0);
    DifferAt("noSuchField", "shoeCount", 0);
    DifferAt("debt", "firstName", 0);
    DifferAt("debt", "shoeCount", 0);
  }

  /** getApiField against API version 1 of a person table, which has firstName and shoeCount. */
  lemma ApiFieldVersionOneFinds(env: Lookups, v1: ApiRevision, firstName: ApiField, shoeCount: ApiField)
    requires firstName.name == "firstName" && shoeCount.name == "shoeCount"
    requires env.apiFields(Some("person"), v1) == Ok([firstName, shoeCount])
    ensures GetApiField(Qualified("person", "firstName"), Some("person"), v1, env) == Ok(Some(firstName))
    ensures GetApiField("firstName", Some("person"), v1, env) == Ok(Some(firstName))
    ensures GetApiField(Qualified("person", "shoeCount"), Some("person"), v1, env) == Ok(Some(shoeCount))
  {
    FieldNames();
    var fields := [firstName, shoeCount];
    FirstNamedOfTwo(firstName, shoeCount, "firstName");
    PersonLookup("firstName", v1, env, fields);
    FirstNamedOfTwo(firstName, shoeCount, "shoeCount");
    PersonLookup("shoeCount", v1, env, fields);
  }

  /** API version 1 has no field of an unknown name, nor debt, which no version exposes. */
  lemma ApiFieldVersionOneLacksUnknown(env: Lookups, v1: ApiRevision, firstName: ApiField, shoeCount: ApiField)
    requires firstName.name == "firstName" && shoeCount.name == "shoeCount"
    requires env.apiFields(Some("person"), v1) == Ok([firstName, shoeCount])
    ensures GetApiField("noSuchField", Some("person"), v1, env) == Ok(None)
    ensures GetApiField(Qualified("person", "noSuchField"), Some("person"), v1, env) == Ok(None)
    ensures GetApiField(Qualified("person", "debt"), Some("person"), v1, env) == Ok(None)
  {
    FieldNames();
    var fields := [firstName, shoeCount];
    FirstNamedOfTwo(firstName, shoeCount, "noSuchField");
    PersonLookup("noSuchField", v1, env, fields);
    FirstNamedOfTwo(firstName, shoeCount, "debt");
    PersonLookup("debt", v1, env, fields);
  }

  /** API version 1 has neither salary, added in version 3, nor noOfShoes, the name version 2 gives shoeCount. */
  lemma ApiFieldVersionOneLacksLater(env: Lookups, v1: ApiRevision, firstName: ApiField, shoeCount: ApiField)
    requires firstName.name == "firstName" && shoeCount.name == "shoeCount"
    requires env.apiFields(Some("person"), v1) == Ok([firstName, shoeCount])
    ensures GetApiField(Qualified("person", "salary"), Some("person"), v1, env) == Ok(None)
    ensures GetApiField(Qualified("person", "noOfShoes"), Some("person"), v1, env) == Ok(None)
  {
    FieldNames();
    var fields := [firstName, shoeCount];
    FirstNamedOfTwo(firstName, shoeCount, "salary");
    PersonLookup("salary", v1, env, fields);
    FirstNamedOfTwo(firstName, shoeCount, "noOfShoes");
    PersonLookup("noOfShoes", v1, env, fields);
  }

  /** Version 2 renames shoeCount to noOfShoes. */
  lemma ApiFieldVersionTwo(env: Lookups, v2: ApiRevision, firstName: ApiField, noOfShoes: ApiField)
    requires firstName.name == "firstName" && noOfShoes.name == "noOfShoes"
    requires env.apiFields(Some("person"), v2) == Ok([firstName, noOfShoes])
    ensures GetApiField(Qualified("person", "shoeCount"), Some("person"), v2, env) == Ok(None)
    ensures GetApiField(Qualified("person", "noOfShoes"), Some("person"), v2, env) == Ok(Some(noOfShoes))
  {
    FieldNames();
    var fields := [firstName, noOfShoes];
    FirstNamedOfTwo(firstName, noOfShoes, "shoeCount");
    PersonLookup("shoeCount", v2, env, fields);
    FirstNamedOfTwo(firstName, noOfShoes, "noOfShoes");
    PersonLookup("noOfShoes", v2, env, fields);
  }

  /** Version 3 adds salary. */
  lemma ApiFieldVersionThree(env: Lookups, v3: ApiRevision, firstName: ApiField, noOfShoes: ApiField, salary: ApiField)
    requires firstName.name == "firstName" && noOfShoes.name == "noOfShoes" && salary.name == "salary"
    requires env.apiFields(Some("person"), v3) == Ok([firstName, noOfShoes, salary])
    ensures GetApiField(Qualified("person", "salary"), Some("person"), v3, env) == Ok(Some(salary))
  {
    FieldNames();
    PersonLookup("salary", v3, env, [firstName, noOfShoes, salary]);
    FirstNamedOfThree(firstName, noOfShoes, salary, "salary");
    FirstNamedOfTwo(noOfShoes, salary, "salary");
  }

  /** The summary of a person field the table finds with a label, when the revision does not go through an API. */
  lemma PersonSummary(f: string, n: string, labelText: string, value: Option<string>, pastTense: bool, env: Lookups)
    requires |f| > 0 && |labelText| > 0 && labelText[0] > ' '
    requires !env.useApi(ApiRevision(None, None))
    requires env.tableField(Some("person"), Qualified("person", f)) == Ok(TableField(n, Some(labelText)))
    ensures InputsSummary(FieldInputs(Qualified("person", f), value), Some("person"), None, pastTense, env)
            == Some(labelText + " " + Verb(pastTense) + " " + Change(Some(n), Some("person"), value, env))
  {
    assert Qualified("person", f)[0] == 'p';
    SummaryThroughTable(Qualified("person", f), "person", n, labelText, value, pastTense, env);
  }

  /** A field name that does not begin with 'p' is passed to the formatter unchanged. */
  lemma PersonShown(n: string, value: string, display: string, env: Lookups)
    requires |n| > 0 && n[0] != 'p'
    requires |value| > 0 && value[0] > ' '
    requires env.displayValue(Some("person"), Some(n), value) == Ok(Some(display))
    ensures Change(Some(n), Some("person"), Some(value), env) == "set to '" + display + "'"
  {
    assert !StartsWith(n, "person" + ".") by {
      if |n| >= 7 {
        assert n[..7][0] == n[0];
      }
    }
    ChangeOfUnprefixed(n, "person", value, display, env);
  }

  lemma FirstNameSetWording()
    ensures "First Name" + " " + Verb(false) + " " + ("set to '" + "John" + "'") == "First Name will be set to 'John'"
    ensures "First Name" + " " + Verb(true) + " " + ("set to '" + "John" + "'") == "First Name was set to 'John'"
  {
  }

  lemma FirstNameClearedWording()
    ensures "First Name" + " " + Verb(false) + " " + "cleared out" == "First Name will be cleared out"
    ensures "First Name" + " " + Verb(true) + " " + "cleared out" == "First Name was cleared out"
  {
  }

  lemma FavoriteShapeWording()
    ensures "Favorite Shape" + " " + Verb(false) + " " + ("set to '" + "Square" + "'") == "Favorite Shape will be set to 'Square'"
    ensures "Favorite Shape" + " " + Verb(true) + " " + ("set to '" + "Square" + "'") == "Favorite Shape was set to 'Square'"
  {
  }

  /**
   * The summaries of a step setting person.firstName, whose label is "First Name", to
   * "John", in both tenses, when the revision does not go through an API.
   */
  lemma FirstNameSetSummaries(env: Lookups)
    requires !env.useApi(ApiRevision(None, None))
    requires env.tableField(Some("person"), Qualified("person", "firstName")) == Ok(TableField("firstName", Some("First Name")))
    requires env.displayValue(Some("person"), Some("firstName"), "John") == Ok(Some("John"))
    ensures InputsSummary(FieldInputs(Qualified("person", "firstName"), Some("John")), Some("person"), None, false, env) == Some("First Name will be set to 'John'")
    ensures InputsSummary(FieldInputs(Qualified("person", "firstName"), Some("John")), Some("person"), None, true, env) == Some("First Name was set to 'John'")
  {
    PersonSummary("firstName", "firstName", "First Name", Some("John"), false, env);
    PersonSummary("firstName", "firstName", "First Name", Some("John"), true, env);
    PersonShown("firstName", "John", "John", env);
    FirstNameSetWording();
  }

  /** With an empty or a missing value, the summary says the field is cleared out. */
  lemma FirstNameClearedSummaries(env: Lookups)
    requires !env.useApi(ApiRevision(None, None))
    requires env.tableField(Some("person"), Qualified("person", "firstName")) == Ok(TableField("firstName", Some("First Name")))
    ensures InputsSummary(FieldInputs(Qualified("person", "firstName"), Some("")), Some("person"), None, false, env) == Some("First Name will be cleared out")
    ensures InputsSummary(FieldInputs(Qualified("person", "firstName"), None), Some("person"), None, true, env) == Some("First Name was cleared out")
  {
    PersonSummary("firstName", "firstName", "First Name", Some(""), false, env);
    PersonSummary("firstName", "firstName", "First Name", None, true, env);
    assert !HasContent(Some(""));
    FirstNameClearedWording();
  }

  /** A possible-value field is shown by the formatter's translation ("1" becomes "Square"). */
  lemma FavoriteShapeSummaries(env: Lookups)
    requires !env.useApi(ApiRevision(None, None))
    requires env.tableField(Some("person"), Qualified("person", "favoriteShapeId")) == Ok(TableField("favoriteShapeId", Some("Favorite Shape")))
    requires env.displayValue(Some("person"), Some("favoriteShapeId"), "1") == Ok(Some("Square"))
    ensures InputsSummary(FieldInputs(Qualified("person", "favoriteShapeId"), Some("1")), Some("person"), None, false, env) == Some("Favorite Shape will be set to 'Square'")
    ensures InputsSummary(FieldInputs(Qualified("person", "favoriteShapeId"), Some("1")), Some("person"), None, true, env) == Some("Favorite Shape was set to 'Square'")
  {
    PersonSummary("favoriteShapeId", "favoriteShapeId", "Favorite Shape", Some("1"), false, env);
    PersonSummary("favoriteShapeId", "favoriteShapeId", "Favorite Shape", Some("1"), true, env);
    PersonShown("favoriteShapeId", "1", "Square", env);
    FavoriteShapeWording();
  }

  /** The field name validate reads from the inputs of a step. */
  lemma FieldNameInput(f: string, value: Option<string>)
    ensures InputString(FieldInputs(f, value), "fieldName") == Some(f)
  {
    assert FieldInputs(f, value)["fieldName"] == Str(f);
  }

  lemma DebtMessage(apiName: string)
    ensures MissingFieldError(Qualified("person", "debt"), Some("person"), ApiRevision(Some(apiName), Some("v1")))
            == "Could not find field '" + "person.debt" + "' in table '" + "person" + "' for API '" + apiName + "' version '" + "v1" + "'"
  {
    assert Qualified("person", "debt") == "person.debt";
  }

  /**
   * validate for person.debt: accepted when the revision does not go through an API, one
   * error naming the field, table, API and version when API version 1 excludes it, and
   * none for person.firstName, which version 1 has.
   */
  lemma DebtValidation(env: Lookups, apiName: string, withoutApi: ApiRevision, firstName: ApiField, shoeCount: ApiField)
    requires !env.useApi(withoutApi)
    requires env.useApi(ApiRevision(Some(apiName), Some("v1")))
    requires firstName.name == "firstName" && shoeCount.name == "shoeCount"
    requires env.apiFields(Some("person"), ApiRevision(Some(apiName), Some("v1"))) == Ok([firstName, shoeCount])
    ensures ValidationErrors(Some("person"), FieldInputs(Qualified("person", "firstName"), None), Some(ApiRevision(Some(apiName), Some("v1"))), env) == Ok([])
    ensures ValidationErrors(Some("person"), FieldInputs(Qualified("person", "debt"), None), Some(withoutApi), env) == Ok([])
    ensures ValidationErrors(Some("person"), FieldInputs(Qualified("person", "debt"), None), Some(ApiRevision(Some(apiName), Some("v1"))), env)
            == Ok(["Could not find field '" + "person.debt" + "' in table '" + "person" + "' for API '" + apiName + "' version '" + "v1" + "'"])
  {
    var v1 := ApiRevision(Some(apiName), Some("v1"));
    ApiFieldVersionOneFinds(env, v1, firstName, shoeCount);
    ApiFieldVersionOneLacksUnknown(env, v1, firstName, shoeCount);
    FieldNameInput(Qualified("person", "debt"), None);
    FieldNameInput(Qualified("person", "firstName"), None);
    DebtMessage(apiName);
  }
}
