/**
 * The workflow data model shared by the executor, the graph builder, the registry and
 * the revision store: values, steps, links, step types and the two maps the executor
 * and the graph builder build from a stored revision.
 */
module Workflow {
  import opened Wrappers

  /** A Serializable value held in a context, a step output or a filter criterion. */
  datatype Value = Null | Bool(b: bool) | Int(i: int) | Str(s: string) | Other(className: string, text: string)

  /** The runtime class of a non-null value. */
  datatype ValueClass = BooleanClass | IntegerClass | StringClass | OtherClass(name: string)

  function ClassOf(v: Value): ValueClass
    requires v != Null
  {
    match v
    case Bool(_) => BooleanClass
    case Int(_) => IntegerClass
    case Str(_) => StringClass
    case Other(c, _) => OtherClass(c)
  }

  /**
   * ValueUtils.getValueAsType for the classes other than String: the converted value,
   * or None when the conversion throws.
   */
  type Coercion = (ValueClass, string) -> Option<Value>

  /** ValueUtils.getValueAsType(class, text); a String converts to itself. */
  function AsType(coerce: Coercion, c: ValueClass, text: string): Option<Value>
  {
    if c == StringClass then Some(Str(text)) else coerce(c, text)
  }

  /** The context values map (WorkflowExecutionContext.values). */
  type Values = map<string, Value>

  datatype OutboundLinkMode = ZERO | ONE | TWO | VARIABLE | CONTAINER

  /** A stored workflow step; inputs are its parsed inputValuesJson. */
  datatype Step = Step(id: int, stepNo: int, typeName: string, inputs: Values)

  /** A stored workflow link; the destination and the condition may be null. */
  datatype Link = Link(fromStepNo: int, toStepNo: Option<int>, conditionValue: Option<string>)

  /** WorkflowStepOutput: output data, message and the immediate-stop flag. */
  datatype StepOutput = StepOutput(data: Value, message: Option<string>, halt: bool)

  /** The output of `new WorkflowStepOutput()`. */
  const EmptyOutput := StepOutput(Null, None, false)

  /** What a validator appends to the error list it is given, and the exception it throws, if any. */
  datatype ValidationRun = ValidationRun(added: seq<string>, thrown: Option<string>)

  /**
   * What a workflow type's validator appends to the error list it is given, and the
   * exception it throws, if any: a QUserFacingException reaches the user with its own
   * message, any other exception does not.
   */
  datatype TypeValidationRun = TypeValidationRun(added: seq<string>, thrown: Option<Thrown>)

  datatype Thrown = UserFacing(message: string) | Internal(message: string)

  /** QHelpContent: its raw content and its HTML rendering. */
  datatype HelpContent = HelpContent(content: string, contentAsHtml: string)

  datatype FieldType = StringType | OtherType(name: string)

  /** QFieldMetaData, as far as step-type input fields use it. */
  datatype FieldMetaData = FieldMetaData(
    name: string,
    labelText: Option<string>,
    fieldType: FieldType,
    gridColumns: Option<int>,
    helpContents: Option<seq<HelpContent>>)

  /**
   * The hooks of a WorkflowMultiForkingStepExecutorInterface: each receives the step
   * (with its input values) and the context values, and may change the latter.
   */
  datatype ForkHooks = ForkHooks(
    preRun: (Step, Values) -> Outcome<Values>,
    sortForks: (seq<Link>, Step, Values) -> seq<Link>,
    conditionallyExecuteFork: (Step, Link, Values) -> Outcome<(StepOutput, Values)>,
    makeWorkflowStepOutput: (Step, Values) -> Outcome<(StepOutput, Values)>,
    postRun: (Step, Values) -> Outcome<Values>)

  /** The executor code a step type names. */
  datatype StepExecutor =
    | Simple(execute: (Step, Values) -> Outcome<(StepOutput, Values)>)
    | MultiForking(hooks: ForkHooks)

  /** WorkflowStepType. */
  datatype StepType = StepType(
    name: string,
    labelText: Option<string>,
    description: Option<string>,
    mode: OutboundLinkMode,
    executor: Option<StepExecutor>,
    validator: Option<Values -> ValidationRun>,
    dynamicSummary: (int, Values) -> Outcome<Option<string>>,
    inputFields: seq<FieldMetaData>)

  /** WorkflowTypeExecutorInterface: the hooks a workflow type runs around its steps. */
  datatype TypeExecutor = TypeExecutor(
    preRun: Values -> Outcome<Values>,
    openTransaction: Outcome<bool>,
    preStep: (Step, Values) -> Outcome<Values>,
    postStep: (Step, Values, StepOutput) -> Outcome<StepOutput>,
    postRun: Values -> Outcome<Values>,
    handleException: (string, Values) -> Values)

  /** WorkflowType. */
  datatype WorkflowType = WorkflowType(
    name: string,
    labelText: Option<string>,
    description: Option<string>,
    executor: Option<TypeExecutor>,
    validator: Option<TypeValidationRun>)

  type StepMap = map<int, Step>
  type LinkMap = map<int, seq<Link>>

  function Lookup(steps: StepMap, stepNo: Option<int>): (r: Option<Step>)
    ensures r.Some? <==> stepNo.Some? && stepNo.value in steps
    ensures r.Some? ==> r.value == steps[stepNo.value]
  {
    if stepNo.Some? && stepNo.value in steps then Some(steps[stepNo.value]) else None
  }

  /** ListingHash.get with a null-safe empty default (CollectionUtils.nonNullList). */
  function LinksOf(links: LinkMap, stepNo: int): seq<Link>
  {
    if stepNo in links then links[stepNo] else []
  }

  /** The destinations of a list of links, in order (links.stream().map(getToStepNo)). */
  function Destinations(links: seq<Link>): (r: seq<Option<int>>)
    ensures |r| == |links|
    ensures forall i :: 0 <= i < |links| ==> r[i] == links[i].toStepNo
  {
    if |links| == 0 then [] else [links[0].toStepNo] + Destinations(links[1..])
  }

  /** The step map: each step under its step number, a later step replacing an earlier one. */
  function StepMapOf(steps: seq<Step>): StepMap
  {
    if |steps| == 0 then map[]
    else StepMapOf(steps[..|steps| - 1])[steps[|steps| - 1].stepNo := steps[|steps| - 1]]
  }

  /** The links leaving stepNo, in list order (the reference definition of a ListingHash entry). */
  function LinksFrom(links: seq<Link>, stepNo: int): seq<Link>
  {
    if |links| == 0 then []
    else LinksFrom(links[..|links| - 1], stepNo)
         + (if links[|links| - 1].fromStepNo == stepNo then [links[|links| - 1]] else [])
  }

  /** The link map: ListingHash.add of every link under its from-step number. */
  function LinkMapOf(links: seq<Link>): LinkMap
  {
    if |links| == 0 then map[]
    else
      var m := LinkMapOf(links[..|links| - 1]);
      var l := links[|links| - 1];
      m[l.fromStepNo := LinksOf(m, l.fromStepNo) + [l]]
  }

  /** loadSteps: a HashMap put of every step under its step number. */
  method LoadSteps(steps: seq<Step>) returns (m: StepMap)
    ensures m == StepMapOf(steps)
  {
    m := map[];
    for i := 0 to |steps|
      invariant m == StepMapOf(steps[..i])
    {
      assert steps[..i + 1][..i] == steps[..i];
      m := m[steps[i].stepNo := steps[i]];
    }
    assert steps[..|steps|] == steps;
  }

  /** loadLinks: a ListingHash add of every link under its from-step number. */
  method LoadLinks(links: seq<Link>) returns (m: LinkMap)
    ensures m == LinkMapOf(links)
  {
    m := map[];
    for i := 0 to |links|
      invariant m == LinkMapOf(links[..i])
    {
      assert links[..i + 1][..i] == links[..i];
      assert links[..i + 1][i] == links[i];
      var l := links[i];
      assert LinkMapOf(links[..i + 1]) == m[l.fromStepNo := LinksOf(m, l.fromStepNo) + [l]];
      if l.fromStepNo in m {
        m := m[l.fromStepNo := m[l.fromStepNo] + [l]];
      } else {
        assert LinksOf(m, l.fromStepNo) + [l] == [l];
        m := m[l.fromStepNo := [l]];
      }
    }
    assert links[..|links|] == links;
  }

  /** The step map holds exactly the step numbers that occur in the list. */
  lemma {:induction false} StepMapOfKeys(steps: seq<Step>, k: int)
    ensures k in StepMapOf(steps) <==> exists i :: 0 <= i < |steps| && steps[i].stepNo == k
  {
    if |steps| > 0 {
      var init := steps[..|steps| - 1];
      StepMapOfKeys(init, k);
      if k in StepMapOf(steps) && k != steps[|steps| - 1].stepNo {
        var i :| 0 <= i < |init| && init[i].stepNo == k;
        assert steps[i] == init[i];
      }
      if exists i :: 0 <= i < |steps| && steps[i].stepNo == k {
        var i :| 0 <= i < |steps| && steps[i].stepNo == k;
        if i < |steps| - 1 {
          assert init[i] == steps[i];
        }
      }
    }
  }

  /** A step is the one stored under its number unless a later step has the same number. */
  lemma {:induction false} StepMapOfLastWins(steps: seq<Step>, i: int)
    requires 0 <= i < |steps|
    requires forall j :: i < j < |steps| ==> steps[j].stepNo != steps[i].stepNo
    ensures steps[i].stepNo in StepMapOf(steps) && StepMapOf(steps)[steps[i].stepNo] == steps[i]
  {
    if i < |steps| - 1 {
      var init := steps[..|steps| - 1];
      assert steps[i] == init[i];
      forall j | i < j < |init| ensures init[j].stepNo != init[i].stepNo {
        assert init[j] == steps[j];
      }
      StepMapOfLastWins(init, i);
    }
  }

  /** Each link-map entry is exactly the links leaving that step, in list order; no entry is empty. */
  lemma {:induction false} LinkMapOfGroupsInOrder(links: seq<Link>)
    ensures forall k :: k in LinkMapOf(links) <==> |LinksFrom(links, k)| > 0
    ensures forall k :: LinksOf(LinkMapOf(links), k) == LinksFrom(links, k)
  {
    if |links| > 0 {
      LinkMapOfGroupsInOrder(links[..|links| - 1]);
    }
  }

  /** LinksFrom keeps exactly the links of the list that leave the step. */
  lemma {:induction false} LinksFromMembers(links: seq<Link>, stepNo: int)
    ensures forall l :: l in LinksFrom(links, stepNo) <==> l in links && l.fromStepNo == stepNo
  {
    if |links| > 0 {
      LinksFromMembers(links[..|links| - 1], stepNo);
      assert links == links[..|links| - 1] + [links[|links| - 1]];
    }
  }
}
