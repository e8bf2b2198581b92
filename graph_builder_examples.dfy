/** The flat and single-sided branch graphs of the graph builder's tests, built over the model. */
module GraphBuilderExamples {
  import opened Wrappers
  import opened Strings
  import opened Workflow
  import opened JoinPoint
  import opened JoinPointProperties
  import opened GraphBuilder
  import opened GraphBuilderProperties

  const AddType: string := "addXToSumAction"
  const BranchType: string := "booleanConditional"

  /** A test step: numbered by its position in the list, no inputs. */
  function TestStep(stepNo: int, typeName: string): Step
  {
    Step(0, stepNo, typeName, map[])
  }

  function Leaf(s: Step): StepNode
  {
    StepNode(s, map[])
  }

  /** The step map of three steps numbered 1, 2, 3. */
  lemma StepsOfThree(s1: Step, s2: Step, s3: Step)
    requires s1.stepNo == 1 && s2.stepNo == 2 && s3.stepNo == 3
    ensures StepMapOf([s1, s2, s3]) == map[1 := s1, 2 := s2, 3 := s3]
  {
    assert [s1, s2, s3][..2] == [s1, s2] && [s1, s2][..1] == [s1] && [s1][..0] == [];
    assert StepMapOf([s1]) == map[1 := s1];
    assert StepMapOf([s1, s2]) == map[1 := s1, 2 := s2];
  }

  /** The link map of a link from step 1 and a link from step 2. */
  lemma LinksOfTwo(l1: Link, l2: Link)
    requires l1.fromStepNo == 1 && l2.fromStepNo == 2
    ensures LinkMapOf([l1, l2]) == map[1 := [l1], 2 := [l2]]
  {
    assert [l1, l2][..1] == [l1] && [l1][..0] == [];
    assert LinksOf(map[], 1) + [l1] == [l1];
    assert LinkMapOf([l1]) == map[1 := [l1]];
    assert LinksOf(map[1 := [l1]], 2) + [l2] == [l2];
  }

  /** Three action steps linked 1 -> 2 -> 3 build the flat sequence 1, 2, 3. */
  lemma SimpleFlat(stepTypes: map<string, StepType>)
    requires AddType in stepTypes
    ensures var s1, s2, s3 := TestStep(1, AddType), TestStep(2, AddType), TestStep(3, AddType);
            BuildGraph(Some(1), [s1, s2, s3], [Link(1, Some(2), None), Link(2, Some(3), None)], stepTypes, 4)
            == Done([Leaf(s1), Leaf(s2), Leaf(s3)])
  {
    var s1, s2, s3 := TestStep(1, AddType), TestStep(2, AddType), TestStep(3, AddType);
    var l1, l2 := Link(1, Some(2), None), Link(2, Some(3), None);
    var g := GraphOf([s1, s2, s3], [l1, l2], stepTypes);
    StepsOfThree(s1, s2, s3);
    LinksOfTwo(l1, l2);
    assert LinksOn(g, [s1, s2, s3], 0) && LinksOn(g, [s1, s2, s3], 1);
    ChainBuildsFlat(g, [s1, s2, s3], None, 4);
    assert Plain([s1, s2, s3]) == [Leaf(s1), Leaf(s2), Leaf(s3)];
  }

  /** The one-sided branch step on its own: its node holds "true" = [3], and the sequence ends there. */
  lemma OneSidedBranchStep(g: Graph, branch: Step, add2: Step, l2: Link)
    requires branch.typeName in g.stepTypes && g.stepTypes[branch.typeName].mode == TWO
    requires add2.typeName in g.stepTypes
    requires LinksOf(g.links, branch.stepNo) == [l2] && HasContent(l2.conditionValue)
    requires l2.toStepNo == Some(add2.stepNo) && Lookup(g.steps, l2.toStepNo) == Some(add2)
    requires LinksOf(g.links, add2.stepNo) == []
    ensures Sequence(g, 3, Some(branch), None) == Done([StepNode(branch, map[l2.conditionValue := [Leaf(add2)]])])
  {
    SequenceAtLast(g, 2, add2, None);
    SingleStartNoJoin(Destinations([l2]), g.steps, g.links);
    assert Branches(g, 2, [l2], 1, None, None, map[l2.conditionValue := [Leaf(add2)]]) == Done(map[l2.conditionValue := [Leaf(add2)]]);
    assert Branches(g, 2, [l2], 0, None, None, map[]) == Done(map[l2.conditionValue := [Leaf(add2)]]);
    SequenceAtBranch(g, 3, branch, None);
    assert JoinForLinks([l2], g.steps, g.links) == NoJoin;
    assert Sequence(g, 2, Lookup(g.steps, None), None) == Done([]);
    var node := StepNode(branch, map[l2.conditionValue := [Leaf(add2)]]);
    assert [node] + [] == [node];
    assert BranchTurn(g, 3, branch, [l2], None) == Done([StepNode(branch, map[l2.conditionValue := [Leaf(add2)]])]);
  }

  /** The whole one-sided graph from its first step, over any maps with its steps and links. */
  lemma OneSidedGraph(g: Graph, add1: Step, branch: Step, add2: Step, l1: Link, l2: Link)
    requires add1.typeName in g.stepTypes && Some(add1.stepNo) != None
    requires branch.typeName in g.stepTypes && g.stepTypes[branch.typeName].mode == TWO
    requires add2.typeName in g.stepTypes
    requires LinksOf(g.links, add1.stepNo) == [l1] && !HasContent(l1.conditionValue) && Lookup(g.steps, l1.toStepNo) == Some(branch)
    requires LinksOf(g.links, branch.stepNo) == [l2] && HasContent(l2.conditionValue)
    requires l2.toStepNo == Some(add2.stepNo) && Lookup(g.steps, l2.toStepNo) == Some(add2)
    requires LinksOf(g.links, add2.stepNo) == []
    ensures Sequence(g, 4, Some(add1), None) == Done([Leaf(add1), StepNode(branch, map[l2.conditionValue := [Leaf(add2)]])])
  {
    OneSidedBranchStep(g, branch, add2, l2);
    SequenceAtPlain(g, 4, add1, None);
    assert Sequence(g, 4, Some(add1), None) == Prepend(Leaf(add1), Sequence(g, 3, Some(branch), None));
    var node := StepNode(branch, map[l2.conditionValue := [Leaf(add2)]]);
    assert [Leaf(add1)] + [node] == [Leaf(add1), node];
  }

  /**
   * Action 1 -> branch 2, whose only link is "true" -> action 3: the top sequence is
   * [1, 2] and the branch node holds the single sub-sequence "true" = [3].
   */
  lemma OneSidedBranch(stepTypes: map<string, StepType>)
    requires AddType in stepTypes && BranchType in stepTypes && stepTypes[BranchType].mode == TWO
    ensures var add1, branch, add2 := TestStep(1, AddType), TestStep(2, BranchType), TestStep(3, AddType);
            BuildGraph(Some(1), [add1, branch, add2], [Link(1, Some(2), None), Link(2, Some(3), Some("true"))], stepTypes, 4)
            == Done([Leaf(add1), StepNode(branch, map[Some("true") := [Leaf(add2)]])])
  {
    var add1, branch, add2 := TestStep(1, AddType), TestStep(2, BranchType), TestStep(3, AddType);
    var l1, l2 := Link(1, Some(2), None), Link(2, Some(3), Some("true"));
    var g := GraphOf([add1, branch, add2], [l1, l2], stepTypes);
    StepsOfThree(add1, branch, add2);
    LinksOfTwo(l1, l2);
    assert "true"[0] == 't';
    OneSidedGraph(g, add1, branch, add2, l1, l2);
  }
}
