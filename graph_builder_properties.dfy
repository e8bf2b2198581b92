/**
 * What the graph builder promises: plain chains come out flat, sequences end before
 * their join, branching steps get one sub-sequence per condition and continue at the
 * join, containers hold their contents under "push" and continue at "pop", and the
 * two shapes the loop makes no progress on never complete.
 */
module GraphBuilderProperties {
  import opened Wrappers
  import opened Strings
  import opened Workflow
  import opened JoinPoint
  import opened JoinPointProperties
  import opened GraphBuilder

  /** The nodes of a list of steps, each with no sub-sequences. */
  function Plain(chain: seq<Step>): (r: seq<StepNode>)
    ensures |r| == |chain|
    ensures forall i :: 0 <= i < |chain| ==> r[i] == StepNode(chain[i], map[])
  {
    if |chain| == 0 then [] else [StepNode(chain[0], map[])] + Plain(chain[1..])
  }

  /** Step s has exactly one outbound link and that link carries no condition. */
  predicate PlainLink(g: Graph, s: Step)
  {
    var out := LinksOf(g.links, s.stepNo);
    |out| == 1 && !HasContent(out[0].conditionValue)
  }

  /**
   * A sequence ends after step s: s has no outbound link, or its one unconditioned link
   * leads nowhere, to a step not in the map, to the join, or to a step of unknown type.
   */
  predicate EndsAfter(g: Graph, s: Step, join: Option<int>)
  {
    var out := LinksOf(g.links, s.stepNo);
    || |out| == 0
    || (PlainLink(g, s) &&
        var next := Lookup(g.steps, out[0].toStepNo);
        next.None? || Some(next.value.stepNo) == join || next.value.typeName !in g.stepTypes)
  }

  /** The mode of a registered step type. */
  function ModeOf(g: Graph, s: Step): OutboundLinkMode
    requires s.typeName in g.stepTypes
  {
    g.stepTypes[s.typeName].mode
  }

  /** The turn at s is decided by its mode: it has outbound links and they are not one plain link. */
  predicate ModeDecides(g: Graph, s: Step, join: Option<int>)
  {
    && s.typeName in g.stepTypes
    && Some(s.stepNo) != join
    && |LinksOf(g.links, s.stepNo)| > 0
    && !PlainLink(g, s)
  }

  /** The turn at a step with one plain link: add it, then follow the link unless it ends the sequence. */
  lemma SequenceAtPlain(g: Graph, fuel: nat, step: Step, join: Option<int>)
    requires fuel > 0 && step.typeName in g.stepTypes && Some(step.stepNo) != join && PlainLink(g, step)
    ensures var next := Lookup(g.steps, LinksOf(g.links, step.stepNo)[0].toStepNo);
            Sequence(g, fuel, Some(step), join)
            == if next.None? || Some(next.value.stepNo) == join then Done([StepNode(step, map[])])
               else Prepend(StepNode(step, map[]), Sequence(g, fuel - 1, next, join))
  {
  }

  /** The turn at a registered step with no outbound links adds it and ends the sequence. */
  lemma SequenceAtLast(g: Graph, fuel: nat, step: Step, join: Option<int>)
    requires fuel > 0 && step.typeName in g.stepTypes && Some(step.stepNo) != join && |LinksOf(g.links, step.stepNo)| == 0
    ensures Sequence(g, fuel, Some(step), join) == Done([StepNode(step, map[])])
  {
  }

  /** The turn at a TWO or VARIABLE step its mode decides. */
  lemma SequenceAtBranch(g: Graph, fuel: nat, step: Step, join: Option<int>)
    requires fuel > 0 && ModeDecides(g, step, join) && (ModeOf(g, step) == TWO || ModeOf(g, step) == VARIABLE)
    ensures Sequence(g, fuel, Some(step), join) == BranchTurn(g, fuel, step, LinksOf(g.links, step.stepNo), join)
  {
  }

  /** The turn at a CONTAINER step its mode decides. */
  lemma SequenceAtContainer(g: Graph, fuel: nat, step: Step, join: Option<int>)
    requires fuel > 0 && ModeDecides(g, step, join) && ModeOf(g, step) == CONTAINER
    ensures Sequence(g, fuel, Some(step), join) == ContainerTurn(g, fuel, step, LinksOf(g.links, step.stepNo), join)
  {
  }

  /** The turn at a ZERO or ONE step its mode decides: the warning, and the same step again. */
  lemma SequenceAtWarning(g: Graph, fuel: nat, step: Step, join: Option<int>)
    requires fuel > 0 && ModeDecides(g, step, join) && (ModeOf(g, step) == ZERO || ModeOf(g, step) == ONE)
    ensures Sequence(g, fuel, Some(step), join) == Prepend(StepNode(step, map[]), Sequence(g, fuel - 1, Some(step), join))
  {
  }

  /** A branch turn that completes is the step's node, then the sequence from the join step. */
  lemma BranchTurnParts(g: Graph, fuel: nat, step: Step, out: seq<Link>, join: Option<int>)
    requires fuel > 0
    ensures var r := BranchTurn(g, fuel, step, out, join);
            var j := JoinForLinks(out, g.steps, g.links);
            var rest := Sequence(g, fuel - 1, Lookup(g.steps, JoinStepNo(j)), join);
            && (j.JoinStepMissing? ==> r == Threw(NullDereference))
            && (r.Done? ==>
                  var subs := Branches(g, fuel - 1, out, 0, JoinStepNo(j), join, map[]);
                  && !j.JoinStepMissing? && subs.Done? && rest.Done?
                  && r.value == [StepNode(step, subs.value)] + rest.value)
  {
  }

  /**
   * A chain of registered steps joined by single unconditioned links builds one flat
   * sequence in chain order, ending where the last step's links end it.
   */
  lemma {:induction false} ChainBuildsFlat(g: Graph, chain: seq<Step>, join: Option<int>, fuel: nat)
    requires 0 < |chain| < fuel
    requires forall i :: 0 <= i < |chain| ==> chain[i].typeName in g.stepTypes && Some(chain[i].stepNo) != join
    requires forall i :: 0 <= i < |chain| - 1 ==> LinksOn(g, chain, i)
    requires EndsAfter(g, chain[|chain| - 1], join)
    ensures Sequence(g, fuel, Some(chain[0]), join) == Done(Plain(chain))
  {
    var s := chain[0];
    if |chain| == 1 {
      assert Plain(chain) == [StepNode(s, map[])];
      ChainEnd(g, s, join, fuel);
    } else {
      ChainTailLinked(g, chain);
      ChainBuildsFlat(g, chain[1..], join, fuel - 1);
      assert LinksOn(g, chain, 0);
      ChainLinkStep(g, s, chain[1..], join, fuel);
      assert [s] + chain[1..] == chain;
    }
  }

  /** A step with a plain link to the head of a chain that builds flat heads that flat sequence. */
  lemma ChainLinkStep(g: Graph, s: Step, rest: seq<Step>, join: Option<int>, fuel: nat)
    requires 1 < fuel && 0 < |rest| && s.typeName in g.stepTypes && Some(s.stepNo) != join && Some(rest[0].stepNo) != join
    requires PlainLink(g, s) && Lookup(g.steps, LinksOf(g.links, s.stepNo)[0].toStepNo) == Some(rest[0])
    requires Sequence(g, fuel - 1, Some(rest[0]), join) == Done(Plain(rest))
    ensures Sequence(g, fuel, Some(s), join) == Done(Plain([s] + rest))
  {
    SequenceAtPlain(g, fuel, s, join);
    assert ([s] + rest)[1..] == rest;
  }

  /** The i-th step of a chain has one plain link, and it leads to the next step. */
  predicate LinksOn(g: Graph, chain: seq<Step>, i: int)
    requires 0 <= i < |chain| - 1
  {
    PlainLink(g, chain[i]) && Lookup(g.steps, LinksOf(g.links, chain[i].stepNo)[0].toStepNo) == Some(chain[i + 1])
  }

  /** The links that join a chain's steps still join them once its first step is dropped. */
  lemma ChainTailLinked(g: Graph, chain: seq<Step>)
    requires 1 < |chain|
    requires forall i :: 0 <= i < |chain| - 1 ==> LinksOn(g, chain, i)
    ensures forall i :: 0 <= i < |chain| - 2 ==> LinksOn(g, chain[1..], i)
  {
    forall i | 0 <= i < |chain| - 2
      ensures LinksOn(g, chain[1..], i)
    {
      assert LinksOn(g, chain, i + 1);
      assert chain[1..][i] == chain[i + 1] && chain[1..][i + 1] == chain[i + 2];
    }
  }

  /** The last step of such a chain adds its node and ends the sequence. */
  lemma ChainEnd(g: Graph, s: Step, join: Option<int>, fuel: nat)
    requires 1 < fuel && s.typeName in g.stepTypes && Some(s.stepNo) != join && EndsAfter(g, s, join)
    ensures Sequence(g, fuel, Some(s), join) == Done([StepNode(s, map[])])
  {
    var out := LinksOf(g.links, s.stepNo);
    if |out| == 0 {
      SequenceAtLast(g, fuel, s, join);
    } else {
      SequenceAtPlain(g, fuel, s, join);
      var next := Lookup(g.steps, out[0].toStepNo);
      if next.Some? && Some(next.value.stepNo) != join {
        assert Sequence(g, fuel - 1, next, join) == Done([]);
        assert [StepNode(s, map[])] + [] == [StepNode(s, map[])];
      }
    }
  }

  /** Every node of a completed sequence is a step of a registered type other than the join. */
  predicate StopsBeforeJoin(g: Graph, r: Exec<seq<StepNode>>, join: Option<int>)
  {
    r.Done? ==> forall n :: n in r.value ==> Some(n.step.stepNo) != join && n.step.typeName in g.stepTypes
  }

  /**
   * No node the loop adds is the join step it was bounded by, and every node it adds
   * has a registered step type.
   */
  lemma {:induction false} JoinNeverAdded(g: Graph, fuel: nat, current: Option<Step>, join: Option<int>)
    ensures StopsBeforeJoin(g, Sequence(g, fuel, current, join), join)
    decreases fuel
  {
    if current.Some? && fuel > 0 {
      var rest: nat := fuel - 1;
      forall next: Option<Step> ensures StopsBeforeJoin(g, Sequence(g, rest, next, join), join) {
        JoinNeverAdded(g, rest, next, join);
      }
      JoinNeverAddedAt(g, rest, current.value, join);
    }
  }

  /** One turn at any step keeps the join out, given that the turns after it do. */
  lemma JoinNeverAddedAt(g: Graph, rest: nat, step: Step, join: Option<int>)
    requires forall next: Option<Step> :: StopsBeforeJoin(g, Sequence(g, rest, next, join), join)
    ensures StopsBeforeJoin(g, Sequence(g, rest + 1, Some(step), join), join)
  {
    if ModeDecides(g, step, join) {
      JoinNeverAddedByMode(g, rest, step, join);
    } else {
      JoinNeverAddedUndecided(g, rest, step, join);
    }
  }

  /** A turn at a step its mode does not decide keeps the join out, given that the turns after it do. */
  lemma JoinNeverAddedUndecided(g: Graph, rest: nat, step: Step, join: Option<int>)
    requires !ModeDecides(g, step, join)
    requires forall next: Option<Step> :: StopsBeforeJoin(g, Sequence(g, rest, next, join), join)
    ensures StopsBeforeJoin(g, Sequence(g, rest + 1, Some(step), join), join)
  {
    if step.typeName in g.stepTypes && Some(step.stepNo) != join {
      if |LinksOf(g.links, step.stepNo)| == 0 {
        SequenceAtLast(g, rest + 1, step, join);
      } else {
        JoinNeverAddedPlain(g, rest, step, join);
      }
    }
  }

  /** A turn at a step with one plain link keeps the join out, given that the turns after it do. */
  lemma JoinNeverAddedPlain(g: Graph, rest: nat, step: Step, join: Option<int>)
    requires step.typeName in g.stepTypes && Some(step.stepNo) != join && PlainLink(g, step)
    requires forall next: Option<Step> :: StopsBeforeJoin(g, Sequence(g, rest, next, join), join)
    ensures StopsBeforeJoin(g, Sequence(g, rest + 1, Some(step), join), join)
  {
    SequenceAtPlain(g, rest + 1, step, join);
    var next := Lookup(g.steps, LinksOf(g.links, step.stepNo)[0].toStepNo);
    assert StopsBeforeJoin(g, Sequence(g, rest, next, join), join);
  }

  /** One turn at a step its mode decides keeps the join out, given that the turns after it do. */
  lemma JoinNeverAddedByMode(g: Graph, rest: nat, step: Step, join: Option<int>)
    requires ModeDecides(g, step, join)
    requires forall next: Option<Step> :: StopsBeforeJoin(g, Sequence(g, rest, next, join), join)
    ensures StopsBeforeJoin(g, Sequence(g, rest + 1, Some(step), join), join)
  {
    var fuel := rest + 1;
    var out := LinksOf(g.links, step.stepNo);
    var mode := ModeOf(g, step);
    if mode == TWO || mode == VARIABLE {
      SequenceAtBranch(g, fuel, step, join);
      BranchTurnParts(g, fuel, step, out, join);
      var rest := Sequence(g, fuel - 1, Lookup(g.steps, JoinStepNo(JoinForLinks(out, g.steps, g.links))), join);
      assert StopsBeforeJoin(g, rest, join);
    } else if mode == CONTAINER {
      SequenceAtContainer(g, fuel, step, join);
      var pop := FirstWithCondition(out, "pop");
      if pop.Some? {
        var rest := Sequence(g, fuel - 1, if pop.value.toStepNo.None? then Some(step) else Lookup(g.steps, pop.value.toStepNo), join);
        assert StopsBeforeJoin(g, rest, join);
      }
    } else {
      SequenceAtWarning(g, fuel, step, join);
      assert StopsBeforeJoin(g, Sequence(g, fuel - 1, Some(step), join), join);
    }
  }

  /** The condition values of a list of links, from the i-th on. */
  function ConditionsFrom(out: seq<Link>, i: nat): set<Option<string>>
    requires i <= |out|
  {
    set j | i <= j < |out| :: out[j].conditionValue
  }

  /** No link after the j-th has the j-th link's condition value (so its entry is the one kept). */
  predicate LastWithCondition(out: seq<Link>, j: int)
    requires 0 <= j < |out|
  {
    forall k :: j < k < |out| ==> out[k].conditionValue != out[j].conditionValue
  }

  /** The sub-sequence map of a branching step has one key per condition value of its links. */
  lemma {:induction false} BranchesKeys(g: Graph, fuel: nat, out: seq<Link>, i: nat, branchJoin: Option<int>, join: Option<int>,
                                        subs: SubSequences)
    requires i <= |out|
    ensures var r := Branches(g, fuel, out, i, branchJoin, join, subs);
            r.Done? ==> r.value.Keys == subs.Keys + ConditionsFrom(out, i)
    decreases |out| - i
  {
    var r := Branches(g, fuel, out, i, branchJoin, join, subs);
    if i < |out| && r.Done? {
      var link := out[i];
      var b := Sequence(g, fuel, Lookup(g.steps, link.toStepNo), branchJoin);
      var subs1 := if EmptyBranch(link, branchJoin, join) then subs[link.conditionValue := []] else subs[link.conditionValue := b.value];
      assert r == Branches(g, fuel, out, i + 1, branchJoin, join, subs1);
      BranchesKeys(g, fuel, out, i + 1, branchJoin, join, subs1);
      assert ConditionsFrom(out, i) == {link.conditionValue} + ConditionsFrom(out, i + 1);
    }
  }

  /** The branch loop leaves alone every entry no later link puts a condition value in. */
  lemma {:induction false} BranchesKeepOthers(g: Graph, fuel: nat, out: seq<Link>, i: nat, branchJoin: Option<int>, join: Option<int>,
                                              subs: SubSequences, c: Option<string>)
    requires i <= |out|
    requires c in subs && forall j :: i <= j < |out| ==> out[j].conditionValue != c
    ensures var r := Branches(g, fuel, out, i, branchJoin, join, subs);
            r.Done? ==> c in r.value && r.value[c] == subs[c]
    decreases |out| - i
  {
    var r := Branches(g, fuel, out, i, branchJoin, join, subs);
    if i < |out| && r.Done? {
      var link := out[i];
      var b := Sequence(g, fuel, Lookup(g.steps, link.toStepNo), branchJoin);
      var subs1 := if EmptyBranch(link, branchJoin, join) then subs[link.conditionValue := []] else subs[link.conditionValue := b.value];
      assert r == Branches(g, fuel, out, i + 1, branchJoin, join, subs1);
      BranchesKeepOthers(g, fuel, out, i + 1, branchJoin, join, subs1, c);
    }
  }

  /**
   * Under the condition value of the last link that carries it, the branch of that link:
   * empty when it goes to the join, to the enclosing join or nowhere, and otherwise the
   * sequence built from its destination up to the join.
   */
  lemma {:induction false} BranchesEntry(g: Graph, fuel: nat, out: seq<Link>, i: nat, branchJoin: Option<int>, join: Option<int>,
                                         subs: SubSequences, j: nat)
    requires i <= j < |out| && LastWithCondition(out, j)
    ensures var r := Branches(g, fuel, out, i, branchJoin, join, subs);
            r.Done? ==>
              out[j].conditionValue in r.value &&
              if EmptyBranch(out[j], branchJoin, join) then r.value[out[j].conditionValue] == []
              else
                var b := Sequence(g, fuel, Lookup(g.steps, out[j].toStepNo), branchJoin);
                b.Done? && r.value[out[j].conditionValue] == b.value
    decreases |out| - i
  {
    var r := Branches(g, fuel, out, i, branchJoin, join, subs);
    if r.Done? {
      var link := out[i];
      var b := Sequence(g, fuel, Lookup(g.steps, link.toStepNo), branchJoin);
      var subs1 := if EmptyBranch(link, branchJoin, join) then subs[link.conditionValue := []] else subs[link.conditionValue := b.value];
      assert r == Branches(g, fuel, out, i + 1, branchJoin, join, subs1);
      if i < j {
        BranchesEntry(g, fuel, out, i + 1, branchJoin, join, subs1, j);
      } else {
        BranchesKeepOthers(g, fuel, out, i + 1, branchJoin, join, subs1, link.conditionValue);
      }
    }
  }

  /**
   * A TWO or VARIABLE step with several (or conditioned) outbound links: a join node with
   * no step throws; otherwise the loop continues at the join step, and with no join the
   * sequence ends at this step's node.
   */
  lemma BranchStepContinuesAtJoin(g: Graph, fuel: nat, step: Step, join: Option<int>)
    requires fuel > 0 && ModeDecides(g, step, join)
    requires ModeOf(g, step) == TWO || ModeOf(g, step) == VARIABLE
    ensures var j := JoinForLinks(LinksOf(g.links, step.stepNo), g.steps, g.links);
            var r := Sequence(g, fuel, Some(step), join);
            && (j.JoinStepMissing? ==> r == Threw(NullDereference))
            && (r.Done? ==>
                  && |r.value| >= 1
                  && r.value[0].step == step
                  && (j.NoJoin? ==> |r.value| == 1)
                  && (j.Joined? ==>
                        var rest := Sequence(g, fuel - 1, Lookup(g.steps, Some(j.stepNo)), join);
                        rest.Done? && r.value[1..] == rest.value))
  {
    SequenceAtBranch(g, fuel, step, join);
    BranchTurnParts(g, fuel, step, LinksOf(g.links, step.stepNo), join);
  }

  /**
   * The node of a TWO or VARIABLE step keys one sub-sequence per condition value of its
   * links; a link that goes to the branches' join (or nowhere) leaves its entry empty.
   */
  lemma BranchStepSubSequences(g: Graph, fuel: nat, step: Step, join: Option<int>)
    requires fuel > 0 && ModeDecides(g, step, join)
    requires ModeOf(g, step) == TWO || ModeOf(g, step) == VARIABLE
    ensures var out := LinksOf(g.links, step.stepNo);
            var j := JoinForLinks(out, g.steps, g.links);
            var r := Sequence(g, fuel, Some(step), join);
            r.Done? ==>
              && |r.value| >= 1
              && r.value[0].subSequences.Keys == ConditionsFrom(out, 0)
              && (forall i :: 0 <= i < |out| && LastWithCondition(out, i) && EmptyBranch(out[i], JoinStepNo(j), join) ==>
                    r.value[0].subSequences[out[i].conditionValue] == [])
  {
    var out := LinksOf(g.links, step.stepNo);
    var j := JoinForLinks(out, g.steps, g.links);
    var bj := JoinStepNo(j);
    SequenceAtBranch(g, fuel, step, join);
    BranchTurnParts(g, fuel, step, out, join);
    var subs := Branches(g, fuel - 1, out, 0, bj, join, map[]);
    if Sequence(g, fuel, Some(step), join).Done? {
      assert Sequence(g, fuel, Some(step), join).value[0].subSequences == subs.value;
      BranchesKeys(g, fuel - 1, out, 0, bj, join, map[]);
      var none: SubSequences := map[];
      assert none.Keys == {};
      assert subs.value.Keys == ConditionsFrom(out, 0);
      forall i | 0 <= i < |out| && LastWithCondition(out, i) && EmptyBranch(out[i], bj, join)
        ensures subs.value[out[i].conditionValue] == []
      {
        BranchesEntry(g, fuel - 1, out, 0, bj, join, map[], i);
      }
    }
  }

  /**
   * A branching step whose only link is conditioned still gets that one sub-sequence,
   * built with no join bound, and the sequence ends at it: one start has no join.
   */
  lemma SingleConditionedBranch(g: Graph, fuel: nat, step: Step, join: Option<int>, link: Link)
    requires fuel > 0 && step.typeName in g.stepTypes && Some(step.stepNo) != join
    requires ModeOf(g, step) == TWO || ModeOf(g, step) == VARIABLE
    requires LinksOf(g.links, step.stepNo) == [link] && HasContent(link.conditionValue)
    ensures var r := Sequence(g, fuel, Some(step), join);
            r.Done? ==>
              && |r.value| == 1 && r.value[0].step == step
              && r.value[0].subSequences.Keys == {link.conditionValue}
              && (link.toStepNo.Some? && link.toStepNo != join ==>
                    var b := Sequence(g, fuel - 1, Lookup(g.steps, link.toStepNo), None);
                    b.Done? && r.value[0].subSequences[link.conditionValue] == b.value)
  {
    SingleStartNoJoin(Destinations([link]), g.steps, g.links);
    BranchStepContinuesAtJoin(g, fuel, step, join);
    BranchStepSubSequences(g, fuel, step, join);
    assert ConditionsFrom([link], 0) == {link.conditionValue};
    SequenceAtBranch(g, fuel, step, join);
    BranchTurnParts(g, fuel, step, [link], join);
    BranchesEntry(g, fuel - 1, [link], 0, None, join, map[], 0);
  }

  /**
   * A CONTAINER step: its node holds, under "push", the sequence built from the first push
   * link's destination with no join bound; the loop continues at the first pop link's
   * destination, and the sequence ends at the container when it has no pop link.
   */
  lemma ContainerStepShape(g: Graph, fuel: nat, step: Step, join: Option<int>)
    requires fuel > 0 && ModeDecides(g, step, join) && ModeOf(g, step) == CONTAINER
    ensures var out := LinksOf(g.links, step.stepNo);
            var push := FirstWithCondition(out, "push");
            var pop := FirstWithCondition(out, "pop");
            var r := Sequence(g, fuel, Some(step), join);
            r.Done? ==>
              && |r.value| >= 1
              && r.value[0].step == step
              && (push.Some? && push.value.toStepNo.Some? ==>
                    var contents := Sequence(g, fuel - 1, Lookup(g.steps, push.value.toStepNo), None);
                    contents.Done? && r.value[0].subSequences == map[Some("push") := contents.value])
              && (!(push.Some? && push.value.toStepNo.Some?) ==> r.value[0].subSequences == map[])
              && (pop.None? ==> |r.value| == 1)
              && (pop.Some? && pop.value.toStepNo.Some? ==>
                    var rest := Sequence(g, fuel - 1, Lookup(g.steps, pop.value.toStepNo), join);
                    rest.Done? && r.value[1..] == rest.value)
  {
    SequenceAtContainer(g, fuel, step, join);
  }

  /**
   * A step whose mode is neither branching nor container, with several (or conditioned)
   * outbound links, only draws the warning: the loop re-adds it forever and never ends.
   */
  lemma {:induction false} WarningStepDiverges(g: Graph, fuel: nat, step: Step, join: Option<int>)
    requires ModeDecides(g, step, join)
    requires ModeOf(g, step) == ZERO || ModeOf(g, step) == ONE
    ensures Sequence(g, fuel, Some(step), join) == Diverged
  {
    if fuel > 0 {
      WarningStepDiverges(g, fuel - 1, step, join);
      SequenceAtWarning(g, fuel, step, join);
    }
  }

  /**
   * A container whose first pop link has no destination keeps the loop at the container:
   * it re-adds the container every turn, so the sequence is never completed.
   */
  lemma {:induction false} PopToNowhereNeverEnds(g: Graph, fuel: nat, step: Step, join: Option<int>)
    requires ModeDecides(g, step, join) && ModeOf(g, step) == CONTAINER
    requires var pop := FirstWithCondition(LinksOf(g.links, step.stepNo), "pop"); pop.Some? && pop.value.toStepNo.None?
    ensures !Sequence(g, fuel, Some(step), join).Done?
  {
    if fuel > 0 {
      PopToNowhereNeverEnds(g, fuel - 1, step, join);
      SequenceAtContainer(g, fuel, step, join);
    }
  }
}
