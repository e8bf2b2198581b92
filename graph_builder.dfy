/**
 * StepNodeGraphBuilder: turns a revision's flat lists of steps and links into a tree.
 * Each node of the tree is a step, plus the sub-sequences it opens: one per outbound
 * link of a branching step, keyed by the link's condition value, and a "push" sequence
 * holding a container's contents.
 *
 * Sequence is the builder's loop as a function of the step it is at; the methods at
 * the end of the module fill NodeSequence objects in place and are proved to build
 * exactly what Sequence describes.
 */
module GraphBuilder {
  import opened Wrappers
  import opened Strings
  import opened Workflow
  import opened JoinPoint

  /** The sub-sequences of a node, keyed by a condition value that may be null. */
  type SubSequences = map<Option<string>, seq<StepNode>>

  /** StepNode: a step and the sub-sequences it opens. */
  datatype StepNode = StepNode(step: Step, subSequences: SubSequences)

  /** A NodeSequence: one level of the tree, in the order its nodes were added. */
  class NodeSequence {
    var nodes: seq<StepNode>

    /** The empty sequence. */
    constructor ()
      ensures nodes == []
    {
      nodes := [];
    }

    /** Appends a node; the nodes already there stay as they were and where they were. */
    method Add(node: StepNode)
      modifies this
      ensures nodes == old(nodes) + [node]
      ensures Size() == old(Size()) + 1
      ensures Get(old(Size())) == Ok(node)
      ensures forall i :: 0 <= i < old(Size()) ==> Get(i) == old(Get(i))
    {
      nodes := nodes + [node];
    }

    /** The i-th node added; List.get throws outside the list. */
    function Get(i: int): (r: Outcome<StepNode>)
      reads this
      ensures r.Ok? <==> 0 <= i < |nodes|
      ensures r.Ok? ==> r.value == nodes[i]
    {
      if 0 <= i < |nodes| then Ok(nodes[i]) else Fail("IndexOutOfBoundsException")
    }

    /** The number of nodes added. */
    function Size(): (r: nat)
      reads this
      ensures r == |nodes|
    {
      |nodes|
    }
  }

  /** What the builder reads: the step map, the links-from map and the registered step types. */
  datatype Graph = Graph(steps: StepMap, links: LinkMap, stepTypes: map<string, StepType>)

  /** The first link whose condition value is c (a stream filter and findFirst). */
  function FirstWithCondition(links: seq<Link>, c: string): Option<Link>
  {
    if |links| == 0 then None
    else if links[0].conditionValue == Some(c) then Some(links[0])
    else FirstWithCondition(links[1..], c)
  }

  /** FirstWithCondition finds the first link with condition c, and None when no link has it. */
  lemma {:induction false} FirstWithConditionFinds(links: seq<Link>, c: string)
    ensures FirstWithCondition(links, c).None? <==> forall i :: 0 <= i < |links| ==> links[i].conditionValue != Some(c)
    ensures FirstWithCondition(links, c).Some? ==>
              exists i :: 0 <= i < |links| && links[i] == FirstWithCondition(links, c).value && links[i].conditionValue == Some(c)
                          && forall j :: 0 <= j < i ==> links[j].conditionValue != Some(c)
  {
    if |links| > 0 && links[0].conditionValue != Some(c) {
      var tail := links[1..];
      FirstWithConditionFinds(tail, c);
      var r := FirstWithCondition(tail, c);
      if r.Some? {
        var i :| 0 <= i < |tail| && tail[i] == r.value && tail[i].conditionValue == Some(c)
                 && forall j :: 0 <= j < i ==> tail[j].conditionValue != Some(c);
        assert links[i + 1] == r.value;
        forall j | 0 <= j < i + 1 ensures links[j].conditionValue != Some(c) {
          if j > 0 { assert links[j] == tail[j - 1]; }
        }
      } else {
        forall i | 0 <= i < |links| ensures links[i].conditionValue != Some(c) {
          if i > 0 { assert links[i] == tail[i - 1]; }
        }
      }
    }
  }

  /** A node put in front of the nodes built after it, when those were built. */
  function Prepend(node: StepNode, rest: Exec<seq<StepNode>>): (r: Exec<seq<StepNode>>)
    ensures r.Done? <==> rest.Done?
    ensures r.Done? ==> r.value == [node] + rest.value
    ensures r.Threw? <==> rest.Threw?
    ensures r.Threw? ==> r.message == rest.message
  {
    match rest
    case Done(ns) => Done([node] + ns)
    case Threw(m) => Threw(m)
    case Diverged => Diverged
  }

  /** The link of a branch whose sub-sequence stays empty: it goes to the branch join, the enclosing join, or nowhere. */
  predicate EmptyBranch(link: Link, branchJoin: Option<int>, join: Option<int>)
  {
    (branchJoin.Some? && branchJoin == link.toStepNo) || link.toStepNo == join || link.toStepNo.None?
  }

  /** The join of a branch step's links as an Integer: null when there is none. */
  function JoinStepNo(j: JoinResult): Option<int>
  {
    if j.Joined? then Some(j.stepNo) else None
  }

  /**
   * The nodes the builder's loop adds to the sequence it fills, starting at `current`
   * and ending before `join`.  Each turn of the loop costs one unit of fuel.
   */
  function Sequence(g: Graph, fuel: nat, current: Option<Step>, join: Option<int>): Exec<seq<StepNode>>
    decreases fuel, 1, 0
  {
    if current.None? then Done([])
    else if fuel == 0 then Diverged
    else
      var step := current.value;
      if step.typeName !in g.stepTypes then Done([])
      else if Some(step.stepNo) == join then Done([])
      else
        var out := LinksOf(g.links, step.stepNo);
        var node := StepNode(step, map[]);
        if |out| == 0 then Done([node])
        else if |out| == 1 && !HasContent(out[0].conditionValue) then
          var next := Lookup(g.steps, out[0].toStepNo);
          if next.None? || Some(next.value.stepNo) == join then Done([node])
          else Prepend(node, Sequence(g, fuel - 1, next, join))
        else
          var mode := g.stepTypes[step.typeName].mode;
          if mode == TWO || mode == VARIABLE then BranchTurn(g, fuel, step, out, join)
          else if mode == CONTAINER then ContainerTurn(g, fuel, step, out, join)
          else
            // the warning branch: the loop goes round again at the same step
            Prepend(node, Sequence(g, fuel - 1, current, join))
  }

  /**
   * A turn at a TWO or VARIABLE step with several (or conditioned) outbound links: find
   * where the branches meet, build each branch up to there, and go on at the join step.
   */
  function BranchTurn(g: Graph, fuel: nat, step: Step, out: seq<Link>, join: Option<int>): Exec<seq<StepNode>>
    requires fuel > 0
    decreases fuel, 0, 0
  {
    var j := JoinForLinks(out, g.steps, g.links);
    if j.JoinStepMissing? then Threw(NullDereference)
    else
      var branchJoin := JoinStepNo(j);
      match Branches(g, fuel - 1, out, 0, branchJoin, join, map[])
      case Threw(m) => Threw(m)
      case Diverged => Diverged
      case Done(subs) => Prepend(StepNode(step, subs), Sequence(g, fuel - 1, Lookup(g.steps, branchJoin), join))
  }

  /** The sub-sequences of a container: its contents under "push", when it has a push link with a destination. */
  function ContainerContents(g: Graph, fuel: nat, out: seq<Link>): Exec<SubSequences>
    decreases fuel, 2, 0
  {
    var push := FirstWithCondition(out, "push");
    if push.Some? && push.value.toStepNo.Some? then
      match Sequence(g, fuel, Lookup(g.steps, push.value.toStepNo), None)
      case Done(contents) => Done(map[Some("push") := contents])
      case Threw(m) => Threw(m)
      case Diverged => Diverged
    else Done(map[])
  }

  /**
   * A turn at a CONTAINER step: build its contents with no join bound, then go on at
   * its pop link's destination; with no pop link the sequence ends, and a pop link with
   * no destination leaves the loop at the container.
   */
  function ContainerTurn(g: Graph, fuel: nat, step: Step, out: seq<Link>, join: Option<int>): Exec<seq<StepNode>>
    requires fuel > 0
    decreases fuel, 0, 0
  {
    match ContainerContents(g, fuel - 1, out)
    case Threw(m) => Threw(m)
    case Diverged => Diverged
    case Done(subs) =>
      var pop := FirstWithCondition(out, "pop");
      if pop.None? then Done([StepNode(step, subs)])
      else if pop.value.toStepNo.None? then Prepend(StepNode(step, subs), Sequence(g, fuel - 1, Some(step), join))
      else Prepend(StepNode(step, subs), Sequence(g, fuel - 1, Lookup(g.steps, pop.value.toStepNo), join))
  }

  /**
   * The sub-sequences of a branching step, from its i-th outbound link on: each link
   * puts its condition value in the map, and a link that does not end the branch at
   * once gets the sequence built from its destination up to the branches' join.
   */
  function Branches(g: Graph, fuel: nat, out: seq<Link>, i: nat, branchJoin: Option<int>, join: Option<int>, subs: SubSequences)
    : Exec<SubSequences>
    requires i <= |out|
    decreases fuel, 2, |out| - i
  {
    if i == |out| then Done(subs)
    else
      var link := out[i];
      if EmptyBranch(link, branchJoin, join) then
        Branches(g, fuel, out, i + 1, branchJoin, join, subs[link.conditionValue := []])
      else
        match Sequence(g, fuel, Lookup(g.steps, link.toStepNo), branchJoin)
        case Done(b) => Branches(g, fuel, out, i + 1, branchJoin, join, subs[link.conditionValue := b])
        case Threw(m) => Threw(m)
        case Diverged => Diverged
  }

  /** The graph the public buildNodeSequence builds from a revision's steps and links. */
  function GraphOf(steps: seq<Step>, links: seq<Link>, stepTypes: map<string, StepType>): Graph
  {
    Graph(StepMapOf(steps), LinkMapOf(links), stepTypes)
  }

  /** buildNodeSequence(startStepNo, steps, links): the top-level sequence, with no join. */
  function BuildGraph(startStepNo: Option<int>, steps: seq<Step>, links: seq<Link>, stepTypes: map<string, StepType>, fuel: nat)
    : Exec<seq<StepNode>>
  {
    var g := GraphOf(steps, links, stepTypes);
    Sequence(g, fuel, Lookup(g.steps, startStepNo), None)
  }

  /** Whether a fill of a sequence returned normally, threw or ran out of fuel. */
  function Status<T>(e: Exec<T>): (r: Exec<()>)
    ensures r.Done? <==> e.Done?
    ensures r.Threw? <==> e.Threw?
    ensures r.Threw? ==> r.message == e.message
  {
    match e
    case Done(_) => Done(())
    case Threw(m) => Threw(m)
    case Diverged => Diverged
  }

  /** The public buildNodeSequence: loads the two maps and fills a new sequence from the start step. */
  method BuildNodeSequence(startStepNo: Option<int>, steps: seq<Step>, links: seq<Link>, stepTypes: map<string, StepType>, fuel: nat)
    returns (r: Exec<NodeSequence>)
    ensures BuildGraph(startStepNo, steps, links, stepTypes, fuel).Done? <==> r.Done?
    ensures r.Done? ==> fresh(r.value) && r.value.nodes == BuildGraph(startStepNo, steps, links, stepTypes, fuel).value
    ensures r.Threw? <==> BuildGraph(startStepNo, steps, links, stepTypes, fuel).Threw?
    ensures r.Threw? ==> r.message == BuildGraph(startStepNo, steps, links, stepTypes, fuel).message
  {
    var stepMap := LoadSteps(steps);
    var linksFromMap := LoadLinks(links);
    var g := Graph(stepMap, linksFromMap, stepTypes);
    var nodeSequence := new NodeSequence();
    var status := Fill(nodeSequence, Lookup(stepMap, startStepNo), g, None, fuel);
    if status.Threw? {
      return Threw(status.message);
    } else if status.Diverged? {
      return Diverged;
    }
    return Done(nodeSequence);
  }

  /**
   * The bookkeeping of the builder's loop: the sequence still to build from the current
   * step, `rest`, ends as the whole sequence `total` does, and when it is built, the
   * nodes added so far followed by `rest` are the nodes the loop started with followed
   * by `total`.
   */
  ghost predicate Tracks(nodes0: seq<StepNode>, total: Exec<seq<StepNode>>, nodes: seq<StepNode>, rest: Exec<seq<StepNode>>)
  {
    && Status(rest) == Status(total)
    && (rest.Done? ==> total.Done? && nodes0 + total.value == nodes + rest.value)
  }

  /**
   * The private buildNodeSequence: the loop that walks from `start`, adding a node per
   * step to `nodeSequence` and filling the sub-sequences of branching and container
   * steps by recursive calls.
   */
  method Fill(nodeSequence: NodeSequence, start: Option<Step>, g: Graph, join: Option<int>, fuel: nat) returns (r: Exec<()>)
    modifies nodeSequence
    ensures r == Status(Sequence(g, fuel, start, join))
    ensures r.Done? ==> nodeSequence.nodes == old(nodeSequence.nodes) + Sequence(g, fuel, start, join).value
    decreases fuel, 2, 0
  {
    var current := start;
    var f: nat := fuel;
    ghost var total := Sequence(g, fuel, start, join);
    while current.Some?
      invariant f <= fuel
      invariant Tracks(old(nodeSequence.nodes), total, nodeSequence.nodes, Sequence(g, f, current, join))
      decreases f
    {
      if f == 0 {
        return Diverged;
      }
      var step := current.value;
      assert current == Some(step);
      var stop, next := Turn(nodeSequence, step, g, join, f);
      if stop.Some? {
        return stop.value;
      }
      current := next;
      f := f - 1;
    }
    return Done(());
  }

  /**
   * One turn of the builder's loop at `step`: either the sequence ends here (`stop`
   * says how), or the loop goes on at `next` with one unit of fuel less.
   */
  method Turn(nodeSequence: NodeSequence, step: Step, g: Graph, join: Option<int>, fuel: nat)
    returns (stop: Option<Exec<()>>, next: Option<Step>)
    requires fuel > 0
    modifies nodeSequence
    ensures stop.Some? ==> stop.value == Status(Sequence(g, fuel, Some(step), join))
    ensures stop.Some? && stop.value.Done? ==>
              nodeSequence.nodes == old(nodeSequence.nodes) + Sequence(g, fuel, Some(step), join).value
    ensures stop.None? ==> Status(Sequence(g, fuel - 1, next, join)) == Status(Sequence(g, fuel, Some(step), join))
    ensures stop.None? && Sequence(g, fuel - 1, next, join).Done? ==>
              old(nodeSequence.nodes) + Sequence(g, fuel, Some(step), join).value
              == nodeSequence.nodes + Sequence(g, fuel - 1, next, join).value
    decreases fuel, 1, 0
  {
    stop, next := None, Some(step);
    if step.typeName !in g.stepTypes || Some(step.stepNo) == join {
      return Some(Done(())), next;
    }
    var out := LinksOf(g.links, step.stepNo);
    if |out| == 0 {
      nodeSequence.Add(StepNode(step, map[]));
      return Some(Done(())), next;
    } else if |out| == 1 && !HasContent(out[0].conditionValue) {
      nodeSequence.Add(StepNode(step, map[]));
      next := Lookup(g.steps, out[0].toStepNo);
      if next.None? || Some(next.value.stepNo) == join {
        return Some(Done(())), next;
      }
      return None, next;
    }
    stop, next := TurnByMode(nodeSequence, step, out, g, join, fuel);
  }

  /** The turn at a step with several (or conditioned) outbound links, decided by its type's mode. */
  method TurnByMode(nodeSequence: NodeSequence, step: Step, out: seq<Link>, g: Graph, join: Option<int>, fuel: nat)
    returns (stop: Option<Exec<()>>, next: Option<Step>)
    requires fuel > 0 && step.typeName in g.stepTypes && Some(step.stepNo) != join
    requires out == LinksOf(g.links, step.stepNo) && |out| > 0 && !(|out| == 1 && !HasContent(out[0].conditionValue))
    modifies nodeSequence
    ensures stop.Some? ==> stop.value == Status(Sequence(g, fuel, Some(step), join))
    ensures stop.Some? && stop.value.Done? ==>
              nodeSequence.nodes == old(nodeSequence.nodes) + Sequence(g, fuel, Some(step), join).value
    ensures stop.None? ==> Status(Sequence(g, fuel - 1, next, join)) == Status(Sequence(g, fuel, Some(step), join))
    ensures stop.None? && Sequence(g, fuel - 1, next, join).Done? ==>
              old(nodeSequence.nodes) + Sequence(g, fuel, Some(step), join).value
              == nodeSequence.nodes + Sequence(g, fuel - 1, next, join).value
    decreases fuel, 0, 2
  {
    stop, next := None, Some(step);
    var mode := g.stepTypes[step.typeName].mode;
    if mode == TWO || mode == VARIABLE {
      stop, next := TurnAtBranch(nodeSequence, step, out, g, join, fuel);
    } else if mode == CONTAINER {
      stop, next := TurnAtContainer(nodeSequence, step, out, g, join, fuel);
    } else {
      // the warning branch: the loop goes round again at the same step
      nodeSequence.Add(StepNode(step, map[]));
    }
  }

  /** The turn at a branching step: the join search, then one filled sequence per outbound link. */
  method TurnAtBranch(nodeSequence: NodeSequence, step: Step, out: seq<Link>, g: Graph, join: Option<int>, fuel: nat)
    returns (stop: Option<Exec<()>>, next: Option<Step>)
    requires fuel > 0
    modifies nodeSequence
    ensures stop.Some? ==> stop.value == Status(BranchTurn(g, fuel, step, out, join)) && !stop.value.Done?
    ensures stop.None? ==> Status(Sequence(g, fuel - 1, next, join)) == Status(BranchTurn(g, fuel, step, out, join))
    ensures stop.None? && Sequence(g, fuel - 1, next, join).Done? ==>
              old(nodeSequence.nodes) + BranchTurn(g, fuel, step, out, join).value
              == nodeSequence.nodes + Sequence(g, fuel - 1, next, join).value
    decreases fuel, 0, 1
  {
    var j := FindFirstJoinPoint(Destinations(out), g.steps, g.links);
    assert j == JoinForLinks(out, g.steps, g.links);
    if j.JoinStepMissing? {
      return Some(Threw(NullDereference)), Some(step);
    }
    var node: StepNode;
    stop, next, node := FillBranching(nodeSequence, step, out, g, join, fuel, JoinStepNo(j));
    if stop.None? {
      var rest := Sequence(g, fuel - 1, next, join);
      if rest.Done? {
        AppendAssociates(old(nodeSequence.nodes), node, rest.value);
      }
    }
  }

  /** The branches of a branching step whose join search succeeded: fill them, then add the step. */
  method FillBranching(nodeSequence: NodeSequence, step: Step, out: seq<Link>, g: Graph, join: Option<int>, fuel: nat,
                       branchJoin: Option<int>)
    returns (stop: Option<Exec<()>>, next: Option<Step>, node: StepNode)
    requires fuel > 0
    requires var j := JoinForLinks(out, g.steps, g.links);
             !j.JoinStepMissing? && branchJoin == JoinStepNo(j)
    modifies nodeSequence
    ensures stop.Some? ==> stop.value == Status(BranchTurn(g, fuel, step, out, join)) && !stop.value.Done?
    ensures stop.None? ==> BranchTurn(g, fuel, step, out, join) == Prepend(node, Sequence(g, fuel - 1, next, join))
    ensures stop.None? ==> nodeSequence.nodes == old(nodeSequence.nodes) + [node]
    decreases fuel, 0, 0
  {
    next, node := Some(step), StepNode(step, map[]);
    var subs := FillBranches(out, g, branchJoin, join, fuel - 1);
    if subs.Threw? {
      return Some(Threw(subs.message)), next, node;
    } else if subs.Diverged? {
      return Some(Diverged), next, node;
    }
    node := StepNode(step, subs.value);
    next := AddBranching(nodeSequence, step, out, g, join, fuel, branchJoin, subs.value);
    stop := None;
  }

  /** A node appended to a prefix and then followed by the rest is the prefix followed by the node and the rest. */
  lemma AppendAssociates(prefix: seq<StepNode>, node: StepNode, rest: seq<StepNode>)
    ensures prefix + ([node] + rest) == (prefix + [node]) + rest
  {
  }

  /** The rest of the turn at a branching step, once its branches are filled: add it, then go on at the join. */
  method AddBranching(nodeSequence: NodeSequence, step: Step, out: seq<Link>, g: Graph, join: Option<int>, fuel: nat,
                      branchJoin: Option<int>, subs: SubSequences)
    returns (next: Option<Step>)
    requires fuel > 0
    requires var j := JoinForLinks(out, g.steps, g.links);
             !j.JoinStepMissing? && branchJoin == JoinStepNo(j)
    requires Branches(g, fuel - 1, out, 0, branchJoin, join, map[]) == Done(subs)
    modifies nodeSequence
    ensures BranchTurn(g, fuel, step, out, join) == Prepend(StepNode(step, subs), Sequence(g, fuel - 1, next, join))
    ensures nodeSequence.nodes == old(nodeSequence.nodes) + [StepNode(step, subs)]
  {
    nodeSequence.Add(StepNode(step, subs));
    next := Lookup(g.steps, branchJoin);
  }

  /** The turn at a container step: fill its contents, then follow its pop link. */
  method TurnAtContainer(nodeSequence: NodeSequence, step: Step, out: seq<Link>, g: Graph, join: Option<int>, fuel: nat)
    returns (stop: Option<Exec<()>>, next: Option<Step>)
    requires fuel > 0
    modifies nodeSequence
    ensures stop.Some? ==> stop.value == Status(ContainerTurn(g, fuel, step, out, join))
    ensures stop.Some? && stop.value.Done? ==>
              nodeSequence.nodes == old(nodeSequence.nodes) + ContainerTurn(g, fuel, step, out, join).value
    ensures stop.None? ==> Status(Sequence(g, fuel - 1, next, join)) == Status(ContainerTurn(g, fuel, step, out, join))
    ensures stop.None? && Sequence(g, fuel - 1, next, join).Done? ==>
              old(nodeSequence.nodes) + ContainerTurn(g, fuel, step, out, join).value
              == nodeSequence.nodes + Sequence(g, fuel - 1, next, join).value
    decreases fuel, 0, 1
  {
    var subs := FillContainer(out, g, fuel - 1);
    if subs.Threw? {
      assert ContainerTurn(g, fuel, step, out, join) == Threw(subs.message);
      return Some(Threw(subs.message)), Some(step);
    } else if subs.Diverged? {
      assert ContainerTurn(g, fuel, step, out, join) == Diverged;
      return Some(Diverged), Some(step);
    }
    stop, next := AddContainer(nodeSequence, step, out, g, join, fuel, subs.value);
    if stop.None? {
      var rest := Sequence(g, fuel - 1, next, join);
      if rest.Done? {
        AppendAssociates(old(nodeSequence.nodes), StepNode(step, subs.value), rest.value);
      }
    }
  }

  /** The rest of the turn at a container step, once its contents are filled: add it, then follow the pop link. */
  method AddContainer(nodeSequence: NodeSequence, step: Step, out: seq<Link>, g: Graph, join: Option<int>, fuel: nat,
                      subs: SubSequences)
    returns (stop: Option<Exec<()>>, next: Option<Step>)
    requires fuel > 0 && ContainerContents(g, fuel - 1, out) == Done(subs)
    modifies nodeSequence
    ensures stop.Some? ==> stop.value == Done(()) && ContainerTurn(g, fuel, step, out, join).Done?
    ensures stop.Some? ==> nodeSequence.nodes == old(nodeSequence.nodes) + ContainerTurn(g, fuel, step, out, join).value
    ensures stop.None? ==> ContainerTurn(g, fuel, step, out, join) == Prepend(StepNode(step, subs), Sequence(g, fuel - 1, next, join))
    ensures stop.None? ==> nodeSequence.nodes == old(nodeSequence.nodes) + [StepNode(step, subs)]
    decreases fuel, 0, 0
  {
    next := Some(step);
    var node := StepNode(step, subs);
    nodeSequence.Add(node);
    var pop := FirstWithCondition(out, "pop");
    if pop.None? {
      return Some(Done(())), next;
    }
    if pop.value.toStepNo.Some? {
      next := Lookup(g.steps, pop.value.toStepNo);
    }
    stop := None;
  }

  /**
   * The for-loop over a branching step's outbound links: a new sequence per link, put
   * under its condition value and filled up to the branches' join.
   */
  method FillBranches(out: seq<Link>, g: Graph, branchJoin: Option<int>, join: Option<int>, fuel: nat)
    returns (r: Exec<SubSequences>)
    ensures r == Branches(g, fuel, out, 0, branchJoin, join, map[])
    decreases fuel, 3, 0
  {
    var subs: SubSequences := map[];
    for i := 0 to |out|
      invariant Branches(g, fuel, out, i, branchJoin, join, subs) == Branches(g, fuel, out, 0, branchJoin, join, map[])
    {
      var link := out[i];
      ghost var prev := subs;
      var branchSequence := new NodeSequence();
      subs := subs[link.conditionValue := branchSequence.nodes];
      if EmptyBranch(link, branchJoin, join) {
        assert Branches(g, fuel, out, i, branchJoin, join, prev) == Branches(g, fuel, out, i + 1, branchJoin, join, subs);
        continue;
      }
      var status := Fill(branchSequence, Lookup(g.steps, link.toStepNo), g, branchJoin, fuel);
      if status.Threw? {
        return Threw(status.message);
      } else if status.Diverged? {
        return Diverged;
      }
      assert branchSequence.nodes == Sequence(g, fuel, Lookup(g.steps, link.toStepNo), branchJoin).value;
      subs := subs[link.conditionValue := branchSequence.nodes];
      assert subs == prev[link.conditionValue := branchSequence.nodes];
      assert Branches(g, fuel, out, i, branchJoin, join, prev) == Branches(g, fuel, out, i + 1, branchJoin, join, subs);
    }
    return Done(subs);
  }

  /** A container's "push" sequence, new and filled with no join bound, when it has a push link with a destination. */
  method FillContainer(out: seq<Link>, g: Graph, fuel: nat) returns (subs: Exec<SubSequences>)
    ensures subs == ContainerContents(g, fuel, out)
    decreases fuel, 3, 0
  {
    var push := FirstWithCondition(out, "push");
    subs := Done(map[]);
    if push.Some? && push.value.toStepNo.Some? {
      var containerSequence := new NodeSequence();
      var status := Fill(containerSequence, Lookup(g.steps, push.value.toStepNo), g, None, fuel);
      if status.Threw? {
        subs := Threw(status.message);
      } else if status.Diverged? {
        subs := Diverged;
      } else {
        assert containerSequence.nodes == Sequence(g, fuel, Lookup(g.steps, push.value.toStepNo), None).value;
        subs := Done(map[Some("push") := containerSequence.nodes]);
      }
    }
  }
}
