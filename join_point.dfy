/**
 * FindFirstJoinPoint: a multi-source search from the destinations of a step's fork
 * links that stops at the first node reached from two different start nodes.
 *
 * The search keeps, per node, the list of start nodes ("sources") that have reached
 * it, and a deque of (node, source) pairs still to expand.  Start pairs are added at
 * the back; a newly reached pair is pushed on the front, so the search runs depth-first
 * from the most recently reached node.
 */
module JoinPoint {
  import opened Wrappers
  import opened Workflow

  /** A queue entry: the node reached and the start node it was reached from. */
  datatype Visit = Visit(current: Option<int>, source: Option<int>)

  /** The visited ListingHash: node to the sources that reached it, in order. */
  type Visited = map<Option<int>, seq<Option<int>>>

  /** What the search meets: nothing, or the first node reached from a second source. */
  datatype SearchResult = Exhausted | Met(node: int)

  /**
   * The answer of FindFirstJoinPoint.execute: no join, the step number of the join
   * step, or a join node with no step in the step map (the exception Java throws on a null dereference).
   */
  datatype JoinResult = NoJoin | Joined(node: int, stepNo: int) | JoinStepMissing(node: int)

  /** The outcome of expanding one queue entry's neighbours. */
  datatype Scan = Meeting(node: int) | Scanned(queue: seq<Visit>, visited: Visited)

  function Neighbors(links: LinkMap, n: Option<int>): seq<Link>
  {
    if n.Some? && n.value in links then links[n.value] else []
  }

  function SourcesOf(visited: Visited, n: Option<int>): seq<Option<int>>
  {
    if n in visited then visited[n] else []
  }

  /** Every non-null destination of a link in the map. */
  function Nodes(links: LinkMap): set<Option<int>>
  {
    set k, j | k in links && 0 <= j < |links[k]| && links[k][j].toStepNo.Some? :: links[k][j].toStepNo
  }

  /** The (node, start) pairs not yet recorded: the search's termination measure. */
  ghost function Pending(links: LinkMap, starts: seq<Option<int>>, visited: Visited): set<(Option<int>, Option<int>)>
  {
    set n, s | n in Nodes(links) && s in starts && s !in SourcesOf(visited, n) :: (n, s)
  }

  /** The seeding loop: each start is visited by itself and queued at the back. */
  function Seed(starts: seq<Option<int>>): (r: (Visited, seq<Visit>))
    ensures forall v :: v in r.1 ==> v.source in starts && v.current == v.source
  {
    if |starts| == 0 then (map[], [])
    else
      var (visited, queue) := Seed(starts[..|starts| - 1]);
      var node := starts[|starts| - 1];
      (visited[node := SourcesOf(visited, node) + [node]], queue + [Visit(node, node)])
  }

  lemma NeighborInNodes(links: LinkMap, current: Option<int>, i: nat)
    requires i < |Neighbors(links, current)| && Neighbors(links, current)[i].toStepNo.Some?
    ensures Neighbors(links, current)[i].toStepNo in Nodes(links)
  {
    assert Neighbors(links, current) == links[current.value];
    var k := current.value;
    assert k in links && 0 <= i < |links[k]| && links[k][i].toStepNo.Some?;
    assert links[k][i].toStepNo in Nodes(links);
  }

  /** Recording source at node leaves one pending pair fewer. */
  lemma RecordShrinksPending(links: LinkMap, starts: seq<Option<int>>, visited: Visited, node: Option<int>, source: Option<int>)
    requires node in Nodes(links) && source in starts && source !in SourcesOf(visited, node)
    ensures Pending(links, starts, visited[node := SourcesOf(visited, node) + [source]]) < Pending(links, starts, visited)
  {
    var visited' := visited[node := SourcesOf(visited, node) + [source]];
    assert (node, source) in Pending(links, starts, visited);
    assert (node, source) !in Pending(links, starts, visited');
    forall p | p in Pending(links, starts, visited')
      ensures p in Pending(links, starts, visited)
    {
      if p.0 == node {
        assert SourcesOf(visited', node) == SourcesOf(visited, node) + [source];
      }
    }
  }

  /**
   * The inner loop over the neighbours of `current`, from index i, on behalf of source.
   * A null destination is skipped; a neighbour already reached from source is left alone;
   * otherwise source is recorded, and the neighbour is a meeting point if another source
   * had reached it, or else is pushed on the front of the queue.
   */
  function Expand(links: LinkMap, current: Option<int>, i: nat, source: Option<int>,
                  starts: seq<Option<int>>, queue: seq<Visit>, visited: Visited): (r: Scan)
    requires source in starts
    requires forall v :: v in queue ==> v.source in starts
    ensures r.Scanned? ==> forall v :: v in r.queue ==> v.source in starts
    ensures r.Scanned? ==> (r.queue == queue && r.visited == visited)
                           || Pending(links, starts, r.visited) < Pending(links, starts, visited)
    ensures r.Scanned? ==> Pending(links, starts, r.visited) <= Pending(links, starts, visited)
    decreases |Neighbors(links, current)| - i
  {
    var ns := Neighbors(links, current);
    if i >= |ns| then Scanned(queue, visited)
    else
      var neighbor := ns[i].toStepNo;
      if neighbor.None? then Expand(links, current, i + 1, source, starts, queue, visited)
      else
        var sources := SourcesOf(visited, neighbor);
        if source in sources then Expand(links, current, i + 1, source, starts, queue, visited)
        else
          NeighborInNodes(links, current, i);
          RecordShrinksPending(links, starts, visited, neighbor, source);
          var visited' := visited[neighbor := sources + [source]];
          if |sources| + 1 > 1 then Meeting(neighbor.value)
          else Expand(links, current, i + 1, source, starts, [Visit(neighbor, source)] + queue, visited')
  }

  /** The main loop: expand the entry at the front of the queue until a meeting or an empty queue. */
  function Search(links: LinkMap, starts: seq<Option<int>>, queue: seq<Visit>, visited: Visited): SearchResult
    requires forall v :: v in queue ==> v.source in starts
    decreases Pending(links, starts, visited), |queue|
  {
    if |queue| == 0 then Exhausted
    else
      match Expand(links, queue[0].current, 0, queue[0].source, starts, queue[1..], visited)
      case Meeting(n) => Met(n)
      case Scanned(q, v) => Search(links, starts, q, v)
  }

  /** FindFirstJoinPoint.execute: the meeting node's step number, looked up in the step map. */
  function FirstJoin(starts: seq<Option<int>>, steps: StepMap, links: LinkMap): JoinResult
  {
    var (visited, queue) := Seed(starts);
    match Search(links, starts, queue, visited)
    case Exhausted => NoJoin
    case Met(n) => if n in steps then Joined(n, steps[n].stepNo) else JoinStepMissing(n)
  }

  /** FindFirstJoinPoint.executeForLinks: the search from the links' destinations. */
  function JoinForLinks(forkLinks: seq<Link>, steps: StepMap, links: LinkMap): JoinResult
  {
    FirstJoin(Destinations(forkLinks), steps, links)
  }

  /** FindFirstJoinPoint.executeForFromStepNo: the search from the destinations of a step's links. */
  function JoinForFromStepNo(fromStepNo: int, steps: StepMap, links: LinkMap): JoinResult
  {
    JoinForLinks(LinksOf(links, fromStepNo), steps, links)
  }

  /** FindFirstJoinPoint.execute, with its ArrayDeque as a sequence whose front is index 0. */
  method FindFirstJoinPoint(starts: seq<Option<int>>, steps: StepMap, links: LinkMap) returns (r: JoinResult)
    ensures r == FirstJoin(starts, steps, links)
  {
    var visited: Visited := map[];
    var queue: seq<Visit> := [];
    for i := 0 to |starts|
      invariant (visited, queue) == Seed(starts[..i])
    {
      assert starts[..i + 1][..i] == starts[..i];
      var node := starts[i];
      assert Seed(starts[..i + 1]) == (visited[node := SourcesOf(visited, node) + [node]], queue + [Visit(node, node)]);
      if node in visited {
        visited := visited[node := visited[node] + [node]];
      } else {
        assert SourcesOf(visited, node) + [node] == [node];
        visited := visited[node := [node]];
      }
      queue := queue + [Visit(node, node)];
    }
    assert starts[..|starts|] == starts;
    ghost var outcome := Search(links, starts, queue, visited);

    while |queue| > 0
      invariant forall v :: v in queue ==> v.source in starts
      invariant Search(links, starts, queue, visited) == outcome
      decreases Pending(links, starts, visited), |queue|
    {
      var first := queue[0];
      var scan := ExpandNeighbors(links, first.current, first.source, starts, queue[1..], visited);
      match scan
      case Meeting(n) =>
        if n in steps {
          return Joined(n, steps[n].stepNo);
        } else {
          return JoinStepMissing(n);
        }
      case Scanned(q, v) =>
        queue, visited := q, v;
    }
    return NoJoin;
  }

  /**
   * The body of the main loop of FindFirstJoinPoint.execute: the for-loop over the
   * neighbours of the entry just removed from the front of the deque.
   */
  method ExpandNeighbors(links: LinkMap, current: Option<int>, source: Option<int>, starts: seq<Option<int>>,
                         queue0: seq<Visit>, visited0: Visited) returns (r: Scan)
    requires source in starts
    requires forall v :: v in queue0 ==> v.source in starts
    ensures r == Expand(links, current, 0, source, starts, queue0, visited0)
  {
    var queue, visited := queue0, visited0;
    var neighbors := Neighbors(links, current);
    var i := 0;
    while i < |neighbors|
      invariant i <= |neighbors|
      invariant forall v :: v in queue ==> v.source in starts
      invariant Expand(links, current, i, source, starts, queue, visited)
                == Expand(links, current, 0, source, starts, queue0, visited0)
    {
      var neighbor := neighbors[i].toStepNo;
      if neighbor.Some? {
        ghost var visitedBefore := visited;
        var sources: seq<Option<int>>;
        if neighbor in visited {
          sources := visited[neighbor];
        } else {
          sources := [];
          visited := visited[neighbor := sources];
        }
        if source !in sources {
          visited := visited[neighbor := sources + [source]];
          assert visited == visitedBefore[neighbor := SourcesOf(visitedBefore, neighbor) + [source]];
          if |sources| + 1 > 1 {
            return Meeting(neighbor.value);
          }
          queue := [Visit(neighbor, source)] + queue;
        }
      }
      i := i + 1;
    }
    return Scanned(queue, visited);
  }
}
