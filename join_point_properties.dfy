/**
 * What FindFirstJoinPoint promises, stated against reachability in the link graph:
 * a join is a node reachable from two different start nodes, and the search reports
 * no join exactly when no node is reachable from two different start nodes.
 */
module JoinPointProperties {
  import opened Wrappers
  import opened Workflow
  import opened JoinPoint

  /** A non-null link destination leaving a. */
  predicate Edge(links: LinkMap, a: Option<int>, b: Option<int>)
  {
    b.Some? && b in Destinations(Neighbors(links, a))
  }

  ghost predicate IsPath(links: LinkMap, p: seq<Option<int>>)
  {
    |p| > 0 && forall i :: 0 <= i < |p| - 1 ==> Edge(links, p[i], p[i + 1])
  }

  /** n can be reached from s by following zero or more links. */
  ghost predicate Reaches(links: LinkMap, s: Option<int>, n: Option<int>)
  {
    exists p :: IsPath(links, p) && p[0] == s && p[|p| - 1] == n
  }

  /** n is reachable from two different start nodes. */
  ghost predicate SharedBy(links: LinkMap, starts: seq<Option<int>>, n: Option<int>)
  {
    exists s1, s2 :: s1 in starts && s2 in starts && s1 != s2 && Reaches(links, s1, n) && Reaches(links, s2, n)
  }

  lemma ReachesSelf(links: LinkMap, s: Option<int>)
    ensures Reaches(links, s, s)
  {
    assert IsPath(links, [s]);
  }

  lemma ReachesStep(links: LinkMap, s: Option<int>, c: Option<int>, n: Option<int>)
    requires Reaches(links, s, c) && Edge(links, c, n)
    ensures Reaches(links, s, n)
  {
    var p :| IsPath(links, p) && p[0] == s && p[|p| - 1] == c;
    PathExtends(links, p, n);
    assert (p + [n])[0] == s && (p + [n])[|p|] == n;
  }

  /** A path followed by one more link is a path. */
  lemma PathExtends(links: LinkMap, p: seq<Option<int>>, n: Option<int>)
    requires IsPath(links, p) && Edge(links, p[|p| - 1], n)
    ensures IsPath(links, p + [n])
  {
    var q := p + [n];
    forall i | 0 <= i < |q| - 1 ensures Edge(links, q[i], q[i + 1]) {
      if i < |p| - 1 {
        assert q[i] == p[i] && q[i + 1] == p[i + 1];
      }
    }
  }

  /** The i-th link leaving current, when it has a destination, is an edge. */
  lemma NeighborIsEdge(links: LinkMap, current: Option<int>, i: nat)
    requires i < |Neighbors(links, current)| && Neighbors(links, current)[i].toStepNo.Some?
    ensures Edge(links, current, Neighbors(links, current)[i].toStepNo)
  {
    assert Destinations(Neighbors(links, current))[i] == Neighbors(links, current)[i].toStepNo;
  }

  // ---------------------------------------------------------------- soundness

  /** Every queued and every recorded source really reaches its node. */
  ghost predicate Sound(links: LinkMap, starts: seq<Option<int>>, queue: seq<Visit>, visited: Visited)
  {
    QueueSound(links, starts, queue) && RecordsSound(links, starts, visited)
  }

  /** Every queued source is a start node that really reaches its node. */
  ghost predicate QueueSound(links: LinkMap, starts: seq<Option<int>>, queue: seq<Visit>)
  {
    forall v :: v in queue ==> v.source in starts && Reaches(links, v.source, v.current)
  }

  /** Every recorded source is a start node that really reaches its node. */
  ghost predicate RecordsSound(links: LinkMap, starts: seq<Option<int>>, visited: Visited)
  {
    forall n, s :: s in SourcesOf(visited, n) ==> s in starts && Reaches(links, s, n)
  }

  /** After seeding, a node is recorded only as reached by itself, a start node, which is queued. */
  lemma {:induction false} SeedRecord(starts: seq<Option<int>>, n: Option<int>, s: Option<int>)
    requires s in SourcesOf(Seed(starts).0, n)
    ensures s == n && s in starts && Visit(s, s) in Seed(starts).1
  {
    if |starts| > 0 {
      var init := starts[..|starts| - 1];
      var node := starts[|starts| - 1];
      var visited := Seed(init).0;
      assert starts == init + [node];
      assert Seed(starts).0 == visited[node := SourcesOf(visited, node) + [node]];
      assert Seed(starts).1 == Seed(init).1 + [Visit(node, node)];
      if n != node || s in SourcesOf(visited, node) {
        assert s in SourcesOf(visited, n);
        SeedRecord(init, n, s);
      }
    }
  }

  /** After seeding, every start node is recorded as reached by itself. */
  lemma {:induction false} SeedStart(starts: seq<Option<int>>, s: Option<int>)
    requires s in starts
    ensures s in SourcesOf(Seed(starts).0, s)
  {
    var init := starts[..|starts| - 1];
    var node := starts[|starts| - 1];
    var visited := Seed(init).0;
    assert starts == init + [node];
    assert Seed(starts).0 == visited[node := SourcesOf(visited, node) + [node]];
    if s != node {
      assert s in init;
      SeedStart(init, s);
    }
  }

  lemma SeedQueueSound(links: LinkMap, starts: seq<Option<int>>)
    ensures QueueSound(links, starts, Seed(starts).1)
  {
    forall v | v in Seed(starts).1 ensures Reaches(links, v.source, v.current) {
      ReachesSelf(links, v.source);
    }
  }

  lemma SeedRecordSound(links: LinkMap, starts: seq<Option<int>>)
    ensures RecordsSound(links, starts, Seed(starts).0)
  {
    forall n, s | s in SourcesOf(Seed(starts).0, n) ensures s in starts && Reaches(links, s, n) {
      SeedRecord(starts, n, s);
      ReachesSelf(links, s);
    }
  }

  lemma SeedSound(links: LinkMap, starts: seq<Option<int>>)
    ensures Sound(links, starts, Seed(starts).1, Seed(starts).0)
  {
    SeedQueueSound(links, starts);
    SeedRecordSound(links, starts);
  }

  /** Recording a source that reaches a node, and queueing the pair, keeps the record sound. */
  lemma RecordSound(links: LinkMap, starts: seq<Option<int>>, queue: seq<Visit>, visited: Visited,
                    neighbor: Option<int>, source: Option<int>)
    requires Sound(links, starts, queue, visited)
    requires source in starts && Reaches(links, source, neighbor)
    ensures Sound(links, starts, [Visit(neighbor, source)] + queue,
                  visited[neighbor := SourcesOf(visited, neighbor) + [source]])
  {
    var visited' := visited[neighbor := SourcesOf(visited, neighbor) + [source]];
    RecordKeepsRecordsSound(links, starts, visited, neighbor, source);
    assert QueueSound(links, starts, [Visit(neighbor, source)] + queue) by {
      forall v | v in [Visit(neighbor, source)] + queue
        ensures v.source in starts && Reaches(links, v.source, v.current)
      {
        if v != Visit(neighbor, source) {
          assert v in queue;
        }
      }
    }
  }

  /** Recording a source that reaches a node keeps every recorded source sound. */
  lemma RecordKeepsRecordsSound(links: LinkMap, starts: seq<Option<int>>, visited: Visited,
                                neighbor: Option<int>, source: Option<int>)
    requires RecordsSound(links, starts, visited)
    requires source in starts && Reaches(links, source, neighbor)
    ensures RecordsSound(links, starts, visited[neighbor := SourcesOf(visited, neighbor) + [source]])
  {
    var visited' := visited[neighbor := SourcesOf(visited, neighbor) + [source]];
    forall n, s | s in SourcesOf(visited', n) ensures s in starts && Reaches(links, s, n) {
      if n != neighbor || s != source {
        assert s in SourcesOf(visited, n);
      }
    }
  }

  lemma {:induction false} ExpandSound(links: LinkMap, current: Option<int>, i: nat, source: Option<int>,
                                       starts: seq<Option<int>>, queue: seq<Visit>, visited: Visited)
    requires source in starts
    requires forall v :: v in queue ==> v.source in starts
    requires Reaches(links, source, current)
    requires Sound(links, starts, queue, visited)
    ensures var r := Expand(links, current, i, source, starts, queue, visited);
            && (r.Scanned? ==> Sound(links, starts, r.queue, r.visited))
            && (r.Meeting? ==> SharedBy(links, starts, Some(r.node)))
    decreases |Neighbors(links, current)| - i
  {
    var ns := Neighbors(links, current);
    if i < |ns| {
      var neighbor := ns[i].toStepNo;
      if neighbor.None? || source in SourcesOf(visited, neighbor) {
        ExpandSound(links, current, i + 1, source, starts, queue, visited);
      } else {
        var sources := SourcesOf(visited, neighbor);
        NeighborIsEdge(links, current, i);
        ReachesStep(links, source, current, neighbor);
        if |sources| > 0 {
          var other := sources[0];
          assert other in SourcesOf(visited, neighbor);
          assert other in starts && Reaches(links, other, neighbor);
          assert other != source;
          assert SharedBy(links, starts, neighbor);
        } else {
          var visited' := visited[neighbor := sources + [source]];
          RecordSound(links, starts, queue, visited, neighbor, source);
          ExpandSound(links, current, i + 1, source, starts, [Visit(neighbor, source)] + queue, visited');
        }
      }
    }
  }

  lemma {:induction false} SearchSound(links: LinkMap, starts: seq<Option<int>>, queue: seq<Visit>, visited: Visited)
    requires forall v :: v in queue ==> v.source in starts
    requires Sound(links, starts, queue, visited)
    ensures Search(links, starts, queue, visited).Met? ==> SharedBy(links, starts, Some(Search(links, starts, queue, visited).node))
    decreases Pending(links, starts, visited), |queue|
  {
    if |queue| > 0 {
      assert queue[0] in queue;
      assert Sound(links, starts, queue[1..], visited);
      ExpandSound(links, queue[0].current, 0, queue[0].source, starts, queue[1..], visited);
      match Expand(links, queue[0].current, 0, queue[0].source, starts, queue[1..], visited)
      case Meeting(n) =>
      case Scanned(q, v) => SearchSound(links, starts, q, v);
    }
  }

  /** A join reported by FindFirstJoinPoint is reachable from two different start nodes. */
  lemma FirstJoinSound(starts: seq<Option<int>>, steps: StepMap, links: LinkMap)
    ensures var r := FirstJoin(starts, steps, links);
            && (r.Joined? ==> SharedBy(links, starts, Some(r.node)) && r.node in steps && r.stepNo == steps[r.node].stepNo)
            && (r.JoinStepMissing? ==> SharedBy(links, starts, Some(r.node)) && r.node !in steps)
  {
    SeedSound(links, starts);
    SearchSound(links, starts, Seed(starts).1, Seed(starts).0);
  }

  // ------------------------------------------------------------- completeness

  /** Every node reached by link from n has been recorded as reached from s. */
  ghost predicate Done(links: LinkMap, visited: Visited, n: Option<int>, s: Option<int>)
  {
    forall m :: Edge(links, n, m) ==> s in SourcesOf(visited, m)
  }

  /** Each recorded pair is still queued or already expanded. */
  ghost predicate Closed(links: LinkMap, queue: seq<Visit>, visited: Visited)
  {
    forall n, s :: s in SourcesOf(visited, n) ==> Visit(n, s) in queue || Done(links, visited, n, s)
  }

  /** Closed, except possibly for the pair being expanded. */
  ghost predicate ClosedExcept(links: LinkMap, queue: seq<Visit>, visited: Visited, current: Option<int>, source: Option<int>)
  {
    forall n, s :: s in SourcesOf(visited, n) && (n != current || s != source) ==> Visit(n, s) in queue || Done(links, visited, n, s)
  }

  /** No node has been recorded for two different sources. */
  ghost predicate Single(visited: Visited)
  {
    forall n, s1, s2 :: s1 in SourcesOf(visited, n) && s2 in SourcesOf(visited, n) ==> s1 == s2
  }

  ghost predicate Grows(visited: Visited, visited': Visited)
  {
    forall n, s :: s in SourcesOf(visited, n) ==> s in SourcesOf(visited', n)
  }

  /** Recording a first source for a node and queueing the pair keeps the record closed. */
  lemma RecordClosed(links: LinkMap, queue: seq<Visit>, visited: Visited, current: Option<int>, source: Option<int>,
                     neighbor: Option<int>)
    requires ClosedExcept(links, queue, visited, current, source) && Single(visited)
    requires SourcesOf(visited, neighbor) == []
    ensures var visited' := visited[neighbor := [source]];
            && ClosedExcept(links, [Visit(neighbor, source)] + queue, visited', current, source)
            && Single(visited') && Grows(visited, visited')
  {
    var visited' := visited[neighbor := [source]];
    var queue' := [Visit(neighbor, source)] + queue;
    forall n, s | s in SourcesOf(visited, n) ensures s in SourcesOf(visited', n) {
      assert n != neighbor;
    }
    forall n, s | s in SourcesOf(visited', n) && (n != current || s != source)
      ensures Visit(n, s) in queue' || Done(links, visited', n, s)
    {
      if n != neighbor {
        assert s in SourcesOf(visited, n);
      }
    }
    forall n, s1, s2 | s1 in SourcesOf(visited', n) && s2 in SourcesOf(visited', n) ensures s1 == s2 {
      if n != neighbor {
        assert s1 in SourcesOf(visited, n) && s2 in SourcesOf(visited, n);
      }
    }
  }

  lemma {:induction false} ExpandComplete(links: LinkMap, current: Option<int>, i: nat, source: Option<int>,
                                          starts: seq<Option<int>>, queue: seq<Visit>, visited: Visited)
    requires source in starts
    requires forall v :: v in queue ==> v.source in starts
    requires ClosedExcept(links, queue, visited, current, source)
    requires forall j :: 0 <= j < i && j < |Neighbors(links, current)| && Neighbors(links, current)[j].toStepNo.Some?
               ==> source in SourcesOf(visited, Neighbors(links, current)[j].toStepNo)
    requires Single(visited)
    ensures var r := Expand(links, current, i, source, starts, queue, visited);
            r.Scanned? ==> Closed(links, r.queue, r.visited) && Single(r.visited) && Grows(visited, r.visited)
    decreases |Neighbors(links, current)| - i
  {
    var ns := Neighbors(links, current);
    if i >= |ns| {
      assert Done(links, visited, current, source) by {
        forall m | Edge(links, current, m) ensures source in SourcesOf(visited, m) {
          var j :| 0 <= j < |ns| && Destinations(ns)[j] == m;
        }
      }
    } else {
      var neighbor := ns[i].toStepNo;
      if neighbor.None? || source in SourcesOf(visited, neighbor) {
        ExpandComplete(links, current, i + 1, source, starts, queue, visited);
      } else if SourcesOf(visited, neighbor) == [] {
        var visited' := visited[neighbor := [source]];
        assert SourcesOf(visited, neighbor) + [source] == [source];
        RecordClosed(links, queue, visited, current, source, neighbor);
        ExpandComplete(links, current, i + 1, source, starts, [Visit(neighbor, source)] + queue, visited');
      }
    }
  }

  /** Along a path, a fully closed record passes a source from the first node to the last. */
  lemma {:induction false} PathPropagates(links: LinkMap, visited: Visited, p: seq<Option<int>>, s: Option<int>)
    requires IsPath(links, p) && s in SourcesOf(visited, p[0])
    requires Closed(links, [], visited)
    ensures s in SourcesOf(visited, p[|p| - 1])
    decreases |p|
  {
    if |p| > 1 {
      var init := p[..|p| - 1];
      assert IsPath(links, init) by {
        forall i | 0 <= i < |init| - 1 ensures Edge(links, init[i], init[i + 1]) {
          assert init[i] == p[i] && init[i + 1] == p[i + 1];
        }
      }
      PathPropagates(links, visited, init, s);
      assert Edge(links, p[|p| - 2], p[|p| - 1]);
    }
  }

  lemma NoSharing(links: LinkMap, starts: seq<Option<int>>, visited: Visited)
    requires Closed(links, [], visited) && Single(visited)
    requires forall s :: s in starts ==> s in SourcesOf(visited, s)
    ensures forall n :: !SharedBy(links, starts, n)
  {
    forall n | SharedBy(links, starts, n) ensures false {
      var s1, s2 :| s1 in starts && s2 in starts && s1 != s2 && Reaches(links, s1, n) && Reaches(links, s2, n);
      var p1 :| IsPath(links, p1) && p1[0] == s1 && p1[|p1| - 1] == n;
      var p2 :| IsPath(links, p2) && p2[0] == s2 && p2[|p2| - 1] == n;
      PathPropagates(links, visited, p1, s1);
      PathPropagates(links, visited, p2, s2);
    }
  }

  lemma {:induction false} SearchComplete(links: LinkMap, starts: seq<Option<int>>, queue: seq<Visit>, visited: Visited)
    requires forall v :: v in queue ==> v.source in starts
    requires Closed(links, queue, visited) && Single(visited)
    requires forall s :: s in starts ==> s in SourcesOf(visited, s)
    ensures Search(links, starts, queue, visited).Exhausted? ==> forall n :: !SharedBy(links, starts, n)
    decreases Pending(links, starts, visited), |queue|
  {
    if |queue| == 0 {
      NoSharing(links, starts, visited);
    } else {
      var first := queue[0];
      assert first in queue;
      assert ClosedExcept(links, queue[1..], visited, first.current, first.source) by {
        forall n, s | s in SourcesOf(visited, n) && (n != first.current || s != first.source)
          ensures Visit(n, s) in queue[1..] || Done(links, visited, n, s)
        {
          if Visit(n, s) in queue {
            var k :| 0 <= k < |queue| && queue[k] == Visit(n, s);
            assert k != 0;
            assert queue[1..][k - 1] == Visit(n, s);
          }
        }
      }
      ExpandComplete(links, first.current, 0, first.source, starts, queue[1..], visited);
      match Expand(links, first.current, 0, first.source, starts, queue[1..], visited)
      case Meeting(n) =>
      case Scanned(q, v) => SearchComplete(links, starts, q, v);
    }
  }

  /** FindFirstJoinPoint reports no join only when no node is reachable from two different start nodes. */
  lemma FirstJoinComplete(starts: seq<Option<int>>, steps: StepMap, links: LinkMap)
    ensures FirstJoin(starts, steps, links).NoJoin? ==> forall n :: !SharedBy(links, starts, n)
  {
    var visited := Seed(starts).0;
    var queue := Seed(starts).1;
    assert Closed(links, queue, visited) by {
      forall n, s | s in SourcesOf(visited, n) ensures Visit(n, s) in queue {
        SeedRecord(starts, n, s);
      }
    }
    assert Single(visited) by {
      forall n, s1, s2 | s1 in SourcesOf(visited, n) && s2 in SourcesOf(visited, n) ensures s1 == s2 {
        SeedRecord(starts, n, s1);
        SeedRecord(starts, n, s2);
      }
    }
    forall s | s in starts ensures s in SourcesOf(visited, s) {
      SeedStart(starts, s);
    }
    SearchComplete(links, starts, queue, visited);
  }

  /** FindFirstJoinPoint finds a join point if and only if two start nodes share a descendant. */
  lemma FirstJoinExactly(starts: seq<Option<int>>, steps: StepMap, links: LinkMap)
    ensures FirstJoin(starts, steps, links).NoJoin? <==> forall n :: !SharedBy(links, starts, n)
  {
    FirstJoinSound(starts, steps, links);
    FirstJoinComplete(starts, steps, links);
  }

  /** A single branch (or several copies of one destination) never has a join point. */
  lemma SingleStartNoJoin(starts: seq<Option<int>>, steps: StepMap, links: LinkMap)
    requires forall i, j :: 0 <= i < |starts| && 0 <= j < |starts| ==> starts[i] == starts[j]
    ensures FirstJoin(starts, steps, links) == NoJoin
  {
    FirstJoinSound(starts, steps, links);
  }
}
