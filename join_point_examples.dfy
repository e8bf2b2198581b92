/** The three searches of the join-point test, traced step by step over the model. */
module JoinPointExamples {
  import opened Wrappers
  import opened Workflow
  import opened JoinPoint

  function E(a: int, b: int): Link { Link(a, Some(b), None) }
  function TestLinks(): LinkMap {
    map[1 := [E(1, 2), E(1, 3), E(1, 4)], 2 := [E(2, 10)], 3 := [E(3, 5)], 4 := [E(4, 6)],
        5 := [E(5, 10)], 6 := [E(6, 9)], 7 := [E(7, 8)], 8 := [E(8, 9)], 9 := [E(9, 10)]]
  }
  function TestSteps(): StepMap {
    map n | 1 <= n <= 10 :: Step(0, n, "", map[])
  }
  function V(n: int, s: int): Visit { Visit(Some(n), Some(s)) }

  lemma SeedSnoc(init: seq<Option<int>>, x: Option<int>)
    ensures Seed(init + [x]) == (Seed(init).0[x := SourcesOf(Seed(init).0, x) + [x]], Seed(init).1 + [Visit(x, x)])
  {
    assert (init + [x])[..|init|] == init;
  }

  lemma SeedOne(x: Option<int>)
    ensures Seed([x]) == (map[x := [x]], [Visit(x, x)])
  {
    var empty: seq<Option<int>> := [];
    var none: Visited := map[];
    var noVisits: seq<Visit> := [];
    assert [x][..0] == empty;
    assert Seed(empty) == (none, noVisits);
    assert SourcesOf(none, x) + [x] == [x];
    assert noVisits + [Visit(x, x)] == [Visit(x, x)];
    assert none[x := [x]] == map[x := [x]];
  }

  /** Adding a start that is not yet recorded. */
  lemma SeedFresh(init: seq<Option<int>>, x: Option<int>, visited: Visited, queue: seq<Visit>)
    requires Seed(init) == (visited, queue) && x !in visited
    ensures Seed(init + [x]) == (visited[x := [x]], queue + [Visit(x, x)])
  {
    SeedSnoc(init, x);
    assert SourcesOf(visited, x) + [x] == [x];
  }

  lemma Ex1Seed()
    ensures Seed([Some(2), Some(3), Some(4)])
         == (map[Some(2) := [Some(2)], Some(3) := [Some(3)], Some(4) := [Some(4)]], [V(2, 2), V(3, 3), V(4, 4)])
  {
    SeedOne(Some(2));
    SeedFresh([Some(2)], Some(3), map[Some(2) := [Some(2)]], [V(2, 2)]);
    assert [Some(2)] + [Some(3)] == [Some(2), Some(3)];
    assert [V(2, 2)] + [V(3, 3)] == [V(2, 2), V(3, 3)];
    assert map[Some(2) := [Some(2)]][Some(3) := [Some(3)]] == map[Some(2) := [Some(2)], Some(3) := [Some(3)]];
    SeedFresh([Some(2), Some(3)], Some(4), map[Some(2) := [Some(2)], Some(3) := [Some(3)]], [V(2, 2), V(3, 3)]);
    assert [Some(2), Some(3)] + [Some(4)] == [Some(2), Some(3), Some(4)];
    assert [V(2, 2), V(3, 3)] + [V(4, 4)] == [V(2, 2), V(3, 3), V(4, 4)];
  }

  /** Expanding a node with one link to a node not yet reached. */
  lemma ExpandOneFresh(links: LinkMap, current: int, next: int, source: Option<int>, starts: seq<Option<int>>,
                       queue: seq<Visit>, visited: Visited)
    requires current in links && links[current] == [E(current, next)]
    requires Some(next) !in visited
    requires source in starts && forall v :: v in queue ==> v.source in starts
    ensures Expand(links, Some(current), 0, source, starts, queue, visited)
         == Scanned([Visit(Some(next), source)] + queue, visited[Some(next) := [source]])
  {
    assert SourcesOf(visited, Some(next)) + [source] == [source];
  }

  lemma SearchScanned(links: LinkMap, starts: seq<Option<int>>, queue: seq<Visit>, visited: Visited, q: seq<Visit>, v: Visited)
    requires |queue| > 0 && forall w :: w in queue ==> w.source in starts
    requires Expand(links, queue[0].current, 0, queue[0].source, starts, queue[1..], visited) == Scanned(q, v)
    ensures forall w :: w in q ==> w.source in starts
    ensures Search(links, starts, queue, visited) == Search(links, starts, q, v)
  {
    assert queue[0] in queue;
    assert forall w :: w in queue[1..] ==> w in queue;
  }

  lemma SearchMeeting(links: LinkMap, starts: seq<Option<int>>, queue: seq<Visit>, visited: Visited, n: int)
    requires |queue| > 0 && forall w :: w in queue ==> w.source in starts
    requires Expand(links, queue[0].current, 0, queue[0].source, starts, queue[1..], visited) == Meeting(n)
    ensures Search(links, starts, queue, visited) == Met(n)
  {
  }

  lemma ExpandAbsent(links: LinkMap, current: int, source: Option<int>, starts: seq<Option<int>>,
                     queue: seq<Visit>, visited: Visited)
    requires current !in links
    requires source in starts && forall v :: v in queue ==> v.source in starts
    ensures Expand(links, Some(current), 0, source, starts, queue, visited) == Scanned(queue, visited)
  {
  }

  lemma ExpandOneMeeting(links: LinkMap, current: int, next: int, source: Option<int>, starts: seq<Option<int>>,
                         queue: seq<Visit>, visited: Visited)
    requires current in links && links[current] == [E(current, next)]
    requires Some(next) in visited && |visited[Some(next)]| > 0 && source !in visited[Some(next)]
    requires source in starts && forall v :: v in queue ==> v.source in starts
    ensures Expand(links, Some(current), 0, source, starts, queue, visited) == Meeting(next)
  {
  }

  lemma Ex1Search(links: LinkMap)
    requires 2 in links && links[2] == [E(2, 10)] && 3 in links && links[3] == [E(3, 5)]
    requires 5 in links && links[5] == [E(5, 10)] && 10 !in links
    ensures Search(links, [Some(2), Some(3), Some(4)], [V(2, 2), V(3, 3), V(4, 4)],
                   map[Some(2) := [Some(2)], Some(3) := [Some(3)], Some(4) := [Some(4)]]) == Met(10)
  {
    var starts := [Some(2), Some(3), Some(4)];
    var vis0 := map[Some(2) := [Some(2)], Some(3) := [Some(3)], Some(4) := [Some(4)]];
    var vis1 := vis0[Some(10) := [Some(2)]];
    var vis2 := vis1[Some(5) := [Some(3)]];
    var q0 := [V(2, 2), V(3, 3), V(4, 4)];
    ExpandOneFresh(links, 2, 10, Some(2), starts, q0[1..], vis0);
    var q1 := [V(10, 2), V(3, 3), V(4, 4)];
    assert [V(10, 2)] + q0[1..] == q1;
    SearchScanned(links, starts, q0, vis0, q1, vis1);
    var q2 := [V(3, 3), V(4, 4)];
    assert q1[1..] == q2;
    ExpandAbsent(links, 10, Some(2), starts, q2, vis1);
    SearchScanned(links, starts, q1, vis1, q2, vis1);
    var q3 := [V(5, 3), V(4, 4)];
    ExpandOneFresh(links, 3, 5, Some(3), starts, q2[1..], vis1);
    assert [V(5, 3)] + q2[1..] == q3;
    SearchScanned(links, starts, q2, vis1, q3, vis2);
    ExpandOneMeeting(links, 5, 10, Some(3), starts, q3[1..], vis2);
    SearchMeeting(links, starts, q3, vis2, 10);
  }

  lemma Ex1()
    ensures FirstJoin([Some(2), Some(3), Some(4)], TestSteps(), TestLinks()) == Joined(10, 10)
  {
    Ex1Seed();
    Ex1Search(TestLinks());
  }

  lemma Ex2Seed()
    ensures Seed([Some(6), Some(7)]) == (map[Some(6) := [Some(6)], Some(7) := [Some(7)]], [V(6, 6), V(7, 7)])
  {
    SeedOne(Some(6));
    SeedFresh([Some(6)], Some(7), map[Some(6) := [Some(6)]], [V(6, 6)]);
    assert [Some(6)] + [Some(7)] == [Some(6), Some(7)];
    assert [V(6, 6)] + [V(7, 7)] == [V(6, 6), V(7, 7)];
  }

  lemma Ex2Search(links: LinkMap)
    requires 6 in links && links[6] == [E(6, 9)] && 9 in links && links[9] == [E(9, 10)]
    requires 7 in links && links[7] == [E(7, 8)] && 8 in links && links[8] == [E(8, 9)] && 10 !in links
    ensures Search(links, [Some(6), Some(7)], [V(6, 6), V(7, 7)], map[Some(6) := [Some(6)], Some(7) := [Some(7)]]) == Met(9)
  {
    var starts := [Some(6), Some(7)];
    var vis0 := map[Some(6) := [Some(6)], Some(7) := [Some(7)]];
    var vis1 := vis0[Some(9) := [Some(6)]];
    var vis2 := vis1[Some(10) := [Some(6)]];
    var q0 := [V(6, 6), V(7, 7)];
    ExpandOneFresh(links, 6, 9, Some(6), starts, q0[1..], vis0);
    var q1 := [V(9, 6), V(7, 7)];
    assert [V(9, 6)] + q0[1..] == q1;
    SearchScanned(links, starts, q0, vis0, q1, vis1);
    ExpandOneFresh(links, 9, 10, Some(6), starts, q1[1..], vis1);
    var q2 := [V(10, 6), V(7, 7)];
    assert [V(10, 6)] + q1[1..] == q2;
    SearchScanned(links, starts, q1, vis1, q2, vis2);
    Ex2SearchTail(links);
  }

  /** The second half of the second search: 10 leads nowhere, 7 reaches 8, and 8 meets at 9. */
  lemma Ex2SearchTail(links: LinkMap)
    requires 7 in links && links[7] == [E(7, 8)] && 8 in links && links[8] == [E(8, 9)] && 10 !in links
    ensures Search(links, [Some(6), Some(7)], [V(10, 6), V(7, 7)],
                   map[Some(6) := [Some(6)], Some(7) := [Some(7)], Some(9) := [Some(6)], Some(10) := [Some(6)]]) == Met(9)
  {
    var starts := [Some(6), Some(7)];
    var vis2 := map[Some(6) := [Some(6)], Some(7) := [Some(7)], Some(9) := [Some(6)], Some(10) := [Some(6)]];
    var vis3 := vis2[Some(8) := [Some(7)]];
    var q2 := [V(10, 6), V(7, 7)];
    var q3 := [V(7, 7)];
    assert q2[1..] == q3;
    ExpandAbsent(links, 10, Some(6), starts, q3, vis2);
    SearchScanned(links, starts, q2, vis2, q3, vis2);
    ExpandOneFresh(links, 7, 8, Some(7), starts, q3[1..], vis2);
    var q4 := [V(8, 7)];
    assert [V(8, 7)] + q3[1..] == q4;
    SearchScanned(links, starts, q3, vis2, q4, vis3);
    ExpandOneMeeting(links, 8, 9, Some(7), starts, q4[1..], vis3);
    SearchMeeting(links, starts, q4, vis3, 9);
  }

  lemma Ex2()
    ensures FirstJoin([Some(6), Some(7)], TestSteps(), TestLinks()) == Joined(9, 9)
  {
    Ex2Seed();
    Ex2Search(TestLinks());
  }

  function PrunedLinks(): LinkMap {
    map[1 := [E(1, 2), E(1, 3), E(1, 4)], 3 := [E(3, 5)], 4 := [E(4, 6)], 6 := [E(6, 9)], 7 := [E(7, 8)], 8 := [E(8, 9)]]
  }

  lemma Ex3Search(links: LinkMap)
    requires 2 !in links && 3 in links && links[3] == [E(3, 5)] && 5 !in links
    requires 4 in links && links[4] == [E(4, 6)] && 6 in links && links[6] == [E(6, 9)] && 9 !in links
    ensures Search(links, [Some(2), Some(3), Some(4)], [V(2, 2), V(3, 3), V(4, 4)],
                   map[Some(2) := [Some(2)], Some(3) := [Some(3)], Some(4) := [Some(4)]]) == Exhausted
  {
    var starts := [Some(2), Some(3), Some(4)];
    var vis0 := map[Some(2) := [Some(2)], Some(3) := [Some(3)], Some(4) := [Some(4)]];
    var vis1 := vis0[Some(5) := [Some(3)]];
    var q0 := [V(2, 2), V(3, 3), V(4, 4)];
    var q1 := [V(3, 3), V(4, 4)];
    assert q0[1..] == q1;
    ExpandAbsent(links, 2, Some(2), starts, q1, vis0);
    SearchScanned(links, starts, q0, vis0, q1, vis0);
    ExpandOneFresh(links, 3, 5, Some(3), starts, q1[1..], vis0);
    var q2 := [V(5, 3), V(4, 4)];
    assert [V(5, 3)] + q1[1..] == q2;
    SearchScanned(links, starts, q1, vis0, q2, vis1);
    var q3 := [V(4, 4)];
    assert q2[1..] == q3;
    ExpandAbsent(links, 5, Some(3), starts, q3, vis1);
    SearchScanned(links, starts, q2, vis1, q3, vis1);
    Ex3SearchTail(links);
  }

  /** The second half of the third search: 4 reaches 6, 6 reaches 9, and 9 leads nowhere. */
  lemma Ex3SearchTail(links: LinkMap)
    requires 4 in links && links[4] == [E(4, 6)] && 6 in links && links[6] == [E(6, 9)] && 9 !in links
    ensures Search(links, [Some(2), Some(3), Some(4)], [V(4, 4)],
                   map[Some(2) := [Some(2)], Some(3) := [Some(3)], Some(4) := [Some(4)], Some(5) := [Some(3)]]) == Exhausted
  {
    var starts := [Some(2), Some(3), Some(4)];
    var vis1 := map[Some(2) := [Some(2)], Some(3) := [Some(3)], Some(4) := [Some(4)], Some(5) := [Some(3)]];
    var vis2 := vis1[Some(6) := [Some(4)]];
    var vis3 := vis2[Some(9) := [Some(4)]];
    var q3 := [V(4, 4)];
    ExpandOneFresh(links, 4, 6, Some(4), starts, q3[1..], vis1);
    var q4 := [V(6, 4)];
    assert [V(6, 4)] + q3[1..] == q4;
    SearchScanned(links, starts, q3, vis1, q4, vis2);
    ExpandOneFresh(links, 6, 9, Some(4), starts, q4[1..], vis2);
    var q5 := [V(9, 4)];
    assert [V(9, 4)] + q4[1..] == q5;
    SearchScanned(links, starts, q4, vis2, q5, vis3);
    var q6: seq<Visit> := [];
    assert q5[1..] == q6;
    ExpandAbsent(links, 9, Some(4), starts, q6, vis3);
    SearchScanned(links, starts, q5, vis3, q6, vis3);
  }

  lemma Ex3()
    ensures FirstJoin([Some(2), Some(3), Some(4)], map n | 1 <= n <= 9 :: Step(0, n, "", map[]), PrunedLinks()) == NoJoin
  {
    Ex1Seed();
    Ex3Search(PrunedLinks());
  }
}
