/** find_cycles of analyzer.py: a depth-first search that reports the stack segment closed by each edge
    back into the stack. */
module CycleFinder {

  type Graph<N> = map<N, set<N>>

  /** edges.get(node, ()) */
  function Dests<N>(g: Graph<N>, n: N): set<N> {
    if n in g then g[n] else {}
  }

  predicate IsStep<N>(g: Graph<N>, c: seq<N>, k: nat) {
    k + 1 < |c| ==> c[k + 1] in Dests(g, c[k])
  }

  /** A closed walk along real edges. */
  ghost predicate IsClosedWalk<N>(g: Graph<N>, c: seq<N>) {
    |c| >= 2 && c[0] == c[|c| - 1] && forall k :: IsStep(g, c, k)
  }

  ghost predicate NoRepeats<T>(s: seq<T>) {
    forall i, j :: 0 <= i < j < |s| ==> s[i] != s[j]
  }

  function Front<N>(c: seq<N>): seq<N> {
    if c == [] then [] else c[..|c| - 1]
  }

  /** A closed walk that meets no node twice before it closes. */
  ghost predicate IsSimpleCycle<N>(g: Graph<N>, c: seq<N>) {
    IsClosedWalk(g, c) && NoRepeats(Front(c))
  }

  /** `d` goes round the cycle `c`, entering it at its node number `r`. */
  predicate RotatedBy<N(==)>(c: seq<N>, d: seq<N>, r: nat) {
    |c| == |d| >= 2 && r < |c| - 1 && Front(d) == c[r..|c| - 1] + c[..r]
  }

  /** Every way round a closed walk is a rotation of it. */
  lemma RotationIs<N>(c: seq<N>, r: nat)
    requires |c| >= 2 && c[0] == c[|c| - 1] && r < |c| - 1
    ensures RotatedBy(c, c[r..|c| - 1] + c[..r] + [c[r]], r)
  {}

  /** The edge that closes a reported cycle. */
  function Closing<N>(c: seq<N>): (N, N)
    requires |c| >= 2
  {
    (c[|c| - 2], c[|c| - 1])
  }

  ghost predicate HasEdge<N>(c: seq<N>, e: (N, N)) {
    exists k :: 0 <= k < |c| - 1 && e == (c[k], c[k + 1])
  }

  // ---- What the search knows ----

  /** The variables of find_cycles, and history: the edges the search descended along, the back edges it
      met, and the finished nodes in finishing order. */
  datatype Search<N(==)> = Search(
    g: Graph<N>, cycles: seq<seq<N>>, visiting: set<N>, visited: set<N>, stack: seq<N>,
    tree: set<(N, N)>, closings: seq<(N, N)>, order: seq<N>)

  function Members<T>(s: seq<T>): set<T> {
    set x | x in s
  }

  predicate InTree<N(==)>(tree: set<(N, N)>, s: seq<N>, i: nat) {
    i + 1 < |s| ==> (s[i], s[i + 1]) in tree
  }

  /** A reported cycle runs along tree edges and closes with an edge that is none. */
  ghost predicate CycleOk<N>(s: Search<N>, i: nat) {
    i < |s.cycles| && i < |s.closings| ==>
      var c := s.cycles[i];
      && IsSimpleCycle(s.g, c) && s.closings[i] == Closing(c)
      && s.closings[i] !in s.tree && s.closings[i].0 in s.visiting + s.visited
      && forall k :: InTree(s.tree, Front(c), k)
  }

  /** Every edge out of a finished node goes to a node finished earlier, unless it is a back edge. */
  ghost predicate Settled<N>(s: Search<N>, i: nat) {
    i < |s.order| ==> forall v :: v in Dests(s.g, s.order[i]) ==> v in s.order[..i] || (s.order[i], v) in s.closings
  }

  predicate TreeEdgeOk<N(==)>(s: Search<N>, e: (N, N)) {
    e in s.tree ==> e.1 in Dests(s.g, e.0) && e.0 in s.visiting + s.visited && e.1 in s.visiting + s.visited
  }

  ghost predicate Ok<N(!new)>(s: Search<N>) {
    && s.visiting == Members(s.stack) && s.visited == Members(s.order) && s.visiting !! s.visited
    && NoRepeats(s.stack) && NoRepeats(s.closings) && |s.closings| == |s.cycles|
    && (forall i :: InTree(s.tree, s.stack, i))
    && (forall e :: TreeEdgeOk(s, e))
    && (forall i :: CycleOk(s, i))
    && (forall i :: Settled(s, i))
  }

  // ---- Its steps ----

  function Entry<N>(s: Search<N>, node: N): set<(N, N)> {
    if s.stack == [] then {} else {(s.stack[|s.stack| - 1], node)}
  }

  /** The search may go down to `node`. */
  predicate CanStart<N(==)>(s: Search<N>, node: N) {
    && node !in s.visiting && node !in s.visited
    && (s.stack != [] ==> node in Dests(s.g, s.stack[|s.stack| - 1]) && (s.stack[|s.stack| - 1], node) !in s.closings)
  }

  function Started<N>(s: Search<N>, node: N): Search<N> {
    s.(visiting := s.visiting + {node}, stack := s.stack + [node], tree := s.tree + Entry(s, node))
  }

  /** Top of the stack, with a new edge back to place `from` of it. */
  predicate CanReport<N(==)>(s: Search<N>, from: nat) {
    && from < |s.stack|
    && var e := (s.stack[|s.stack| - 1], s.stack[from]);
       e.1 in Dests(s.g, e.0) && e !in s.tree && e !in s.closings
  }

  function Segment<N>(s: Search<N>, from: nat): seq<N>
    requires from < |s.stack|
  {
    s.stack[from..] + [s.stack[from]]
  }

  function Reported<N>(s: Search<N>, from: nat): Search<N>
    requires from < |s.stack|
  {
    s.(cycles := s.cycles + [Segment(s, from)], closings := s.closings + [(s.stack[|s.stack| - 1], s.stack[from])])
  }

  ghost predicate CanFinish<N>(s: Search<N>) {
    s.stack != [] &&
    var node := s.stack[|s.stack| - 1];
    forall v :: v in Dests(s.g, node) ==> v in s.visited || (node, v) in s.closings
  }

  function Ended<N>(s: Search<N>): Search<N>
    requires s.stack != []
  {
    var node := s.stack[|s.stack| - 1];
    s.(visiting := s.visiting - {node}, visited := s.visited + {node}, stack := Front(s.stack), order := s.order + [node])
  }

  lemma StartKeeps<N(!new)>(s: Search<N>, node: N)
    requires Ok(s) && CanStart(s, node)
    ensures Ok(Started(s, node))
  {
    var s' := Started(s, node);
    assert s.stack != [] ==> s.stack[|s.stack| - 1] in s.visiting;
    assert node !in s.stack;
    forall i: nat ensures InTree(s'.tree, s'.stack, i) { assert InTree(s.tree, s.stack, i); }
    forall e ensures TreeEdgeOk(s', e) { assert TreeEdgeOk(s, e); }
    forall i: nat ensures Settled(s', i) { assert Settled(s, i); }
    forall i: nat ensures CycleOk(s', i) {
      assert CycleOk(s, i);
      if i < |s.cycles| { MoreTree(s.tree, s'.tree, Front(s.cycles[i])); }
    }
  }

  lemma MoreTree<N(!new)>(tree: set<(N, N)>, tree': set<(N, N)>, c: seq<N>)
    requires tree <= tree' && forall k :: InTree(tree, c, k)
    ensures forall k :: InTree(tree', c, k)
  {
    forall k: nat ensures InTree(tree', c, k) { assert InTree(tree, c, k); }
  }

  lemma SegmentIsCycle<N(!new)>(s: Search<N>, from: nat)
    requires Ok(s) && CanReport(s, from)
    ensures IsSimpleCycle(s.g, Segment(s, from)) && forall k :: InTree(s.tree, Front(Segment(s, from)), k)
  {
    var c := Segment(s, from);
    assert Front(c) == s.stack[from..];
    forall k: nat ensures IsStep(s.g, c, k) && InTree(s.tree, Front(c), k) {
      assert InTree(s.tree, s.stack, from + k);
      if k + 1 < |Front(c)| { assert TreeEdgeOk(s, (c[k], c[k + 1])); }
    }
  }

  /** A back edge not met before closes a cycle not reported before: the test in the code never fails. */
  lemma SegmentIsNew<N(!new)>(s: Search<N>, from: nat)
    requires Ok(s) && CanReport(s, from)
    ensures Segment(s, from) !in s.cycles
  {
    var c := Segment(s, from);
    forall i | 0 <= i < |s.cycles| ensures s.cycles[i] != c {
      assert CycleOk(s, i);
      assert Closing(c) == (s.stack[|s.stack| - 1], s.stack[from]);
    }
  }

  lemma ReportKeeps<N(!new)>(s: Search<N>, from: nat)
    requires Ok(s) && CanReport(s, from)
    ensures Ok(Reported(s, from))
  {
    var s' := Reported(s, from);
    SegmentIsCycle(s, from);
    assert s.stack[|s.stack| - 1] in s.visiting;
    forall e ensures TreeEdgeOk(s', e) { assert TreeEdgeOk(s, e); }
    forall i: nat ensures Settled(s', i) { assert Settled(s, i); }
    forall i: nat ensures CycleOk(s', i) { assert CycleOk(s, i); }
  }

  lemma EndKeeps<N(!new)>(s: Search<N>)
    requires Ok(s) && CanFinish(s)
    ensures Ok(Ended(s))
  {
    var s' := Ended(s);
    var node := s.stack[|s.stack| - 1];
    assert s.stack == s'.stack + [node] && node in s.visiting;
    assert s'.visiting + s'.visited == s.visiting + s.visited;
    forall i: nat ensures InTree(s'.tree, s'.stack, i) { assert InTree(s.tree, s.stack, i); }
    forall e ensures TreeEdgeOk(s', e) { assert TreeEdgeOk(s, e); }
    forall i: nat ensures CycleOk(s', i) { assert CycleOk(s, i); }
    forall i: nat ensures Settled(s', i) {
      assert Settled(s, i);
      if i < |s.order| { assert s'.order[..i] == s.order[..i]; } else if i == |s.order| { assert s'.order[..i] == s.order; }
    }
  }

  // ---- What one visit adds ----

  /** From `a` to `b` the search has used only edges out of nodes not started in `a`, and those in `entry`. */
  ghost predicate OnlyNew<N>(a: Search<N>, b: Search<N>, entry: set<(N, N)>) {
    && b.g == a.g && a.visited <= b.visited && a.closings <= b.closings && a.tree <= b.tree
    && (forall i :: |a.closings| <= i < |b.closings| ==> b.closings[i].0 !in a.visiting + a.visited || b.closings[i] in entry)
    && (forall e :: e in b.tree && e !in a.tree ==> e.0 !in a.visiting + a.visited || e in entry)
  }

  ghost predicate Visited<N>(a: Search<N>, b: Search<N>, node: N) {
    OnlyNew(a, b, Entry(a, node)) && b.stack == a.stack && b.visiting == a.visiting && node in b.visited
  }

  /** In the middle of the visit of `node`, the edges to `seen` done: these lead to finished nodes or were
      reported, and no other edge out of `node` has been used. */
  ghost predicate Amid<N>(a: Search<N>, b: Search<N>, node: N, seen: set<N>) {
    && OnlyNew(a, b, Entry(a, node)) && b.stack == a.stack + [node] && b.visiting == a.visiting + {node}
    && (forall e :: e in b.tree && e.0 == node ==> e.1 in seen)
    && (forall i :: 0 <= i < |b.closings| && b.closings[i].0 == node ==> b.closings[i].1 in seen)
    && (forall v :: v in seen ==> v in b.visited || (node, v) in b.closings)
  }

  lemma AmidStart<N(!new)>(a: Search<N>, node: N)
    requires Ok(a) && CanStart(a, node)
    ensures Amid(a, Started(a, node), node, {})
  {
    var b := Started(a, node);
    assert a.stack != [] ==> a.stack[|a.stack| - 1] in a.visiting;
    forall e | e in b.tree ensures e.0 != node { assert TreeEdgeOk(a, e); }
    forall i | 0 <= i < |b.closings| ensures b.closings[i].0 != node { assert CycleOk(a, i); }
  }

  lemma AmidReport<N(!new)>(a: Search<N>, b: Search<N>, node: N, seen: set<N>, dest: N, from: nat)
    requires Ok(b) && Amid(a, b, node, seen) && node !in a.visiting + a.visited
    requires from < |b.stack| && b.stack[from] == dest && dest !in seen && dest in Dests(b.g, node)
    ensures CanReport(b, from) && Amid(a, Reported(b, from), node, seen + {dest})
  {}

  lemma AmidDown<N(!new)>(a: Search<N>, b: Search<N>, node: N, seen: set<N>, dest: N)
    requires Ok(b) && Amid(a, b, node, seen)
    requires dest !in b.visiting && dest !in b.visited && dest !in seen && dest in Dests(b.g, node)
    ensures CanStart(b, dest)
  {}

  lemma AmidUp<N(!new)>(a: Search<N>, b: Search<N>, c: Search<N>, node: N, seen: set<N>, dest: N)
    requires Amid(a, b, node, seen) && Visited(b, c, dest) && node !in a.visiting + a.visited
    ensures Amid(a, c, node, seen + {dest})
  {}

  lemma AmidSkip<N(!new)>(a: Search<N>, b: Search<N>, node: N, seen: set<N>, dest: N)
    requires Amid(a, b, node, seen) && dest in b.visited
    ensures Amid(a, b, node, seen + {dest})
  {}

  lemma AmidEnd<N(!new)>(a: Search<N>, b: Search<N>, node: N)
    requires Amid(a, b, node, Dests(b.g, node)) && node !in a.visiting + a.visited
    ensures CanFinish(b) && Visited(a, Ended(b), node)
  {}

  // ---- The function ----

  type Sound<N(!new, ==)> = s: Search<N> | Ok(s) ghost witness Search(map[], [], {}, {}, [], {}, [], [])

  class Finder<N(!new, ==)> {
    const edges: Graph<N>
    var cycles: seq<seq<N>>
    var visiting: set<N>
    var visited: set<N>
    var stack: seq<N>
    ghost var search: Sound<N>

    ghost predicate Valid()
      reads this
    {
      search == Search(edges, cycles, visiting, visited, stack, search.tree, search.closings, search.order)
    }

    constructor (edges: Graph<N>)
      ensures Valid() && this.edges == edges && search == Search(edges, [], {}, {}, [], {}, [], [])
    {
      this.edges := edges;
      cycles, visiting, visited, stack := [], {}, {}, [];
      search := Search(edges, [], {}, {}, [], {}, [], []);
    }

    /** visit. `room` holds the nodes not started yet. */
    method Visit(node: N, ghost room: set<N>)
      requires Valid() && CanStart(search, node) && node in room && HasRoom(search, room)
      modifies this
      ensures Valid() && Visited(old(search), search, node)
      decreases room, 2
    {
      ghost var first := search;
      visiting := visiting + {node};
      stack := stack + [node];
      VisitStarts(first, node, room);
      search := Started(first, node);
      FollowAll(node, room - {node}, first);
      FinishTop(node, first);
    }

    method FinishTop(node: N, ghost first: Search<N>)
      requires Valid() && Amid(first, search, node, Dests(edges, node)) && node !in first.visiting + first.visited
      modifies this
      ensures Valid() && Visited(first, search, node)
    {
      AmidEnd(first, search, node);
      EndKeeps(search);
      search := Ended(search);
      stack := stack[..|stack| - 1];
      visiting := visiting - {node};
      visited := visited + {node};
    }

    /** The loop of visit over the edges out of `node`. */
    method FollowAll(node: N, ghost room: set<N>, ghost first: Search<N>)
      requires Valid() && Amid(first, search, node, {}) && node !in first.visiting + first.visited && HasRoom(search, room)
      modifies this
      ensures Valid() && Amid(first, search, node, Dests(edges, node))
      decreases room, 4
    {
      var todo := Dests(edges, node);
      ghost var seen := {};
      while todo != {}
        invariant Valid() && Amid(first, search, node, seen) && HasRoom(search, room)
        invariant seen !! todo && seen + todo == Dests(edges, node)
        decreases todo
      {
        var dest :| dest in todo;
        Follow(node, dest, seen, room, first);
        todo, seen := todo - {dest}, seen + {dest};
      }
      assert seen == Dests(edges, node);
    }

    /** One edge out of the node on top of the stack. */
    method Follow(node: N, dest: N, ghost seen: set<N>, ghost room: set<N>, ghost first: Search<N>)
      requires Valid() && Amid(first, search, node, seen) && node !in first.visiting + first.visited
      requires HasRoom(search, room) && dest in Dests(edges, node) && dest !in seen
      modifies this
      ensures Valid() && Amid(first, search, node, seen + {dest}) && HasRoom(search, room)
      decreases room, 3
    {
      ghost var before := search;
      if dest in visiting {
        var from := IndexOf(stack, dest);
        var cycle := stack[from..] + [dest];
        AmidReport(first, before, node, seen, dest, from);
        SegmentIsNew(before, from);
        ReportKeeps(before, from);
        search := Reported(before, from);
        if cycle !in cycles {
          cycles := cycles + [cycle];
        }
      } else if dest !in visited {
        AmidDown(first, before, node, seen, dest);
        Visit(dest, room);
        AmidUp(first, before, search, node, seen, dest);
      } else {
        AmidSkip(first, before, node, seen, dest);
      }
    }
  }

  lemma VisitStarts<N(!new)>(s: Search<N>, node: N, room: set<N>)
    requires Ok(s) && CanStart(s, node) && HasRoom(s, room)
    ensures Ok(Started(s, node)) && Amid(s, Started(s, node), node, {}) && HasRoom(Started(s, node), room - {node})
  {
    StartKeeps(s, node);
    AmidStart(s, node);
  }

  /** Every node an edge leads to has been started or is in `room`. */
  ghost predicate HasRoom<N>(s: Search<N>, room: set<N>) {
    forall u, v :: u in s.g && v in s.g[u] ==> v in room || v in s.visiting || v in s.visited
  }

  method IndexOf<N(==)>(s: seq<N>, x: N) returns (i: nat)
    requires x in s
    ensures i < |s| && s[i] == x
  {
    i := 0;
    while s[i] != x
      invariant i < |s| && x !in s[..i]
      decreases |s| - i
    {
      i := i + 1;
    }
  }

  // ---- What the finished search has found ----

  /** The walk passes the edge that closes some reported cycle. */
  ghost predicate MeetsReport<N>(cycles: seq<seq<N>>, c: seq<N>) {
    exists i :: 0 <= i < |cycles| && |cycles[i]| >= 2 && HasEdge(c, Closing(cycles[i]))
  }

  ghost predicate AllDone<N(!new)>(s: Search<N>) {
    Ok(s) && s.g.Keys <= s.visited
  }

  lemma FirstIndex<N>(s: seq<N>, x: N) returns (i: nat)
    requires x in s
    ensures i < |s| && s[i] == x && x !in s[..i]
  {
    i := 0;
    while s[i] != x
      invariant i < |s| && x !in s[..i]
      decreases |s| - i
    {
      i := i + 1;
    }
  }

  /** Along edges that are not back edges the finishing order goes down. */
  lemma {:induction false} WalkDescends<N(!new)>(s: Search<N>, c: seq<N>, k: nat, j: nat) returns (j': nat)
    requires AllDone(s) && IsClosedWalk(s.g, c) && k < |c| && j < |s.order| && s.order[j] == c[k]
    requires forall k :: 0 <= k < |c| - 1 ==> (c[k], c[k + 1]) !in s.closings
    ensures j' <= j && s.order[j'] == c[|c| - 1] && (k < |c| - 1 ==> c[|c| - 1] in s.order[..j])
    decreases |c| - k
  {
    if k == |c| - 1 {
      j' := j;
    } else {
      assert IsStep(s.g, c, k) && Settled(s, j);
      assert c[k + 1] in s.order[..j];
      var i :| 0 <= i < j && s.order[i] == c[k + 1];
      j' := WalkDescends(s, c, k + 1, i);
      assert s.order[j'] in s.order[..j];
    }
  }

  /** Every closed walk of the graph passes a back edge. */
  lemma WalkMeetsReport<N(!new)>(s: Search<N>, c: seq<N>)
    requires AllDone(s) && IsClosedWalk(s.g, c)
    ensures MeetsReport(s.cycles, c)
  {
    if k :| 0 <= k < |c| - 1 && (c[k], c[k + 1]) in s.closings {
      var i :| 0 <= i < |s.closings| && s.closings[i] == (c[k], c[k + 1]);
      assert CycleOk(s, i) && HasEdge(c, Closing(s.cycles[i]));
    } else {
      assert IsStep(s.g, c, 0);
      assert c[0] in s.visited;
      var j := FirstIndex(s.order, c[0]);
      var j' := WalkDescends(s, c, 0, j);
      assert false;
    }
  }

  /** Two reported cycles close with different edges, and neither passes the other's: they are neither
      equal nor rotations of each other. */
  lemma NoRotations<N(!new)>(s: Search<N>, i: nat, j: nat, r: nat)
    requires Ok(s) && i < j < |s.cycles|
    ensures !RotatedBy(s.cycles[i], s.cycles[j], r)
  {
    var c, d := s.cycles[i], s.cycles[j];
    assert CycleOk(s, i) && CycleOk(s, j);
    if r + 2 <= |c| { assert InTree(s.tree, Front(d), |c| - 2 - r); }
    if RotatedBy(c, d, r) {
      RotatedHasClosing(c, d, r);
      assert false;
    }
  }

  lemma RotatedHasClosing<N>(c: seq<N>, d: seq<N>, r: nat)
    requires RotatedBy(c, d, r) && c[0] == c[|c| - 1] && d[0] == d[|d| - 1]
    ensures (d[|c| - 2 - r], d[|c| - 1 - r]) == Closing(c)
  {}

  method FindCycles<N(!new, ==)>(edges: Graph<N>) returns (cycles: seq<seq<N>>)
    ensures forall c :: c in cycles ==> IsSimpleCycle(edges, c)
    ensures forall c :: IsClosedWalk(edges, c) ==> MeetsReport(cycles, c)
    ensures cycles != [] <==> exists c :: IsClosedWalk(edges, c)
    ensures forall i, j, r: nat :: 0 <= i < j < |cycles| ==> !RotatedBy(cycles[i], cycles[j], r)
  {
    var finder := new Finder<N>(edges);
    var todo := edges.Keys;
    ghost var room := edges.Keys + set u, v | u in edges && v in edges[u] :: v;
    while todo != {}
      invariant finder.Valid() && finder.edges == edges && finder.stack == [] && todo <= edges.Keys
      invariant edges.Keys - todo <= finder.visited && HasRoom(finder.search, room)
      decreases todo
    {
      var n :| n in todo;
      if n !in finder.visited {
        finder.Visit(n, room);
      }
      todo := todo - {n};
    }
    cycles := finder.cycles;
    Outcome(finder.search);
  }

  lemma Outcome<N(!new)>(s: Search<N>)
    requires AllDone(s)
    ensures forall c :: c in s.cycles ==> IsSimpleCycle(s.g, c)
    ensures forall c :: IsClosedWalk(s.g, c) ==> MeetsReport(s.cycles, c)
    ensures s.cycles != [] <==> exists c :: IsClosedWalk(s.g, c)
    ensures forall i, j, r: nat :: 0 <= i < j < |s.cycles| ==> !RotatedBy(s.cycles[i], s.cycles[j], r)
  {
    forall c | IsClosedWalk(s.g, c) ensures MeetsReport(s.cycles, c) { WalkMeetsReport(s, c); }
    forall i | 0 <= i < |s.cycles| ensures IsSimpleCycle(s.g, s.cycles[i]) { assert CycleOk(s, i); }
    forall i, j, r: nat | 0 <= i < j < |s.cycles| ensures !RotatedBy(s.cycles[i], s.cycles[j], r) { NoRotations(s, i, j, r); }
    if s.cycles != [] { assert IsClosedWalk(s.g, s.cycles[0]); }
  }
}
