/** analyzer.py: the operation-level wait/record graph, and what a cycle in it means. */
module Dependencies {
  import opened Records
  import opened FlightEvents
  import opened Wrappers
  import opened CycleFinder

  datatype Node = Wait(rank: nat, stream: nat, seqno: nat) | Record(rank: nat, stream: nat, seqno: nat)

  predicate IsWait(e: Event) {
    e.body.call.kind == EVENT_WAIT
  }

  predicate IsRecord(e: Event) {
    e.body.call.kind == EVENT_RECORD
  }

  function WaitNode(rank: nat, e: Event): Node {
    Wait(rank, e.body.call.stream, e.seqno)
  }

  function RecordNode(rank: nat, e: Event): Node {
    Record(rank, e.body.call.stream, e.seqno)
  }

  /** The waits among `evs` on one stream, in file order. */
  function WaitsOn(evs: seq<Event>, st: nat): seq<Event> {
    if evs == [] then []
    else
      var e := evs[|evs| - 1];
      WaitsOn(evs[..|evs| - 1], st) + if IsWait(e) && e.body.call.stream == st then [e] else []
  }

  /** The last record of the event `corr`. */
  function LastRecord(evs: seq<Event>, corr: nat): Option<Event> {
    if evs == [] then None
    else
      var e := evs[|evs| - 1];
      if IsRecord(e) && e.body.call.corr == corr then Some(e) else LastRecord(evs[..|evs| - 1], corr)
  }

  // ---- The edges, declaratively ----

  /** Event `j` of the file records after the wait `w` on the same stream. */
  ghost predicate RecordAfter(rank: nat, evs: seq<Event>, j: nat, w: Event, a: Node, b: Node) {
    && j < |evs| && IsRecord(evs[j]) && w in WaitsOn(evs[..j], evs[j].body.call.stream)
    && a == RecordNode(rank, evs[j]) && b == WaitNode(rank, w)
  }

  ghost predicate RecordEdge(rank: nat, evs: seq<Event>, n: nat, a: Node, b: Node) {
    exists j: nat, w :: j < n && RecordAfter(rank, evs, j, w, a, b)
  }

  /** The record that the wait `w` is taken to wait for. */
  function ProducerOf(ranks: map<nat, seq<Event>>, w: Event): Option<Event> {
    if w.body.rank in ranks then LastRecord(ranks[w.body.rank], w.body.call.corr) else None
  }

  predicate WaitEdge(ranks: map<nat, seq<Event>>, w: Event, a: Node, b: Node) {
    && ProducerOf(ranks, w).Some?
    && a == WaitNode(w.body.rank, w) && b == RecordNode(w.body.rank, ProducerOf(ranks, w).value)
  }

  ghost predicate Observed(ranks: map<nat, seq<Event>>, w: Event) {
    IsWait(w) && exists r :: r in ranks && w in ranks[r]
  }

  ghost predicate SomeRecordEdge(ranks: map<nat, seq<Event>>, a: Node, b: Node) {
    exists r :: r in ranks && RecordEdge(r, ranks[r], |ranks[r]|, a, b)
  }

  ghost predicate SomeWaitEdge(ranks: map<nat, seq<Event>>, a: Node, b: Node) {
    exists w :: Observed(ranks, w) && WaitEdge(ranks, w, a, b)
  }

  ghost predicate IsEdge(ranks: map<nat, seq<Event>>, a: Node, b: Node) {
    SomeRecordEdge(ranks, a, b) || SomeWaitEdge(ranks, a, b)
  }

  // ---- Building them ----

  predicate Joined<N(==)>(g: Graph<N>, a: N, b: N) {
    b in Dests(g, a)
  }

  /** edges[a].add(b) */
  function AddEdge<N(!new)>(g: Graph<N>, a: N, b: N): (g': Graph<N>)
    ensures forall x, y :: Joined(g', x, y) <==> Joined(g, x, y) || (x == a && y == b)
  {
    g[a := Dests(g, a) + {b}]
  }

  lemma {:induction false} WaitsOnMembers(evs: seq<Event>, st: nat)
    ensures forall w :: w in WaitsOn(evs, st) ==> w in evs && IsWait(w) && w.body.call.stream == st
    ensures forall w :: w in evs && IsWait(w) && w.body.call.stream == st ==> w in WaitsOn(evs, st)
  {
    if evs != [] {
      WaitsOnMembers(evs[..|evs| - 1], st);
      assert evs == evs[..|evs| - 1] + [evs[|evs| - 1]];
    }
  }

  /** A missing list of the defaultdict is empty. */
  function Prior(prior: map<nat, seq<Event>>, st: nat): seq<Event> {
    if st in prior then prior[st] else []
  }

  /** The record edges of one rank. */
  method AddRecordEdges(rank: nat, evs: seq<Event>, g: Graph<Node>) returns (edges: Graph<Node>)
    ensures forall a, b :: Joined(edges, a, b) ==> Joined(g, a, b) || RecordEdge(rank, evs, |evs|, a, b)
    ensures forall a, b :: Joined(g, a, b) || RecordEdge(rank, evs, |evs|, a, b) ==> Joined(edges, a, b)
  {
    edges := g;
    var prior: map<nat, seq<Event>> := map[];
    var j := 0;
    assert evs[..0] == [];
    while j < |evs|
      invariant j <= |evs|
      invariant forall st :: Prior(prior, st) == WaitsOn(evs[..j], st)
      invariant forall a, b :: Joined(edges, a, b) ==> Joined(g, a, b) || RecordEdge(rank, evs, j, a, b)
      invariant forall a, b :: Joined(g, a, b) || RecordEdge(rank, evs, j, a, b) ==> Joined(edges, a, b)
    {
      var e := evs[j];
      var st := e.body.call.stream;
      assert evs[..j + 1][..j] == evs[..j];
      var waits := Prior(prior, st);
      if IsWait(e) {
        prior := prior[st := waits + [e]];
      } else if IsRecord(e) {
        edges := AddEdgesTo(edges, RecordNode(rank, e), rank, waits);
      }
      RecordEdgeNext(rank, evs, j);
      forall a, b | Joined(edges, a, b) && !Joined(g, a, b) ensures RecordEdge(rank, evs, j + 1, a, b) {
        if !RecordEdge(rank, evs, j, a, b) {
          var w :| w in waits && b == WaitNode(rank, w);
          assert RecordAfter(rank, evs, j, w, a, b);
        }
      }
      forall a, b | RecordEdge(rank, evs, j + 1, a, b) ensures Joined(edges, a, b) {
        if !RecordEdge(rank, evs, j, a, b) {
          var w :| RecordAfter(rank, evs, j, w, a, b);
          assert w in waits;
        }
      }
      j := j + 1;
    }
  }

  /** One record of one rank: an edge to each earlier wait of its stream. */
  method AddEdgesTo(g: Graph<Node>, a: Node, rank: nat, waits: seq<Event>) returns (edges: Graph<Node>)
    ensures forall x, y :: Joined(edges, x, y) ==> Joined(g, x, y) || (x == a && exists w :: w in waits && y == WaitNode(rank, w))
    ensures forall x, y :: Joined(g, x, y) ==> Joined(edges, x, y)
    ensures forall w :: w in waits ==> Joined(edges, a, WaitNode(rank, w))
  {
    edges := g;
    var i := 0;
    while i < |waits|
      invariant i <= |waits|
      invariant forall x, y :: Joined(edges, x, y) ==> Joined(g, x, y) || (x == a && exists w :: w in waits && y == WaitNode(rank, w))
      invariant forall x, y :: Joined(g, x, y) ==> Joined(edges, x, y)
      invariant forall k :: 0 <= k < i ==> Joined(edges, a, WaitNode(rank, waits[k]))
    {
      edges := AddEdge(edges, a, WaitNode(rank, waits[i]));
      i := i + 1;
    }
  }

  lemma RecordEdgeNext(rank: nat, evs: seq<Event>, j: nat)
    requires j < |evs|
    ensures forall a, b :: RecordEdge(rank, evs, j + 1, a, b) ==>
      RecordEdge(rank, evs, j, a, b) || exists w :: RecordAfter(rank, evs, j, w, a, b)
    ensures forall a, b :: RecordEdge(rank, evs, j, a, b) ==> RecordEdge(rank, evs, j + 1, a, b)
    ensures forall a, b, w :: RecordAfter(rank, evs, j, w, a, b) ==> RecordEdge(rank, evs, j + 1, a, b)
  {}

  /** The first pass of analyze over one rank: its waits, and the last record of each event. */
  method CollectRank(rank: nat, evs: seq<Event>, producers0: map<(nat, nat), Event>, waits0: seq<Event>)
    returns (producers: map<(nat, nat), Event>, waits: seq<Event>)
    requires forall c :: (rank, c) !in producers0
    ensures forall r, c :: r != rank ==> Lookup(producers, (r, c)) == Lookup(producers0, (r, c))
    ensures forall c :: Lookup(producers, (rank, c)) == LastRecord(evs, c)
    ensures forall w :: w in waits ==> w in waits0 || (w in evs && IsWait(w))
    ensures forall w :: w in waits0 || (w in evs && IsWait(w)) ==> w in waits
  {
    producers, waits := producers0, waits0;
    var i := 0;
    while i < |evs|
      invariant i <= |evs|
      invariant forall r, c :: r != rank ==> Lookup(producers, (r, c)) == Lookup(producers0, (r, c))
      invariant forall c :: Lookup(producers, (rank, c)) == LastRecord(evs[..i], c)
      invariant forall w :: w in waits ==> w in waits0 || (w in evs && IsWait(w))
      invariant forall w :: w in waits0 || (w in evs[..i] && IsWait(w)) ==> w in waits
    {
      var e := evs[i];
      assert evs[..i + 1][..i] == evs[..i] && evs[..i + 1] == evs[..i] + [e];
      if IsRecord(e) {
        producers := producers[(rank, e.body.call.corr) := e];
      } else if IsWait(e) {
        waits := waits + [e];
      }
      i := i + 1;
    }
    assert evs[..i] == evs;
  }

  function Lookup(producers: map<(nat, nat), Event>, key: (nat, nat)): Option<Event> {
    if key in producers then Some(producers[key]) else None
  }

  method Collect(ranks: map<nat, seq<Event>>) returns (producers: map<(nat, nat), Event>, waits: seq<Event>)
    ensures forall w: Event :: Lookup(producers, (w.body.rank, w.body.call.corr)) == ProducerOf(ranks, w)
    ensures forall w :: w in waits <==> Observed(ranks, w)
  {
    producers, waits := map[], [];
    var todo := ranks.Keys;
    while todo != {}
      invariant todo <= ranks.Keys
      invariant forall r, c :: Lookup(producers, (r, c)) == (if r in ranks && r !in todo then LastRecord(ranks[r], c) else None)
      invariant forall w :: w in waits ==> Observed(ranks, w)
      invariant forall w, r :: r in ranks && r !in todo && w in ranks[r] && IsWait(w) ==> w in waits
      decreases todo
    {
      var r :| r in todo;
      forall c: nat ensures (r, c) !in producers { assert Lookup(producers, (r, c)) == None; }
      producers, waits := CollectRank(r, ranks[r], producers, waits);
      todo := todo - {r};
    }
  }

  ghost predicate Represents(g: Graph<Node>, ranks: map<nat, seq<Event>>) {
    && (forall a, b :: Joined(g, a, b) ==> IsEdge(ranks, a, b))
    && (forall a, b :: IsEdge(ranks, a, b) ==> Joined(g, a, b))
  }

  method BuildEdges(ranks: map<nat, seq<Event>>) returns (edges: Graph<Node>)
    ensures Represents(edges, ranks) && (Parsed(ranks) ==> Draws(edges, ranks))
  {
    var producers, waits := Collect(ranks);
    edges := map[];
    var todo := ranks.Keys;
    while todo != {}
      invariant todo <= ranks.Keys
      invariant forall a, b :: Joined(edges, a, b) ==> SomeRecordEdge(ranks, a, b)
      invariant forall a, b, r :: r in ranks && r !in todo && RecordEdge(r, ranks[r], |ranks[r]|, a, b) ==> Joined(edges, a, b)
      decreases todo
    {
      var r :| r in todo;
      edges := AddRecordEdges(r, ranks[r], edges);
      todo := todo - {r};
    }
    var i := 0;
    while i < |waits|
      invariant i <= |waits|
      invariant forall a, b :: Joined(edges, a, b) ==> IsEdge(ranks, a, b)
      invariant forall a, b :: SomeRecordEdge(ranks, a, b) ==> Joined(edges, a, b)
      invariant forall k, a, b :: 0 <= k < i && WaitEdge(ranks, waits[k], a, b) ==> Joined(edges, a, b)
    {
      var w := waits[i];
      var producer := Lookup(producers, (w.body.rank, w.body.call.corr));
      assert w in waits;
      if producer.Some? {
        assert WaitEdge(ranks, w, WaitNode(w.body.rank, w), RecordNode(w.body.rank, producer.value));
        edges := AddEdge(edges, WaitNode(w.body.rank, w), RecordNode(w.body.rank, producer.value));
      }
      i := i + 1;
    }
    forall a, b | SomeWaitEdge(ranks, a, b) ensures Joined(edges, a, b) {
      var w :| Observed(ranks, w) && WaitEdge(ranks, w, a, b);
      assert w in waits;
    }
    if Parsed(ranks) { RepresentsDraws(edges, ranks); }
  }

  // ---- The edges, on the events of parsed files ----

  /** Parsed files are in increasing order, and their events carry the rank of the file. */
  ghost predicate Parsed(ranks: map<nat, seq<Event>>) {
    forall r :: r in ranks ==> Increasing(ranks[r]) && forall e :: e in ranks[r] ==> e.body.rank == r
  }

  /** `e` records the event that `w` waits for. */
  predicate RecordsFor(e: Event, w: Event) {
    e.body.call.kind == 17 && e.body.call.corr == w.body.call.corr
  }

  /** `e` is the last retained record, on the rank of wait `w`, of the event it waits for. */
  ghost predicate WaitsFor(ranks: map<nat, seq<Event>>, w: Event, e: Event) {
    && w.body.rank in ranks && e in ranks[w.body.rank] && RecordsFor(e, w)
    && forall f :: f in ranks[w.body.rank] && RecordsFor(f, w) ==> f.seqno <= e.seqno
  }

  ghost predicate Retained(ranks: map<nat, seq<Event>>, e: Event) {
    e.body.rank in ranks && e in ranks[e.body.rank]
  }

  /** A wait depends on the last record of its event. */
  ghost predicate WaitToRecord(ranks: map<nat, seq<Event>>, w: Event, e: Event, a: Node, b: Node) {
    && Retained(ranks, w) && w.body.call.kind == 18 && WaitsFor(ranks, w, e)
    && a == Wait(w.body.rank, w.body.call.stream, w.seqno) && b == Record(w.body.rank, e.body.call.stream, e.seqno)
  }

  /** A record depends on each earlier wait of its rank and stream. */
  ghost predicate RecordToWait(ranks: map<nat, seq<Event>>, e: Event, w: Event, a: Node, b: Node) {
    && Retained(ranks, e) && Retained(ranks, w) && e.body.call.kind == 17 && w.body.call.kind == 18
    && w.body.rank == e.body.rank && w.body.call.stream == e.body.call.stream && w.seqno < e.seqno
    && a == Record(e.body.rank, e.body.call.stream, e.seqno) && b == Wait(w.body.rank, w.body.call.stream, w.seqno)
  }

  ghost predicate Depends(ranks: map<nat, seq<Event>>, a: Node, b: Node) {
    WaitDepends(ranks, a, b) || exists e, w :: RecordToWait(ranks, e, w, a, b)
  }

  ghost predicate WaitDepends(ranks: map<nat, seq<Event>>, a: Node, b: Node) {
    exists w, e :: WaitToRecord(ranks, w, e, a, b)
  }

  lemma {:induction false} LastRecordIsLast(evs: seq<Event>, w: Event)
    requires Increasing(evs)
    ensures LastRecord(evs, w.body.call.corr).None? ==> forall f :: f in evs ==> !RecordsFor(f, w)
    ensures LastRecord(evs, w.body.call.corr).Some? ==>
      var e := LastRecord(evs, w.body.call.corr).value;
      e in evs && RecordsFor(e, w) && forall f :: f in evs && RecordsFor(f, w) ==> f.seqno <= e.seqno
  {
    if evs != [] {
      var front, e := evs[..|evs| - 1], evs[|evs| - 1];
      LastRecordIsLast(front, w);
      assert evs == front + [e] && (RecordsFor(e, w) <==> IsRecord(e) && e.body.call.corr == w.body.call.corr);
    }
  }

  lemma ProducerIsLast(ranks: map<nat, seq<Event>>, w: Event, e: Event)
    requires Parsed(ranks)
    ensures ProducerOf(ranks, w) == Some(e) <==> WaitsFor(ranks, w, e)
  {
    if w.body.rank in ranks {
      var evs := ranks[w.body.rank];
      LastRecordIsLast(evs, w);
      if WaitsFor(ranks, w, e) {
        var p := LastRecord(evs, w.body.call.corr).value;
        var i, j :| 0 <= i < |evs| && 0 <= j < |evs| && evs[i] == e && evs[j] == p;
        assert i == j;
      }
    }
  }

  lemma ObservedIsRetained(ranks: map<nat, seq<Event>>, w: Event)
    requires Parsed(ranks)
    ensures Observed(ranks, w) <==> Retained(ranks, w) && w.body.call.kind == 18
  {}

  lemma WaitEdgesOfEvents(ranks: map<nat, seq<Event>>, a: Node, b: Node)
    requires Parsed(ranks)
    ensures SomeWaitEdge(ranks, a, b) <==> WaitDepends(ranks, a, b)
  {
    if SomeWaitEdge(ranks, a, b) {
      var w :| Observed(ranks, w) && WaitEdge(ranks, w, a, b);
      ObservedIsRetained(ranks, w);
      ProducerIsLast(ranks, w, ProducerOf(ranks, w).value);
      assert WaitToRecord(ranks, w, ProducerOf(ranks, w).value, a, b);
    }
    forall w, e | WaitToRecord(ranks, w, e, a, b) ensures SomeWaitEdge(ranks, a, b) {
      ObservedIsRetained(ranks, w);
      ProducerIsLast(ranks, w, e);
      assert WaitEdge(ranks, w, a, b);
    }
  }

  /** The waits before place `j` of an increasing file are those with a lower number. */
  lemma WaitsBefore(evs: seq<Event>, j: nat, w: Event)
    requires Increasing(evs) && j < |evs|
    ensures w in WaitsOn(evs[..j], evs[j].body.call.stream) <==>
      w in evs && w.body.call.kind == 18 && w.body.call.stream == evs[j].body.call.stream && w.seqno < evs[j].seqno
  {
    WaitsOnMembers(evs[..j], evs[j].body.call.stream);
    if w in evs {
      var i :| 0 <= i < |evs| && evs[i] == w;
      assert w.seqno < evs[j].seqno <==> i < j;
      assert i < j ==> evs[..j][i] == w;
      assert w in evs[..j] ==> w.seqno < evs[j].seqno;
    }
  }

  lemma RecordEdgesOfEvents(ranks: map<nat, seq<Event>>, a: Node, b: Node)
    requires Parsed(ranks)
    ensures SomeRecordEdge(ranks, a, b) <==> exists e, w :: RecordToWait(ranks, e, w, a, b)
  {
    if SomeRecordEdge(ranks, a, b) {
      var r :| r in ranks && RecordEdge(r, ranks[r], |ranks[r]|, a, b);
      var j: nat, w :| j < |ranks[r]| && RecordAfter(r, ranks[r], j, w, a, b);
      WaitsBefore(ranks[r], j, w);
      assert RecordToWait(ranks, ranks[r][j], w, a, b);
    }
    forall e, w | RecordToWait(ranks, e, w, a, b) ensures SomeRecordEdge(ranks, a, b) {
      var r := e.body.rank;
      var j :| 0 <= j < |ranks[r]| && ranks[r][j] == e;
      WaitsBefore(ranks[r], j, w);
      assert RecordAfter(r, ranks[r], j, w, a, b);
      assert RecordEdge(r, ranks[r], |ranks[r]|, a, b);
    }
  }

  /** The graph has an edge exactly where one retained event depends on another. */
  ghost predicate Draws(g: Graph<Node>, ranks: map<nat, seq<Event>>) {
    && (forall a, b :: Joined(g, a, b) ==> Depends(ranks, a, b))
    && (forall a, b :: Depends(ranks, a, b) ==> Joined(g, a, b))
  }

  lemma RepresentsDraws(g: Graph<Node>, ranks: map<nat, seq<Event>>)
    requires Parsed(ranks) && Represents(g, ranks)
    ensures Draws(g, ranks)
  {
    forall a, b ensures IsEdge(ranks, a, b) <==> Depends(ranks, a, b) {
      WaitEdgesOfEvents(ranks, a, b);
      RecordEdgesOfEvents(ranks, a, b);
    }
  }

  /** A retained wait has an edge if and only if its rank retains a record of its event. */
  lemma WaitHasEdge(g: Graph<Node>, ranks: map<nat, seq<Event>>, w: Event)
    requires Parsed(ranks) && Draws(g, ranks) && Retained(ranks, w) && w.body.call.kind == 18
    ensures (exists b :: Joined(g, WaitNode(w.body.rank, w), b)) <==> exists f :: f in ranks[w.body.rank] && RecordsFor(f, w)
  {
    var a, evs := WaitNode(w.body.rank, w), ranks[w.body.rank];
    LastRecordIsLast(evs, w);
    if exists f :: f in evs && RecordsFor(f, w) {
      var e := LastRecord(evs, w.body.call.corr).value;
      var b := RecordNode(w.body.rank, e);
      assert WaitToRecord(ranks, w, e, a, b);
      assert Joined(g, a, b);
    }
    forall b | Joined(g, a, b) ensures exists f :: f in evs && RecordsFor(f, w) {
      var v, e :| WaitToRecord(ranks, v, e, a, b);
      SameWait(evs, v, w);
    }
  }

  lemma SameWait(evs: seq<Event>, v: Event, w: Event)
    requires Increasing(evs) && v in evs && w in evs && v.seqno == w.seqno
    ensures v == w
  {
    var i, j :| 0 <= i < |evs| && 0 <= j < |evs| && evs[i] == v && evs[j] == w;
    assert i == j;
  }

  // ---- What cycles mean ----

  /** The wait comes after the record it is taken to wait for, or that record is not retained. */
  ghost predicate Served(ranks: map<nat, seq<Event>>, w: Event) {
    forall e :: WaitsFor(ranks, w, e) ==> e.seqno < w.seqno
  }

  /** Some retained wait stands before the record it is taken to wait for. */
  ghost predicate HasUnserved(ranks: map<nat, seq<Event>>) {
    exists w :: Retained(ranks, w) && w.body.call.kind == 18 && !Served(ranks, w)
  }

  lemma SomeStepUp(c: seq<Node>) returns (k: nat)
    requires |c| >= 2 && c[0] == c[|c| - 1]
    ensures k + 1 < |c| && c[k].seqno <= c[k + 1].seqno
  {
    k := 0;
    while c[k].seqno > c[k + 1].seqno
      invariant k + 1 < |c| && c[k].seqno + k <= c[0].seqno
      decreases |c| - k
    {
      k := k + 1;
    }
  }

  /** Every edge stays on one rank and joins a wait and a record; a record has the higher number. */
  lemma EdgeShape(ranks: map<nat, seq<Event>>, a: Node, b: Node)
    requires Parsed(ranks) && Depends(ranks, a, b)
    ensures b.rank == a.rank && (a.Wait? <==> b.Record?) && a.seqno != b.seqno
    ensures a.Record? ==> b.seqno < a.seqno
    ensures a.Wait? ==> WaitDepends(ranks, a, b)
  {
    if a.Wait? {
      var w, e :| WaitToRecord(ranks, w, e, a, b);
      var evs := ranks[w.body.rank];
      var i, j :| 0 <= i < |evs| && 0 <= j < |evs| && evs[i] == e && evs[j] == w;
      assert i != j;
    }
  }

  lemma StepShape(ranks: map<nat, seq<Event>>, g: Graph<Node>, c: seq<Node>, k: nat)
    requires Parsed(ranks) && Draws(g, ranks) && IsClosedWalk(g, c) && k + 1 < |c|
    ensures c[k + 1].rank == c[k].rank && (c[k].Wait? <==> c[k + 1].Record?) && c[k].seqno != c[k + 1].seqno
    ensures c[k].Record? ==> c[k + 1].seqno < c[k].seqno
    ensures c[k].Wait? ==> WaitDepends(ranks, c[k], c[k + 1])
  {
    assert IsStep(g, c, k) && Joined(g, c[k], c[k + 1]);
    EdgeShape(ranks, c[k], c[k + 1]);
  }

  lemma {:induction false} OneRank(ranks: map<nat, seq<Event>>, g: Graph<Node>, c: seq<Node>, k: nat)
    requires Parsed(ranks) && Draws(g, ranks) && IsClosedWalk(g, c) && k < |c|
    ensures c[k].rank == c[0].rank
  {
    if k > 0 {
      OneRank(ranks, g, c, k - 1);
      StepShape(ranks, g, c, k - 1);
    }
  }

  /** Every cycle stays on one rank, alternates waits and records, and contains a wait whose record comes
      later. */
  lemma CycleShape(ranks: map<nat, seq<Event>>, g: Graph<Node>, c: seq<Node>) returns (w: Event, e: Event)
    requires Parsed(ranks) && Draws(g, ranks) && IsClosedWalk(g, c)
    ensures forall k :: 0 <= k < |c| ==> c[k].rank == c[0].rank
    ensures forall k :: 0 <= k < |c| - 1 ==> (c[k].Wait? <==> c[k + 1].Record?)
    ensures Retained(ranks, w) && w.body.call.kind == 18 && WaitsFor(ranks, w, e) && w.seqno < e.seqno
    ensures Wait(w.body.rank, w.body.call.stream, w.seqno) in c && Record(w.body.rank, e.body.call.stream, e.seqno) in c
  {
    forall k | 0 <= k < |c| ensures c[k].rank == c[0].rank { OneRank(ranks, g, c, k); }
    forall k | 0 <= k < |c| - 1 ensures c[k].Wait? <==> c[k + 1].Record? { StepShape(ranks, g, c, k); }
    var k := SomeStepUp(c);
    StepShape(ranks, g, c, k);
    w, e :| WaitToRecord(ranks, w, e, c[k], c[k + 1]);
    assert c[k] in c && c[k + 1] in c;
  }

  /** Normal hand-offs are never reported: when every wait comes after the record it waits for, the graph
      has no cycle. */
  lemma HandOffsHaveNoCycle(ranks: map<nat, seq<Event>>, g: Graph<Node>, c: seq<Node>)
    requires Parsed(ranks) && Draws(g, ranks) && !HasUnserved(ranks)
    ensures !IsClosedWalk(g, c)
  {
    if IsClosedWalk(g, c) {
      var w, e := CycleShape(ranks, g, c);
      assert false;
    }
  }

  /** stream_cycles_candidate */
  method StreamCycles(ranks: map<nat, seq<Event>>) returns (cycles: seq<seq<Node>>, ghost g: Graph<Node>)
    ensures Represents(g, ranks) && (Parsed(ranks) ==> Draws(g, ranks))
    ensures forall c :: c in cycles ==> IsSimpleCycle(g, c)
    ensures cycles != [] <==> exists c :: IsClosedWalk(g, c)
    ensures Parsed(ranks) && !HasUnserved(ranks) ==> cycles == []
  {
    var edges := BuildEdges(ranks);
    g := edges;
    cycles := FindCycles(edges);
    if Parsed(ranks) && !HasUnserved(ranks) {
      forall c ensures !IsClosedWalk(edges, c) { HandOffsHaveNoCycle(ranks, edges, c); }
    }
  }
}
