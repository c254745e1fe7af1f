/** report of mspti_ring.py: pairing callback entries and exits over the retained part of a run. */
module CallbackPairing {
  import opened Records

  datatype Activity = Activity(kind: nat, tid: nat, code: nat, corr: nat)

  type Event = Rec<Activity>

  datatype Domain = Runtime | Hccl

  datatype Key = Key(domain: Domain, tid: nat, code: nat)

  const RUNTIME_ENTER: nat := 1
  const RUNTIME_EXIT: nat := 2
  const HCCL_ENTER: nat := 3
  const HCCL_EXIT: nat := 4

  predicate IsEnter(e: Event) {
    e.body.kind == RUNTIME_ENTER || e.body.kind == HCCL_ENTER
  }

  predicate IsExit(e: Event) {
    e.body.kind == RUNTIME_EXIT || e.body.kind == HCCL_EXIT
  }

  /** The prefix of the label, the thread and the callback id. */
  function KeyOf(e: Event): Key {
    Key(if e.body.kind == RUNTIME_ENTER || e.body.kind == RUNTIME_EXIT then Runtime else Hccl, e.body.tid, e.body.code)
  }

  predicate IsCallback(e: Event) {
    1 <= e.body.kind <= 4
  }

  /** Two callbacks share a stack if and only if they agree in thread, callback id and domain. */
  lemma KeysAgree(a: Event, b: Event)
    requires IsCallback(a) && IsCallback(b)
    ensures KeyOf(a) == KeyOf(b) <==>
      a.body.tid == b.body.tid && a.body.code == b.body.code && (a.body.kind <= 2 <==> b.body.kind <= 2)
  {}

  /** `x` is the exit of a call that `e` entered: runtime_exit of runtime_enter or hccl_exit of hccl_enter,
      on the same thread and with the same callback id. */
  predicate Leaves(x: Event, e: Event) {
    && ((e.body.kind == 1 && x.body.kind == 2) || (e.body.kind == 3 && x.body.kind == 4))
    && x.body.tid == e.body.tid && x.body.code == e.body.code
  }

  function Pop<T>(s: seq<T>): seq<T> {
    if s == [] then [] else s[..|s| - 1]
  }

  // ---- What really happens on a thread ----

  /** What an event makes of the stack of a thread, or of a key of that thread: an exit with nothing to pop is
      ignored. */
  function AfterEvent(s: seq<Event>, e: Event, tid: nat): seq<Event> {
    if e.body.tid != tid then s else if IsEnter(e) then s + [e] else if IsExit(e) then Pop(s) else s
  }

  /** The calls of one thread that are open after the trace, outermost first. */
  function CallStack(trace: seq<Event>, tid: nat): seq<Event> {
    if trace == [] then []
    else
      AfterEvent(CallStack(trace[..|trace| - 1], tid), trace[|trace| - 1], tid)
  }

  /** Every exit ends the innermost open call of its thread. */
  predicate ExitMatches(trace: seq<Event>, i: nat)
    requires i < |trace|
  {
    IsExit(trace[i]) ==>
      var s := CallStack(trace[..i], trace[i].body.tid);
      s != [] && Leaves(trace[i], s[|s| - 1])
  }

  /** The whole run of the recorder: numbered from 1, the calls of each thread well nested. */
  ghost predicate IsTrace(trace: seq<Event>) {
    forall i :: 0 <= i < |trace| ==> trace[i].seqno == i + 1 && ExitMatches(trace, i)
  }

  /** Every well-nested run is such a run: it may go on with any event that is no exit, and with the exit of
      the innermost open call of any thread. */
  lemma TraceGrows(trace: seq<Event>, e: Event)
    requires IsTrace(trace) && e.seqno == |trace| + 1
    requires var s := CallStack(trace, e.body.tid); e.body.kind !in {2, 4} || (s != [] && Leaves(e, s[|s| - 1]))
    ensures IsTrace(trace + [e])
  {
    var more := trace + [e];
    forall i | 0 <= i < |more| ensures more[i].seqno == i + 1 && ExitMatches(more, i) {
      assert more[..i] == trace[..i] && (i < |trace| ==> ExitMatches(trace, i));
      assert trace[..|trace|] == trace;
    }
  }

  /** What an event adds to the depth of a thread. */
  function Change(e: Event, tid: nat): int {
    if e.body.tid != tid then 0 else if e.body.kind in {1, 3} then 1 else if e.body.kind in {2, 4} then -1 else 0
  }

  /** Entries minus exits of one thread behind position `i` and before position `j`. */
  function Depth(trace: seq<Event>, tid: nat, i: nat, j: nat): int
    requires i < j <= |trace|
  {
    if j == i + 1 then 0
    else
      Depth(trace, tid, i, j - 1) + Change(trace[j - 1], tid)
  }

  /** Event `i` enters a call, and at no later moment have the exits of its thread outnumbered the entries
      that came behind it. */
  ghost predicate StillOpen(trace: seq<Event>, i: nat)
    requires i < |trace|
  {
    trace[i].body.kind in {1, 3} && forall j :: i < j <= |trace| ==> Depth(trace, trace[i].body.tid, i, j) >= 0
  }

  /** Event `i` stands in the stack of its thread, under the calls entered behind it. */
  predicate Stacked(trace: seq<Event>, i: nat)
    requires i < |trace|
  {
    var s, d := CallStack(trace, trace[i].body.tid), Depth(trace, trace[i].body.tid, i, |trace|);
    0 <= d < |s| && s[|s| - 1 - d] == trace[i]
  }

  lemma {:induction false} DepthOfPrefix(trace: seq<Event>, n: nat, tid: nat, i: nat, j: nat)
    requires i < j <= n <= |trace|
    ensures Depth(trace[..n], tid, i, j) == Depth(trace, tid, i, j)
  {
    if j > i + 1 { DepthOfPrefix(trace, n, tid, i, j - 1); }
  }

  lemma StillOpenGrows(trace: seq<Event>, i: nat)
    requires i < |trace| - 1
    ensures StillOpen(trace, i) <==>
      StillOpen(trace[..|trace| - 1], i) && Depth(trace, trace[i].body.tid, i, |trace|) >= 0
  {
    var front, tid := trace[..|trace| - 1], trace[i].body.tid;
    forall j | i < j <= |front| ensures Depth(front, tid, i, j) == Depth(trace, tid, i, j) {
      DepthOfPrefix(trace, |front|, tid, i, j);
    }
  }

  lemma StackStep(s: seq<Event>, x: Event, e: Event, tid: nat, d: nat)
    requires Increasing(s) && e.seqno != x.seqno && d < |s| && s[|s| - 1 - d] == x
    ensures var s', d' := AfterEvent(s, e, tid), d + Change(e, tid);
      if d' >= 0 then d' < |s'| && s'[|s'| - 1 - d'] == x else x !in s'
  {}

  /** One more event either leaves the call on the stack or takes it off. */
  lemma StackedMoves(trace: seq<Event>, i: nat)
    requires i < |trace| - 1 && Stacked(trace[..|trace| - 1], i) && trace[i].seqno != trace[|trace| - 1].seqno
    requires Increasing(CallStack(trace[..|trace| - 1], trace[i].body.tid))
    ensures if Depth(trace, trace[i].body.tid, i, |trace|) >= 0 then Stacked(trace, i)
            else trace[i] !in CallStack(trace, trace[i].body.tid)
  {
    var front, tid := trace[..|trace| - 1], trace[i].body.tid;
    DepthOfPrefix(trace, |front|, tid, i, |front|);
    StackStep(CallStack(front, tid), trace[i], trace[|front|], tid, Depth(front, tid, i, |front|));
  }

  /** The stack of a thread holds exactly its calls that are still open. */
  lemma {:induction false} StackIsOpen(trace: seq<Event>, i: nat)
    requires i < |trace| && forall k :: 0 <= k < |trace| ==> trace[k].seqno == k + 1
    ensures if StillOpen(trace, i) then Stacked(trace, i) else trace[i] !in CallStack(trace, trace[i].body.tid)
  {
    var front, tid := trace[..|trace| - 1], trace[i].body.tid;
    CallStackRises(front, tid);
    if i < |front| {
      StackIsOpen(front, i);
      StillOpenGrows(trace, i);
      if StillOpen(front, i) { StackedMoves(trace, i); }
    }
  }

  // ---- What the report keeps ----

  /** The stack of one key after the loop has seen `events`. */
  function Pending(events: seq<Event>, key: Key): seq<Event> {
    if events == [] then []
    else
      var s, e := Pending(events[..|events| - 1], key), events[|events| - 1];
      if KeyOf(e) != key then s else AfterEvent(s, e, key.tid)
  }

  /** The report lists `e` as entered and not exited. */
  ghost predicate Listed(events: seq<Event>, e: Event) {
    exists key :: e in Pending(events, key)
  }

  /** The calls of a stack that have a given key and were entered after number `m`. */
  function Select(s: seq<Event>, key: Key, m: nat): seq<Event> {
    if s == [] then []
    else
      var e := s[|s| - 1];
      Select(s[..|s| - 1], key, m) + if KeyOf(e) == key && e.seqno > m then [e] else []
  }

  lemma {:induction false} CallStackRises(trace: seq<Event>, tid: nat)
    requires forall i :: 0 <= i < |trace| ==> trace[i].seqno == i + 1
    ensures Increasing(CallStack(trace, tid))
    ensures forall e :: e in CallStack(trace, tid) ==> e in trace && IsEnter(e) && e.body.tid == tid && e.seqno <= |trace|
  {
    if trace != [] {
      var front, e := trace[..|trace| - 1], trace[|trace| - 1];
      CallStackRises(front, tid);
      var s := CallStack(front, tid);
      if e.body.tid == tid && IsEnter(e) { AppendIncreasing(s, e); }
      assert trace == front + [e];
    }
  }

  lemma {:induction false} SelectNone(s: seq<Event>, key: Key, m: nat)
    requires forall e :: e in s ==> e.seqno <= m
    ensures Select(s, key, m) == []
  {
    if s != [] { SelectNone(s[..|s| - 1], key, m); }
  }

  lemma {:induction false} SelectMembers(s: seq<Event>, key: Key, m: nat)
    ensures forall e :: e in Select(s, key, m) ==> e in s && KeyOf(e) == key && e.seqno > m
    ensures forall e :: e in s && KeyOf(e) == key && e.seqno > m ==> e in Select(s, key, m)
  {
    if s != [] {
      SelectMembers(s[..|s| - 1], key, m);
      assert s == s[..|s| - 1] + [s[|s| - 1]];
    }
  }

  /** Ending the innermost call: either it is the last selected one, or nothing is selected. */
  lemma SelectPops(s: seq<Event>, m: nat, key: Key)
    requires s != [] && Increasing(s)
    ensures Select(Pop(s), key, m) == (if KeyOf(s[|s| - 1]) == key then Pop(Select(s, key, m)) else Select(s, key, m))
  {
    var e := s[|s| - 1];
    if e.seqno <= m {
      assert forall x :: x in s ==> x.seqno <= m;
      SelectNone(s, key, m);
      SelectNone(Pop(s), key, m);
    } else {
      assert Pop(Select(Pop(s), key, m) + [e]) == Select(Pop(s), key, m);
    }
  }

  lemma TracePrefix(trace: seq<Event>, n: nat)
    requires IsTrace(trace) && n <= |trace|
    ensures IsTrace(trace[..n])
  {
    var front := trace[..n];
    forall i | 0 <= i < n ensures front[i].seqno == i + 1 && ExitMatches(front, i) {
      assert front[..i] == trace[..i] && ExitMatches(trace, i);
    }
  }

  /** One more event keeps the stack of a key in step with the calls it selects. */
  lemma EventKeepsPairing(s: seq<Event>, e: Event, m: nat, key: Key)
    requires Increasing(s) && e.seqno > m
    requires e.body.tid == key.tid && IsExit(e) ==> s != [] && Leaves(e, s[|s| - 1])
    ensures Select(AfterEvent(s, e, key.tid), key, m) ==
            if KeyOf(e) != key then Select(s, key, m) else AfterEvent(Select(s, key, m), e, key.tid)
  {
    if e.body.tid == key.tid {
      if IsEnter(e) {
        assert (s + [e])[..|s|] == s;
      } else if IsExit(e) {
        SelectPops(s, m, key);
      }
    }
  }

  /** An entry directly followed by its exit leaves every stack as it was. */
  lemma FinishedCallIsGone(events: seq<Event>, e: Event, x: Event, key: Key)
    requires Leaves(x, e)
    ensures Pending(events + [e] + [x], key) == Pending(events, key)
  {
    PendingOfMore(events, e, key);
    PendingOfMore(events + [e], x, key);
  }

  /** An entry is listed, whatever came before; other events than callbacks change no stack. */
  lemma EntryIsListed(events: seq<Event>, e: Event)
    ensures e.body.kind in {1, 3} ==> Listed(events + [e], e)
    ensures !IsCallback(e) ==> forall key :: Pending(events + [e], key) == Pending(events, key)
  {
    forall key { PendingOfMore(events, e, key); }
    PendingOfMore(events, e, KeyOf(e));
  }

  lemma PendingOfMore(events: seq<Event>, e: Event, key: Key)
    ensures var s := Pending(events, key);
      Pending(events + [e], key) == if KeyOf(e) != key then s else AfterEvent(s, e, key.tid)
  {
    assert (events + [e])[..|events|] == events;
  }

  /** Behind number `m` the stack of the key holds the open calls of the key that were entered there. */
  predicate Paired(trace: seq<Event>, m: nat, key: Key)
    requires m <= |trace|
  {
    Pending(trace[m..], key) == Select(CallStack(trace, key.tid), key, m)
  }

  lemma PairedGrows(trace: seq<Event>, m: nat, key: Key)
    requires IsTrace(trace) && m < |trace| && Paired(trace[..|trace| - 1], m, key)
    ensures Paired(trace, m, key)
  {
    var front, e := trace[..|trace| - 1], trace[|trace| - 1];
    var s := CallStack(front, key.tid);
    assert Increasing(s) by { CallStackRises(front, key.tid); }
    assert e.body.tid == key.tid && IsExit(e) ==> s != [] && Leaves(e, s[|s| - 1]) by { assert ExitMatches(trace, |front|); }
    EventKeepsPairing(s, e, m, key);
    assert trace[m..] == front[m..] + [e];
    PendingOfMore(front[m..], e, key);
    assert CallStack(trace, key.tid) == AfterEvent(s, e, key.tid);
  }

  lemma {:induction false} PairedThroughout(trace: seq<Event>, m: nat, key: Key)
    requires IsTrace(trace) && m <= |trace|
    ensures Paired(trace, m, key)
    decreases |trace|
  {
    if |trace| == m {
      CallStackRises(trace, key.tid);
      SelectNone(CallStack(trace, key.tid), key, m);
    } else {
      TracePrefix(trace, |trace| - 1);
      PairedThroughout(trace[..|trace| - 1], m, key);
      PairedGrows(trace, m, key);
    }
  }

  /** Pairing is exact on truncated history: after a hole-free suffix that begins behind number `m`, the
      stack of each key holds exactly those calls of that key that are open in the full trace and were
      entered in the suffix, in the order they were entered. */
  lemma PairingExact(trace: seq<Event>, m: nat, key: Key)
    requires IsTrace(trace) && m <= |trace|
    ensures Pending(trace[m..], key) == Select(CallStack(trace, key.tid), key, m)
  {
    PairedThroughout(trace, m, key);
  }

  // ---- The loop ----

  function StackOf(pending: map<Key, seq<Event>>, key: Key): seq<Event> {
    if key in pending then pending[key] else []
  }

  method Pair(events: seq<Event>) returns (pending: map<Key, seq<Event>>)
    ensures forall key :: key in pending ==> pending[key] == Pending(events, key)
    ensures forall key :: Pending(events, key) != [] ==> key in pending
  {
    pending := map[];
    var i := 0;
    assert events[..0] == [];
    while i < |events|
      invariant i <= |events|
      invariant forall key :: StackOf(pending, key) == Pending(events[..i], key)
    {
      var e := events[i];
      assert events[..i + 1][..i] == events[..i];
      var s := StackOf(pending, KeyOf(e));
      if IsEnter(e) {
        pending := pending[KeyOf(e) := s + [e]];
      } else if IsExit(e) && s != [] {
        pending := pending[KeyOf(e) := s[..|s| - 1]];
      }
      i := i + 1;
    }
    assert events[..i] == events;
    forall key | key in pending ensures pending[key] == Pending(events, key) { assert StackOf(pending, key) == pending[key]; }
    forall key | Pending(events, key) != [] ensures key in pending { assert StackOf(pending, key) != []; }
  }

  /** The calls the report lists as entered and not exited, in increasing order. */
  method OpenCalls(events: seq<Event>) returns (open: seq<Event>)
    requires Increasing(events)
    ensures Increasing(open)
    ensures forall e :: e in open <==> Listed(events, e)
  {
    var pending := Pair(events);
    open := [];
    var todo := pending.Keys;
    while todo != {}
      invariant todo <= pending.Keys && Distinct(open)
      invariant forall e :: e in open ==> KeyOf(e) !in todo && e in Pending(events, KeyOf(e)) && e in events
      invariant forall key, e :: key in pending && key !in todo && e in Pending(events, key) ==> e in open
      decreases todo
    {
      var key :| key in todo;
      PendingMembers(events, key);
      AppendDistinct(events, open, pending[key]);
      open := open + pending[key];
      todo := todo - {key};
    }
    forall key, e | e in Pending(events, key) ensures e in open { assert Pending(events, key) != []; }
    SortMembers(open);
    SortIncreasing(open);
    open := SortBySeq(open);
    forall e ensures e in open <==> Listed(events, e) {}
  }

  lemma {:induction false} PendingMembers(events: seq<Event>, key: Key)
    requires Increasing(events)
    ensures Increasing(Pending(events, key))
    ensures forall e :: e in Pending(events, key) ==> e in events && KeyOf(e) == key
  {
    if events != [] {
      var front, e := events[..|events| - 1], events[|events| - 1];
      PendingMembers(front, key);
      forall x | x in front ensures x.seqno < e.seqno {
        var k :| 0 <= k < |front| && front[k] == x;
        assert events[k] == x;
      }
      if KeyOf(e) == key && IsEnter(e) { AppendIncreasing(Pending(front, key), e); }
      assert events == front + [e];
    }
  }

  lemma AppendDistinct(events: seq<Event>, a: seq<Event>, b: seq<Event>)
    requires Increasing(events) && Distinct(a) && Increasing(b)
    requires forall e :: e in a || e in b ==> e in events
    requires forall e :: e in a ==> e !in b
    ensures Distinct(a + b)
  {
    forall i, j | 0 <= i < |a| && 0 <= j < |b| ensures a[i].seqno != b[j].seqno {
      assert a[i] in a && b[j] in b;
      assert a[i] in events && b[j] in events;
    }
  }

  lemma ListedIsStacked(trace: seq<Event>, m: nat, e: Event)
    requires IsTrace(trace) && m <= |trace|
    ensures Listed(trace[m..], e) <==> e in CallStack(trace, e.body.tid) && e.seqno > m
  {
    forall key: Key ensures e in Pending(trace[m..], key) <==> e in CallStack(trace, key.tid) && KeyOf(e) == key && e.seqno > m {
      PairingExact(trace, m, key);
      SelectMembers(CallStack(trace, key.tid), key, m);
    }
    assert KeyOf(e).tid == e.body.tid;
  }

  /** The report on the retained window lists exactly the calls that are still open in the full run and
      were entered inside the window. */
  lemma ReportedOpenIsOpen(trace: seq<Event>, m: nat, e: Event)
    requires IsTrace(trace) && m <= |trace|
    ensures Listed(trace[m..], e) <==> m < e.seqno <= |trace| && e == trace[e.seqno - 1] && StillOpen(trace, e.seqno - 1)
  {
    ListedIsStacked(trace, m, e);
    CallStackRises(trace, e.body.tid);
    if e in trace { StackIsOpen(trace, e.seqno - 1); }
  }
}
