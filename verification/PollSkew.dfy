/** One round of polling is enough for every pool and every cursor exactly when the number of slots
    divides the size of the 64-bit poll cursor. */
module PollSkew {
  import opened ModArith
  import opened ScanOrder
  import opened CheckpointPool
  import opened PoolFrames
  import opened PoolInvariant
  import opened PoolTheorems
  import opened SubmitCall
  import opened SmallPool
  import opened FullPool
  import opened PollFairness
  import opened PollDriver

  // ---- A scan that misses a slot ----

  /** A round that starts at `s` never comes to slot `id`. */
  ghost predicate Missed(p: Pool, s: nat, id: SlotId) {
    p.k >= 1 && |p.ids| >= 1 && forall o: nat :: o < Total(p) ==> PollTarget(p.ids, p.k, s, o) != id
  }

  /** The poll under way, if any, has started at `s`. */
  predicate OnCourse(p: Pool, s: nat) {
    p.polling ==> p.pollOwner < |p.polls| && !p.polls[p.pollOwner].at.Entered? && p.polls[p.pollOwner].start == s
  }

  lemma ScanStaysOnCourse(p: Pool, a: Action, s: nat)
    requires Shape(p) && Enabled(p, a) && OfPoller(a) && !a.Enter? && !a.Advance? && OnCourse(p, s)
    ensures OnCourse(Apply(p, a), s)
  {
    if a.Examine? { ExamineMoves(p, a.q); }
    else if a.Report? { ReportTells(p, a.q); }
    else if a.Leave? || a.Release? { EndStaysOnCourse(p, a, s); }
    else { AskingStaysOnCourse(p, a, s); }
  }

  lemma AskingStaysOnCourse(p: Pool, a: Action, s: nat)
    requires Shape(p) && Enabled(p, a) && (a.LoadGen? || a.Query?) && OnCourse(p, s)
    ensures OnCourse(Apply(p, a), s)
  {}

  lemma EndStaysOnCourse(p: Pool, a: Action, s: nat)
    requires Shape(p) && Enabled(p, a) && (a.Release? || a.Leave?) && OnCourse(p, s)
    ensures OnCourse(Apply(p, a), s)
  {}

  lemma MissedIsNotClaimed(p: Pool, a: Action, s: nat, id: SlotId)
    requires Inv(p) && Enabled(p, a) && OnCourse(p, s) && Missed(p, s, id)
    ensures !Claims(p, a, id)
  {
    if a.Examine? { assert PollOk(p, a.q); }
  }

  lemma {:induction false} ScanMisses(p: Pool, acts: seq<Action>, s: nat, id: SlotId)
    requires Inv(p) && IsRun(p, acts) && OnlyScans(acts) && OnCourse(p, s) && Missed(p, s, id)
    ensures !Queried(p, acts, id)
    decreases |acts|
  {
    if acts != [] {
      assert OfPoller(acts[0]) && forall i :: 0 <= i < |acts[1..]| ==> acts[1..][i] == acts[i + 1];
      MissedIsNotClaimed(p, acts[0], s, id);
      ScanStaysOnCourse(p, acts[0], s);
      StepKeepsInv(p, acts[0]);
      SameStreams(p, acts[0]);
      ScanMisses(Apply(p, acts[0]), acts[1..], s, id);
    }
  }

  lemma FirstQueriesNothing(p: Pool, a: Action, p1: Pool, rest: seq<Action>, id: SlotId)
    requires Shape(p) && Enabled(p, a) && Apply(p, a) == p1 && !a.Examine? && IsRun(p1, rest) && !Queried(p1, rest, id)
    ensures IsRun(p, [a] + rest) && !Queried(p, [a] + rest, id)
  {
    assert ([a] + rest)[1..] == rest;
  }

  /** A poll of budget `b` that starts at a cursor from which `id` is missed; the backend answers not
      ready whenever it is asked. */
  lemma PollMisses(p: Pool, id: SlotId, b: nat) returns (acts: seq<Action>)
    requires Inv(p) && !p.polling && |p.polls| >= 1 && Total(p) >= 1 && 1 <= b < U32
    requires id.stream in p.ids && Missed(p, p.pollCursor, id)
    ensures IsRun(p, acts) && OnlyPolls(acts) && !Exec(p, acts).polling && Spent(p, acts) >= b && !Queried(p, acts, id)
  {
    var none := SlotId(id.stream, p.k);
    NoSuchSlot(p, none);
    var p1, p2 := StartPoll(p, none, b);
    var rest, p3 := FinishPoll(p2, none);
    acts := StartedRun(p, p1, p2, rest, none, b);
    ScanMisses(p2, rest, p.pollCursor, id);
    FirstQueriesNothing(p1, Advance(0), p2, rest, id);
    FirstQueriesNothing(p, Enter(0, b), p1, [Advance(0)] + rest, id);
  }

  /** Nothing is recorded for an index beyond the pool. */
  lemma NoSuchSlot(p: Pool, none: SlotId)
    requires Inv(p) && none.stream in p.ids && none.index >= p.k
    ensures AllComplete(p, none)
  {
    forall j | 0 <= j < |p.queue[none.stream]| ensures p.queue[none.stream][j].index != none.index {
      assert RecOk(p, none.stream, j);
    }
  }

  // ---- A reachable pool with a missed pending slot ----

  /** From the last cursor value every slot but the last is visited. */
  lemma LastIsMissed(p: Pool, n: nat)
    requires n >= 1 && p.ids == Streams(n) && p.k >= 1 && n * p.k <= U64 && U64 % (n * p.k) != 0
    ensures Missed(p, U64 - 1, SlotId(n - 1, p.k - 1))
  {
    var total, s := n * p.k, U64 - 1;
    assert total >= 1 by { MulMonotone(1, n, p.k); }
    forall o: nat | o < total ensures PollTarget(p.ids, p.k, s, o) != SlotId(n - 1, p.k - 1) {
      LastScan(total, o, U64);
      NotTheLast(p, n, Visit(s, o, total, U64));
    }
  }

  lemma NotTheLast(p: Pool, n: nat, flat: nat)
    requires n >= 1 && p.k >= 1 && p.ids == Streams(n) && flat < n * p.k - 1
    ensures flat / p.k < n && SlotId(p.ids[flat / p.k], flat % p.k) != SlotId(n - 1, p.k - 1)
  {
    DivBound(flat, p.k, n);
    assert flat == p.k * (flat / p.k) + flat % p.k;
    assert p.k * (n - 1) + (p.k - 1) == n * p.k - 1;
  }

  lemma EmptyIsFree(p: Pool)
    requires Inv(p) && (forall st :: st in p.queue ==> p.queue[st] == []) && forall t :: 0 <= t < |p.subs| ==> p.subs[t].Idle?
    ensures forall id :: id in p.slots ==> p.slots[id].phase == FREE
  {
    forall id | id in p.slots ensures p.slots[id].phase == FREE { assert SlotOk(p, id); }
  }

  lemma StillEmpty(p: Pool, p': Pool)
    requires Inv(p') && ByPoller(p, p') && (forall st :: st in p.queue ==> p.queue[st] == [])
    requires |p.subs| >= 1 && forall t :: 0 <= t < |p.subs| ==> p.subs[t].Idle?
    requires forall st :: st in p.ids ==> st in p.cursors && p.cursors[st] == 0
    ensures forall st :: st in p'.ids ==> Filling(p', st, 0, 0)
  {
    forall st | st in p'.queue ensures p'.queue[st] == [] { assert |p'.queue[st]| == |p.queue[st]|; }
    EmptyIsFree(p');
    forall st, i: nat | st in p'.ids && i < p'.k ensures SlotId(st, i) in p'.slots { assert HasId(p', SlotId(st, i)); }
  }

  lemma ReachesOn(p: Pool, acts: seq<Action>, p': Pool)
    requires Reachable(p) && IsRun(p, acts) && Exec(p, acts) == p'
    ensures Reachable(p')
  {
    var p0, before :| Init(p0) && IsRun(p0, before) && Exec(p0, before) == p;
    RunJoin(p0, before, acts);
  }

  /** Polling a fresh pool moves the poll cursor to its last value. */
  lemma ToLastCursor(n: nat, k: nat) returns (p: Pool)
    requires n >= 1 && k >= 1
    ensures Reachable(p) && Filling(p, n - 1, 0, 0)
    ensures !p.polling && p.pollCursor == U64 - 1 && p.ids == Streams(n) && p.k == k && |p.polls| == 1
  {
    StartIsInit(n, k);
    var p0 := Start(n, k);
    assert p0.ids[n - 1] == n - 1;
    TotalPositive(p0);
    var acts;
    acts, p := WholePolls(p0, SlotId(n - 1, 0), U64 - 1);
    SmallMod(U64 - 1, U64);
    StillEmpty(p0, p);
  }

  lemma {:induction false} SubmittersLeave(p: Pool, acts: seq<Action>)
    requires IsRun(p, acts) && forall i :: 0 <= i < |acts| ==> OfSubmitter(acts[i])
    ensures BySubmitter(p, Exec(p, acts))
    decreases |acts|
  {
    if acts != [] {
      SubmitterFrame(p, acts[0]);
      SubmittersLeave(Apply(p, acts[0]), acts[1..]);
    }
  }

  /** Then submissions fill the last stream. */
  lemma LastPending(n: nat, k: nat, total: nat) returns (p: Pool)
    requires n >= 1 && 1 <= k < U32 && total == n * k
    ensures Reachable(p) && !p.polling && p.pollCursor == U64 - 1
    ensures p.ids == Streams(n) && p.k == k && Total(p) == total && |p.polls| == 1
    ensures SlotId(n - 1, k - 1) in p.slots && p.slots[SlotId(n - 1, k - 1)].phase == PENDING
  {
    var p1 := ToLastCursor(n, k);
    var acts;
    acts, p := FillStream(p1, n - 1);
    ReachesOn(p1, acts, p);
  }

  lemma FillStream(p: Pool, st: nat) returns (acts: seq<Action>, p': Pool)
    requires Filling(p, st, 0, 0) && 1 <= p.k < U32
    ensures IsRun(p, acts) && Exec(p, acts) == p' && BySubmitter(p, p') && Filling(p', st, p.k, p.k)
  {
    var calls;
    calls, p' := FillTo(p, st, p.k);
    acts := Flat(calls);
    CallsAreRun(p, calls, 0);
    SubmittersLeave(p, acts);
  }

  /** Polls worth a round end without querying the slot. */
  ghost predicate LeavesUnqueried(p: Pool, acts: seq<Action>, id: SlotId) {
    IsRun(p, acts) && OnlyPolls(acts) && !Exec(p, acts).polling && Spent(p, acts) >= Total(p) && !Queried(p, acts, id)
  }

  lemma LastGoesUnqueried(p: Pool, n: nat, total: nat) returns (acts: seq<Action>)
    requires Reachable(p) && !p.polling && |p.polls| >= 1 && n >= 1 && p.ids == Streams(n) && p.pollCursor == U64 - 1
    requires p.k >= 1 && total == Total(p) && 1 <= total < U32 && U64 % total != 0
    ensures LeavesUnqueried(p, acts, SlotId(n - 1, p.k - 1))
  {
    ReachableInv(p);
    LastIsMissed(p, n);
    assert p.ids[n - 1] == n - 1;
    acts := PollMisses(p, SlotId(n - 1, p.k - 1), total);
  }

  /** For every number of slots that does not divide 2^64 the code reaches a pool in which a poll whose
      budget is the number of slots does not query a pending slot. */
  lemma SkewedPollMisses(n: nat, k: nat, total: nat) returns (p: Pool, acts: seq<Action>, id: SlotId)
    requires n >= 1 && 1 <= k <= total && total == n * k < U32 && U64 % total != 0
    ensures Reachable(p) && |p.ids| == n && p.k == k && !p.polling && id in p.slots && p.slots[id].phase == PENDING
    ensures LeavesUnqueried(p, acts, id)
  {
    p := LastPending(n, k, total);
    id := SlotId(n - 1, k - 1);
    assert id == SlotId(n - 1, p.k - 1);
    acts := LastGoesUnqueried(p, n, total);
    assert LeavesUnqueried(p, acts, id);
  }

  lemma Sizes(n: nat, k: nat)
    requires n >= 1 && k >= 1
    ensures n * k >= 1 && n * k >= k
  {
    MulMonotone(1, n, k);
  }

  // ---- The exact condition ----

  lemma PollerCursor(p: Pool, a: Action)
    requires Shape(p) && Enabled(p, a) && OfPoller(a) && p.pollCursor < U64
    ensures Apply(p, a).pollCursor < U64
  {}

  lemma {:induction false} CursorBounded(p: Pool, acts: seq<Action>)
    requires IsRun(p, acts) && p.pollCursor < U64
    ensures Exec(p, acts).pollCursor < U64
    decreases |acts|
  {
    if acts != [] {
      var a := acts[0];
      if OfSubmitter(a) { SubmitterFrame(p, a); } else if OfPoller(a) { PollerCursor(p, a); } else { WorldFrame(p, a); }
      CursorBounded(Apply(p, a), acts[1..]);
    }
  }

  ghost predicate RoundQueries(p: Pool, acts: seq<Action>, id: SlotId) {
    id in p.slots && p.slots[id].phase == PENDING && IsRun(p, acts) && !Exec(p, acts).polling && Spent(p, acts) >= Total(p) ==>
      Queried(p, acts, id)
  }

  /** In every reachable idle pool of `n` streams with `k` slots, polls whose budgets add up to the number
      of slots query every slot that was pending when they began. */
  ghost predicate RoundIsEnough(n: nat, k: nat) {
    forall p, acts, id :: Reachable(p) && |p.ids| == n && p.k == k && !p.polling ==> RoundQueries(p, acts, id)
  }

  lemma EvenRoundQueries(p: Pool, acts: seq<Action>, id: SlotId)
    requires Reachable(p) && !p.polling && Total(p) >= 1 && U64 % Total(p) == 0
    ensures RoundQueries(p, acts, id)
  {
    ReachableInv(p);
    var p0, before :| Init(p0) && IsRun(p0, before) && Exec(p0, before) == p;
    CursorBounded(p0, before);
    if !RoundQueries(p, acts, id) { EveryPendingSlotIsQueried(p, acts, id); }
  }

  /** One round is enough, in every reachable state, if and only if the number of slots divides 2^64. */
  lemma RoundExact(n: nat, k: nat)
    requires n >= 1 && k >= 1 && n * k < U32
    ensures n * k >= 1 && (RoundIsEnough(n, k) <==> 0x1_0000_0000_0000_0000 % (n * k) == 0)
  {
    Sizes(n, k);
    if U64 % (n * k) == 0 {
      forall p, acts, id | Reachable(p) && |p.ids| == n && p.k == k && !p.polling ensures RoundQueries(p, acts, id) {
        EvenRoundQueries(p, acts, id);
      }
    } else {
      var p, acts, id := SkewedPollMisses(n, k, n * k);
      assert !RoundQueries(p, acts, id);
    }
  }
}
