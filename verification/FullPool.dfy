/** When does EAGAIN mean that the pool is full? The scan of submit wraps at 2^32, so the answer depends
    on slots_per_stream and on nothing else. */
module FullPool {
  import opened ModArith
  import opened ScanOrder
  import opened CheckpointPool
  import opened PoolInvariant
  import opened PoolTheorems
  import opened SubmitCall
  import opened SmallPool

  // ---- A run that moves the cursor to the wrap ----

  /** Thread 0 is idle, the cursor of stream `st` stands at `c`, its slots below `j` are pending, the
      others free. */
  predicate Taken(p: Pool, st: nat, c: nat, j: nat) {
    && st in p.ids && |p.subs| >= 1 && p.subs[0].Idle? && st in p.cursors && p.cursors[st] == c && st in p.queue
    && forall i: nat :: i < p.k ==> SlotId(st, i) in p.slots && p.slots[SlotId(st, i)].phase == (if i < j then PENDING else FREE)
  }

  ghost predicate Filling(p: Pool, st: nat, c: nat, j: nat) {
    Inv(p) && Taken(p, st, c, j)
  }

  /** `p` leads to `p'` by complete calls of submit of thread 0, one after the other. */
  ghost predicate ByCalls(p: Pool, calls: seq<seq<Action>>, p': Pool) {
    CallsInARow(p, calls, 0) && AfterCalls(p, calls, 0) == p' && p'.k == p.k
  }

  lemma ByCallsJoin(p: Pool, a: seq<seq<Action>>, p1: Pool, b: seq<seq<Action>>, p2: Pool)
    requires ByCalls(p, a, p1) && ByCalls(p1, b, p2)
    ensures ByCalls(p, a + b, p2)
  {
    CallsJoin(p, a, b, 0);
  }

  lemma OneByCall(p: Pool, acts: seq<Action>, p': Pool, begin: Action)
    requires Calls(p, acts, p', begin) && begin.t == 0 && |p'.subs| >= 1 && p'.subs[0].Idle? && p'.k == p.k
    ensures ByCalls(p, [acts], p')
  {
    CallEnds(p, acts, p', begin);
    assert [acts][1..] == [] && AfterCalls(p', [], 0) == p';
  }

  /** An accepted submission takes the next slot. */
  lemma FillsNext(p: Pool, st: nat, j: nat)
    requires Taken(p, st, j, j) && j < p.k <= U32 && j + 1 < U32
    ensures ProbedId(p, st, 0) == SlotId(st, j) && Taken(AfterSubmit(p, 0, st, 1, 1, 0), st, j + 1, j + 1)
  {
    SmallMod(j, U32);
    SmallMod(j, p.k);
    SmallMod(j + 1, U32);
  }

  lemma FillOne(p: Pool, st: nat, j: nat) returns (calls: seq<seq<Action>>, p': Pool)
    requires Filling(p, st, j, j) && j < p.k <= U32 && j + 1 < U32
    ensures ByCalls(p, calls, p') && Filling(p', st, j + 1, j + 1)
  {
    FillsNext(p, st, j);
    var acts := SubmitIsRun(p, 0, st, 1, 1, 0);
    p' := AfterSubmit(p, 0, st, 1, 1, 0);
    calls := [acts];
    OneByCall(p, acts, p', Begin(0, st, 1, 1));
  }

  /** With all slots of a stream free, submissions fill the first `j`. */
  lemma {:induction false} FillTo(p: Pool, st: nat, j: nat) returns (calls: seq<seq<Action>>, p': Pool)
    requires Filling(p, st, 0, 0) && j <= p.k <= U32 && j < U32
    ensures ByCalls(p, calls, p') && Filling(p', st, j, j)
    decreases j
  {
    if j == 0 {
      calls, p' := [], p;
    } else {
      var a, p1 := FillTo(p, st, j - 1);
      var b;
      b, p' := FillOne(p1, st, j - 1);
      ByCallsJoin(p, a, p1, b, p');
      calls := a + b;
    }
  }

  /** The probe at which submit stops, and whether it found a free slot there. */
  lemma FirstFree(p: Pool, st: nat, from: nat) returns (n: nat)
    requires Inv(p) && st in p.ids && from <= p.k && NoneFree(p, st, from)
    ensures n <= p.k && NoneFree(p, st, n)
    ensures n < p.k ==> ProbedId(p, st, n) in p.slots && p.slots[ProbedId(p, st, n)].phase == FREE
    decreases p.k - from
  {
    if from == p.k {
      n := from;
    } else {
      assert HasId(p, ProbedId(p, st, from));
      if p.slots[ProbedId(p, st, from)].phase == FREE { n := from; } else { n := FirstFree(p, st, from + 1); }
    }
  }

  lemma FullMoves(p: Pool, st: nat, c: nat, j: nat)
    requires Taken(p, st, c, j) && c + 1 < U32
    ensures Taken(AfterFull(p, st, 1, 1), st, c + 1, j)
  {
    SmallMod(c + 1, U32);
  }

  lemma FailureMoves(p: Pool, st: nat, c: nat, j: nat, n: nat)
    requires Taken(p, st, c, j) && c + 1 < U32 && p.k >= 1 && j <= p.k
    requires ProbedId(p, st, n) in p.slots && p.slots[ProbedId(p, st, n)].phase == FREE
    ensures Taken(AfterFailure(p, 0, st, 1, 1, n), st, c + 1, j)
  {
    SmallMod(c + 1, U32);
  }

  /** A submission that the backend refuses, or that meets no free slot, moves the cursor only. */
  lemma RefusalMovesCursor(p: Pool, st: nat, c: nat, j: nat) returns (calls: seq<seq<Action>>, p': Pool)
    requires Filling(p, st, c, j) && c + 1 < U32 && j <= p.k
    ensures ByCalls(p, calls, p') && Filling(p', st, c + 1, j)
  {
    var n := FirstFree(p, st, 0);
    var acts;
    if n == p.k {
      FullMoves(p, st, c, j);
      acts := FullIsRun(p, 0, st, 1, 1);
      p' := AfterFull(p, st, 1, 1);
    } else {
      FailureMoves(p, st, c, j, n);
      acts := FailureIsRun(p, 0, st, 1, 1, n);
      p' := AfterFailure(p, 0, st, 1, 1, n);
    }
    calls := [acts];
    OneByCall(p, acts, p', Begin(0, st, 1, 1));
  }

  lemma {:induction false} MoveCursor(p: Pool, st: nat, c: nat, j: nat, n: nat) returns (calls: seq<seq<Action>>, p': Pool)
    requires Filling(p, st, c, j) && c + n < U32 && j <= p.k
    ensures ByCalls(p, calls, p') && Filling(p', st, c + n, j)
    decreases n
  {
    if n == 0 {
      calls, p' := [], p;
    } else {
      var a, p1 := RefusalMovesCursor(p, st, c, j);
      var b;
      b, p' := MoveCursor(p1, st, c + 1, j, n - 1);
      ByCallsJoin(p, a, p1, b, p');
      calls := a + b;
    }
  }

  // ---- The scan from the last cursor ----

  lemma NothingFound(p: Pool, st: nat)
    requires 1 <= p.k <= U32 && U32 % p.k != 0 && Filling(p, st, U32 - 1, p.k - 1)
    ensures NoneFree(p, st, p.k)
  {
    forall m: nat | m < p.k ensures ProbedId(p, st, m) in p.slots && p.slots[ProbedId(p, st, m)].phase != FREE {
      LastScan(p.k, m, U32);
    }
  }

  ghost predicate AllTaken(p: Pool, st: nat) {
    forall i: nat :: i < p.k ==> SlotId(st, i) in p.slots && p.slots[SlotId(st, i)].phase != FREE
  }

  /** For every slots_per_stream that does not divide 2^32, complete calls of one thread lead to a pool
      whose last slot is free and whose next submission, one more complete call of that thread, scans from
      cursor 2^32 - 1 and is nevertheless told EAGAIN. */
  lemma SpuriousEagain(k: nat) returns (p0: Pool, calls: seq<seq<Action>>, p: Pool, last: seq<Action>)
    requires 1 <= k <= U32 && U32 % k != 0
    ensures Init(p0) && p0.k == k && ByCalls(p0, calls, p) && Filling(p, 0, U32 - 1, k - 1) && NoneFree(p, 0, k)
    ensures Calls(p, last, AfterFull(p, 0, 1, 1), Begin(0, 0, 1, 1)) && IsCall(p, last, 0)
  {
    StartIsInit(1, k);
    p0 := Start(1, k);
    var a, p1 := FillTo(p0, 0, k - 1);
    var b;
    b, p := MoveCursor(p1, 0, k - 1, k - 1, U32 - k);
    ByCallsJoin(p0, a, p1, b, p);
    calls := a + b;
    NothingFound(p, 0);
    last := FullIsRun(p, 0, 0, 1, 1);
    CallEnds(p, last, AfterFull(p, 0, 1, 1), Begin(0, 0, 1, 1));
  }

  /** The smallest case: three slots, of which the scan visits 0, 0 and 1. */
  lemma SkewedSubmitExample() returns (p: Pool, last: seq<Action>)
    ensures Reachable(p) && p.k == 3 && 0 in p.cursors && p.cursors[0] == 0xFFFF_FFFF
    ensures SlotId(0, 0) in p.slots && p.slots[SlotId(0, 0)].phase == PENDING
    ensures SlotId(0, 1) in p.slots && p.slots[SlotId(0, 1)].phase == PENDING
    ensures SlotId(0, 2) in p.slots && p.slots[SlotId(0, 2)].phase == FREE
    ensures NoneFree(p, 0, 3) && Calls(p, last, AfterFull(p, 0, 1, 1), Begin(0, 0, 1, 1))
  {
    var p0, calls;
    p0, calls, p, last := SpuriousEagain(3);
    CallsAreRun(p0, calls, 0);
  }

  // ---- The exact condition ----

  /** With `k` slots per stream, a submission that nothing interrupts meets no free slot only when there
      is none, in every state the pool can reach. */
  ghost predicate EagainMeansFull(k: nat)
    requires k >= 1
  {
    forall p, st :: Reachable(p) && p.k == k && st in p.ids && st in p.cursors && NoneFree(p, st, k) ==> AllTaken(p, st)
  }

  lemma FullScan(p: Pool, st: nat)
    requires p.k >= 1 && st in p.cursors && U32 % p.k == 0 && NoneFree(p, st, p.k)
    ensures AllTaken(p, st)
  {
    forall i: nat | i < p.k ensures SlotId(st, i) in p.slots && p.slots[SlotId(st, i)].phase != FREE {
      var m := Covers(p.cursors[st], p.k, U32, i);
      assert ProbedId(p, st, m) == SlotId(st, i);
    }
  }

  lemma LastIsFree(p: Pool, st: nat)
    requires p.k >= 1 && Taken(p, st, U32 - 1, p.k - 1)
    ensures !AllTaken(p, st)
  {
    assert p.slots[SlotId(st, p.k - 1)].phase == FREE;
  }

  /** EAGAIN can be trusted if and only if slots_per_stream divides 2^32. */
  lemma EagainExact(k: nat)
    requires 1 <= k <= 0x1_0000_0000
    ensures EagainMeansFull(k) <==> 0x1_0000_0000 % k == 0
  {
    if U32 % k == 0 {
      forall p, st | Reachable(p) && p.k == k && st in p.ids && st in p.cursors && NoneFree(p, st, k) ensures AllTaken(p, st) {
        FullScan(p, st);
      }
    } else {
      var p0, calls, p, last := SpuriousEagain(k);
      CallsAreRun(p0, calls, 0);
      LastIsFree(p, 0);
      assert Reachable(p) && p.cursors[0] == U32 - 1;
    }
  }
}
