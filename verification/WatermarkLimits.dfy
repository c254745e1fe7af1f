/** What the recording guard costs callers: without it only pools with one slot per stream have truthful
    reports, and neither half of the callers' discipline is enough for any other. */
module WatermarkLimits {
  import opened CheckpointPool
  import opened PoolInvariant
  import opened PoolTheorems
  import opened SubmitCall
  import opened SmallPool
  import opened ConfirmDriver
  import opened Watermark
  import opened Discipline
  import opened WatermarkExact

  predicate NoBegin(acts: seq<Action>) {
    forall i :: 0 <= i < |acts| ==> !acts[i].Begin?
  }

  /** Every submission of the run has its own submitted_seq. */
  predicate NumbersOnce(acts: seq<Action>) {
    forall i, j :: 0 <= i < j < |acts| && acts[i].Begin? && acts[j].Begin? ==> acts[i].sseq != acts[j].sseq
  }

  /** Every submission of the run is the same call of the same thread. */
  predicate OnlyCalls(acts: seq<Action>, begin: Action) {
    forall i :: 0 <= i < |acts| && acts[i].Begin? ==> acts[i] == begin
  }

  /** A run up to a recording the guard forbids goes on to an untruthful report without a new call. */
  lemma GoesWrong(p0: Pool, acts: seq<Action>, p: Pool, t: nat) returns (rest: seq<Action>)
    requires IsRun(p0, acts) && Exec(p0, acts) == p && Inv(p)
    requires Enabled(p, RecordOk(t)) && !RecordGuard(p, t) && |p.polls| >= 1 && Total(p) <= U64
    ensures IsRun(p0, acts + rest) && !Truthful(Exec(p0, acts + rest)) && NoBegin(rest)
  {
    var p1, more := RecordsWrongly(p, t);
    rest := StepThenRun(p0, acts, p, RecordOk(t), p1, more);
    CalmAfter(RecordOk(t), more);
  }

  lemma RecordsWrongly(p: Pool, t: nat) returns (p1: Pool, more: seq<Action>)
    requires Inv(p) && Enabled(p, RecordOk(t)) && !RecordGuard(p, t) && |p.polls| >= 1 && Total(p) <= U64
    ensures Apply(p, RecordOk(t)) == p1 && IsRun(p1, more) && !Truthful(Exec(p1, more)) && Calm(more)
  {
    p1 := DoRecordOk(p, t);
    more := ForbiddenMisleads(p, t);
  }

  lemma CalmAfter(a: Action, more: seq<Action>)
    requires Calm(more) && !a.Begin?
    ensures NoBegin([a] + more)
  {}

  lemma StepThenRun(p0: Pool, acts: seq<Action>, p: Pool, a: Action, p1: Pool, more: seq<Action>) returns (rest: seq<Action>)
    requires IsRun(p0, acts) && Exec(p0, acts) == p && Shape(p) && Enabled(p, a) && Apply(p, a) == p1 && IsRun(p1, more)
    ensures rest == [a] + more && IsRun(p0, acts + rest) && Exec(p0, acts + rest) == Exec(p1, more)
  {
    rest := [a] + more;
    assert rest[1..] == more;
    RunJoin(p0, acts, rest);
  }

  // ---- Two submitters on one stream ----

  lemma FirstProbe(k: nat)
    requires k >= 2
    ensures ProbedId(Start(1, k), 0, 0) == SlotId(0, 0)
  {}

  /** A cursor at 1 makes the next submission try slot 1 first. */
  lemma SecondProbe(p: Pool)
    requires p.k >= 2 && 0 in p.cursors && p.cursors[0] == 1
    ensures ProbedId(p, 0, 0) == SlotId(0, 1)
  {
    assert 1 % U32 % p.k == 1;
  }

  /** Slot 0 is in use, slot 1 is not, and the cursor points at it. */
  predicate NextIsSecond(p: Pool, k: nat) {
    && p.ids == [0] && p.k == k && p.cursors == map[0 := 1] && |p.polls| == 1 && |p.subs| == 2
    && SlotId(0, 1) in p.slots && p.slots[SlotId(0, 1)] == FRESH_SLOT && 0 in p.queue && |p.queue[0]| == 1
  }

  lemma SecondIsFree(p: Pool, k: nat, t: nat, sseq: nat)
    requires k >= 2 && NextIsSecond(p, k) && Inv(p) && t < 2 && p.subs[t].Idle? && sseq != 0
    ensures FoundFree(p, t, 0, sseq, 0)
  {
    SecondProbe(p);
  }

  /** Thread `t`, in slot 1, is about to record behind the one recording of the stream. */
  lemma SecondForbidden(p: Pool, k: nat, t: nat, sseq: nat, cid: nat, p': Pool)
    requires k >= 2 && NextIsSecond(p, k) && t < 2 && p' == AfterStores(p, t, 0, sseq, cid, 0) && Shape(p')
    requires var r := p.queue[0][0]; r.line < 0 || (r.sseq == sseq && r.cid == cid && r.gen == 1)
    ensures Enabled(p', RecordOk(t)) && !RecordGuard(p', t) && Total(p') == k && |p'.polls| == 1
  {
    SecondProbe(p);
    assert p'.subs[t] == Owning(0, sseq, cid, 1, 1, IdStored) && p'.queue[0] == p.queue[0];
    assert !Behind(p'.subs[t], p'.queue[0][0]);
  }

  /** Thread 0 has recorded and not yet logged. */
  function Held(k: nat): Pool
    requires k >= 2
  {
    AfterRecord(Start(1, k), 0, 0, 10, 1, 0)
  }

  lemma HeldNext(k: nat)
    requires k >= 2
    ensures NextIsSecond(Held(k), k) && Held(k).subs[1].Idle? && Held(k).queue[0][0].line < 0
  {
    FirstProbe(k);
  }

  lemma HeldIsRun(k: nat) returns (acts: seq<Action>, p: Pool)
    requires k >= 2
    ensures IsRun(Start(1, k), acts) && Exec(Start(1, k), acts) == p && Inv(p) && OneCall(acts, Begin(0, 0, 10, 1))
    ensures NextIsSecond(p, k) && p.subs[1].Idle? && p.queue[0][0].line < 0
  {
    StartIsInit(1, k);
    FirstProbe(k);
    acts := RecordIsRun(Start(1, k), 0, 0, 10, 1, 0);
    p := Held(k);
    HeldNext(k);
  }

  /** From there to the moment before the second recording. */
  lemma ToSecond(k: nat, acts: seq<Action>, p: Pool, t: nat, sseq: nat, cid: nat) returns (more: seq<Action>, p': Pool)
    requires k >= 2 && IsRun(Start(1, k), acts) && Exec(Start(1, k), acts) == p && NextIsSecond(p, k) && Inv(p)
    requires t < 2 && p.subs[t].Idle? && sseq != 0
    requires var r := p.queue[0][0]; r.line < 0 || (r.sseq == sseq && r.cid == cid && r.gen == 1)
    ensures IsRun(Start(1, k), acts + more) && Exec(Start(1, k), acts + more) == p' && Inv(p') && OneCall(more, Begin(t, 0, sseq, cid))
    ensures Enabled(p', RecordOk(t)) && !RecordGuard(p', t) && Total(p') == k && |p'.polls| == 1
  {
    SecondIsFree(p, k, t, sseq);
    more := StoresAreRun(p, t, 0, sseq, cid, 0);
    p' := AfterStores(p, t, 0, sseq, cid, 0);
    RunJoin(Start(1, k), acts, more);
    SecondForbidden(p, k, t, sseq, cid, p');
  }

  lemma TwoNumbers(a: seq<Action>, b: seq<Action>, rest: seq<Action>, x: Action, y: Action)
    requires OneCall(a, x) && OneCall(b, y) && NoBegin(rest) && x.Begin? && y.Begin? && x.sseq != y.sseq
    ensures NumbersOnce(a + b + rest)
  {}

  lemma OneNumber(a: seq<Action>, b: seq<Action>, rest: seq<Action>, x: Action)
    requires OneCall(a, x) && OneCall(b, x) && NoBegin(rest)
    ensures OnlyCalls(a + b + rest, x)
  {}

  /** Two threads submit to one stream, every submitted_seq is used once: the thread that records second
      logs first, and the confirmation of the other, logged later, marks its checkpoint confirmed. This
      happens for every slots_per_stream above 1. */
  lemma OverlapMisleads(k: nat) returns (p0: Pool, acts: seq<Action>)
    requires 2 <= k <= U64
    ensures Init(p0) && p0.k == k && IsRun(p0, acts) && NumbersOnce(acts) && !Truthful(Exec(p0, acts))
  {
    StartIsInit(1, k);
    p0 := Start(1, k);
    var a, p1 := HeldIsRun(k);
    var b, p2 := ToSecond(k, a, p1, 1, 11, 2);
    var rest := GoesWrong(p0, a + b, p2, 1);
    TwoNumbers(a, b, rest, Begin(0, 0, 10, 1), Begin(1, 0, 11, 2));
    acts := a + b + rest;
  }

  // ---- A pair used twice ----

  /** Thread 0 has completed its submission. */
  function Once(k: nat): Pool
    requires k >= 2
  {
    AfterSubmit(Start(1, k), 0, 0, 10, 1, 0)
  }

  lemma OnceNext(k: nat)
    requires k >= 2
    ensures NextIsSecond(Once(k), k) && Once(k).subs[0].Idle?
    ensures var r := Once(k).queue[0][0]; r.sseq == 10 && r.cid == 1 && r.gen == 1
  {
    FirstProbe(k);
  }

  lemma OnceIsRun(k: nat) returns (acts: seq<Action>, p: Pool)
    requires k >= 2
    ensures IsRun(Start(1, k), acts) && Exec(Start(1, k), acts) == p && Inv(p) && OneCall(acts, Begin(0, 0, 10, 1))
    ensures NextIsSecond(p, k) && p.subs[0].Idle?
    ensures var r := p.queue[0][0]; r.sseq == 10 && r.cid == 1 && r.gen == 1
  {
    StartIsInit(1, k);
    FirstProbe(k);
    acts := SubmitIsRun(Start(1, k), 0, 0, 10, 1, 0);
    p := Once(k);
    OnceNext(k);
  }

  /** One thread, one call after the other, submits the same submitted_seq under the same checkpoint_id
      again: two slots give both recordings generation 1, and the confirmation of the first marks the
      second confirmed exactly. This happens for every slots_per_stream above 1. */
  lemma ReusedPairMisleads(k: nat) returns (p0: Pool, acts: seq<Action>)
    requires 2 <= k <= U64
    ensures Init(p0) && p0.k == k && IsRun(p0, acts) && OnlyCalls(acts, Begin(0, 0, 10, 1)) && !Truthful(Exec(p0, acts))
  {
    StartIsInit(1, k);
    p0 := Start(1, k);
    var a, p1 := OnceIsRun(k);
    var b, p2 := ToSecond(k, a, p1, 0, 10, 1);
    var rest := GoesWrong(p0, a + b, p2, 0);
    OneNumber(a, b, rest, Begin(0, 0, 10, 1));
    acts := a + b + rest;
  }

  // ---- Exactly one slot ----

  ghost predicate TruthfulAfter(p0: Pool, acts: seq<Action>) {
    IsRun(p0, acts) ==> Truthful(Exec(p0, acts))
  }

  /** With `k` slots per stream every run of every pool has truthful reports, in every retained window. */
  ghost predicate AlwaysTruthful(k: nat) {
    forall p0, acts :: Init(p0) && p0.k == k ==> TruthfulAfter(p0, acts)
  }

  /** Callers need no discipline at all if and only if there is one slot per stream. */
  lemma OneSlotIsExact(k: nat)
    requires 1 <= k <= U64
    ensures AlwaysTruthful(k) <==> k == 1
  {
    if k == 1 {
      forall p0, acts | Init(p0) && p0.k == k ensures TruthfulAfter(p0, acts) {
        if IsRun(p0, acts) { OneSlotIsTruthful(p0, acts); }
      }
    } else {
      var p0, acts := OverlapMisleads(k);
      assert !TruthfulAfter(p0, acts);
    }
  }
}
