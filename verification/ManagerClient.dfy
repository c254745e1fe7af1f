/** A client of the checkpoint manager: what one submission looks like from its call to its confirmation. */
module ManagerClient {
  import opened FlightEvents
  import opened CheckpointPool
  import opened SubmitCall
  import opened PollCall
  import opened CheckpointManager

  predicate NonePending(p: Pool) {
    forall d :: d in p.slots ==> p.slots[d].phase != PENDING
  }

  /** A poll that finds nothing pending changes neither slots nor log. */
  lemma {:induction false} IdlePoll(p: Pool, answers: nat -> int)
    requires CanScan(p, answers) && NonePending(p)
    ensures AfterPoll(p, answers).log == p.log && AfterPoll(p, answers).slots == p.slots
    decreases Total(p) - p.polls[0].offset
  {
    if MoreToScan(p) {
      TurnTarget(p, PollTarget(p.ids, p.k, p.polls[0].start, p.polls[0].offset));
      TurnKeeps(p, answers);
      IdlePoll(AfterTurn(p, answers(p.polls[0].offset)), answers);
    }
  }

  /** Slot `id` is the next to be examined and the only pending one. */
  ghost predicate OnlyNextPending(p: Pool, id: SlotId) {
    && |p.polls| == 1 && p.k >= 1 && |p.ids| >= 1 && id == PollTarget(p.ids, p.k, p.polls[0].start, p.polls[0].offset)
    && id in p.slots && id.stream in p.queue && p.slots[id].phase == PENDING
    && forall d :: d in p.slots && d != id ==> p.slots[d].phase != PENDING
  }

  /** A poll whose next slot is the only pending one, answered 1, confirms that slot's submission alone. */
  lemma PollConfirms(p: Pool, answers: nat -> int, id: SlotId)
    requires CanScan(p, answers) && MoreToScan(p) && OnlyNextPending(p, id) && answers(p.polls[0].offset) == 1
    ensures AfterPoll(p, answers).log == p.log + AnswerLines(id, p.slots[id], 1)
    ensures AfterPoll(p, answers).slots == p.slots[id := p.slots[id].(phase := FREE)]
  {
    TurnTarget(p, id);
    TurnKeeps(p, answers);
    IdlePoll(AfterAnswer(p, 0, id, 1), answers);
  }

  // ---- One submission ----

  /** A manager of one stream that nobody has used. */
  predicate Unused(p: Pool, st: nat) {
    && p.ids == [st] && p.k >= 1 && st in p.cursors && p.cursors[st] == 0 && p.pollCursor == 0 && p.log == [] && |p.subs| == 1
    && st in p.queue && p.queue[st] == [] && st in p.done && p.done[st] == 0
    && (forall i: nat :: i < p.k ==> SlotId(st, i) in p.slots)
    && (forall d :: d in p.slots ==> p.slots[d] == FRESH_SLOT)
  }

  /** Its first submission goes to slot 0. */
  lemma FirstSubmission(p: Pool, p': Pool, st: nat, sseq: nat, cid: nat, n: nat, rc: int, gen: nat)
    requires Unused(p, st) && Submitted(p, p', st, sseq, cid, 0, n, rc, gen)
    ensures rc == 0 && gen == 1 && n == 0 && ProbedId(p, st, 0) == SlotId(st, 0) && p' == AfterSubmit(p, 0, st, sseq, cid, 0)
  {
    assert ProbedId(p, st, 0) == SlotId(st, 0) && p.slots[SlotId(st, 0)].phase == FREE;
  }

  /** The submission of an unused manager is on the device, which may have reached it. */
  predicate OneSubmitted(p: Pool, st: nat, sseq: nat, cid: nat, reached: nat) {
    && p.ids == [st] && p.k >= 1 && p.pollCursor == 0 && SlotId(st, 0) in p.slots
    && st in p.queue && |p.queue[st]| == 1 && st in p.done && p.done[st] == reached
    && p.slots[SlotId(st, 0)].phase == PENDING && p.slots[SlotId(st, 0)].generation == 1
    && p.slots[SlotId(st, 0)].submittedSeq == sseq && p.slots[SlotId(st, 0)].checkpointId == cid
    && (forall d :: d in p.slots && d != SlotId(st, 0) ==> p.slots[d].phase == FREE)
    && p.log == [Call(CHECKPOINT, st, cid, sseq, 1, SUBMITTED)]
  }

  lemma SubmittedOne(p: Pool, st: nat, sseq: nat, cid: nat)
    requires Unused(p, st) && ProbedId(p, st, 0) == SlotId(st, 0)
    ensures OneSubmitted(AfterSubmit(p, 0, st, sseq, cid, 0), st, sseq, cid, 0)
  {}

  /** A backend whose query always answers complete. */
  function Complete(offset: nat): int {
    1
  }

  lemma HonestOnceReached(p: Pool, st: nat, sseq: nat, cid: nat)
    requires OneSubmitted(p, st, sseq, cid, 1)
    ensures Honest(p, 0, Complete)
  {
    forall o: nat ensures AllComplete(p, PollTarget(p.ids, p.k, 0, o)) {
      assert PollTarget(p.ids, p.k, 0, o).stream == st;
    }
  }

  lemma PollOfOne(p: Pool, st: nat, sseq: nat, cid: nat, budget: nat)
    requires OneSubmitted(p, st, sseq, cid, 1) && |p.polls| == 1 && budget >= 1 && CanScan(Started(p, 0, budget), Complete)
    ensures AfterPoll(Started(p, 0, budget), Complete).log == p.log + [Call(DEVICE_CONFIRMED, st, cid, sseq, 1, 0)]
  {
    var p1, id := Started(p, 0, budget), SlotId(st, 0);
    assert PollTarget(p1.ids, p1.k, 0, 0) == id;
    PollConfirms(p1, Complete, id);
  }

  method NewWithStream(slotsPerStream: nat, st: nat) returns (m: Manager)
    requires 1 <= slotsPerStream <= 1024
    ensures fresh(m) && m.Valid() && Unused(m.Abs(), st)
  {
    var made := Manager.Create(true, slotsPerStream);
    m := made;
    var rc, undone := m.RegisterStream(st, i => 0);
  }

  method SubmitFirst(m: Manager, st: nat, sseq: nat, cid: nat) returns (gen: nat)
    requires m.Valid() && Unused(m.Abs(), st) && sseq != 0
    modifies m
    ensures m.Valid() && OneSubmitted(m.Abs(), st, sseq, cid, 0) && gen == 1
  {
    ghost var p := m.Abs();
    var rc;
    ghost var n, acts;
    rc, gen, n, acts := m.Submit(st, sseq, cid, 0);
    FirstSubmission(p, m.Abs(), st, sseq, cid, n, rc, gen);
    SubmittedOne(p, st, sseq, cid);
  }

  method Reach(m: Manager, st: nat, sseq: nat, cid: nat)
    requires m.Valid() && OneSubmitted(m.Abs(), st, sseq, cid, 0)
    modifies m
    ensures m.Valid() && OneSubmitted(m.Abs(), st, sseq, cid, 1)
  {
    m.Complete(st);
  }

  method ReachAndPoll(m: Manager, st: nat, sseq: nat, cid: nat, budget: nat) returns (completed: nat)
    requires m.Valid() && OneSubmitted(m.Abs(), st, sseq, cid, 0) && 1 <= budget < U32
    modifies m
    ensures m.Valid() && completed == 1
    ensures m.log == [Call(CHECKPOINT, st, cid, sseq, 1, SUBMITTED), Call(DEVICE_CONFIRMED, st, cid, sseq, 1, 0)]
  {
    Reach(m, st, sseq, cid);
    ghost var p := m.Abs();
    HonestOnceReached(p, st, sseq, cid);
    ghost var acts;
    completed, acts := m.Poll(budget, Complete);
    PollOfOne(p, st, sseq, cid, budget);
    assert m.log[1..] == [Call(DEVICE_CONFIRMED, st, cid, sseq, 1, 0)];
  }

  /** Create, register, submit, let the device reach the event, poll: the submission gets generation 1,
      the poll reports one completion, and the log holds its two lines. */
  method SubmitAndConfirm(slotsPerStream: nat, st: nat, sseq: nat, cid: nat, budget: nat)
    returns (m: Manager, gen: nat, completed: nat)
    requires 1 <= slotsPerStream <= 1024 && sseq != 0 && 1 <= budget < U32
    ensures fresh(m) && m.Valid() && gen == 1 && completed == 1
    ensures m.log == [Call(CHECKPOINT, st, cid, sseq, 1, SUBMITTED), Call(DEVICE_CONFIRMED, st, cid, sseq, 1, 0)]
  {
    m := NewWithStream(slotsPerStream, st);
    gen := SubmitFirst(m, st, sseq, cid);
    completed := ReachAndPoll(m, st, sseq, cid, budget);
  }
}
