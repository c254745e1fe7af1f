/** Poll fairness, continued: an event that is ready is confirmed within one round of polls. */
module ReadyConfirmed {
  import opened FlightEvents
  import opened ScanOrder
  import opened CheckpointPool
  import opened PoolFrames
  import opened PoolInvariant
  import opened PoolTheorems
  import opened PollFairness

  /** The step asks the backend about slot `id`. */
  predicate Asks(p: Pool, a: Action, id: SlotId) {
    a.Query? && a.q < |p.polls| && p.polls[a.q].at.Loaded? && p.polls[a.q].at.id == id
  }

  /** Whenever the run asks about the slot, the backend answers complete. */
  ghost predicate ReadyThroughout(p: Pool, acts: seq<Action>, id: SlotId)
    requires IsRun(p, acts)
    decreases |acts|
  {
    acts == [] ||
    ((Asks(p, acts[0], id) ==> acts[0].rc == 1) && ReadyThroughout(Apply(p, acts[0]), acts[1..], id))
  }

  /** The line that confirms the submission which slot value `s` holds. */
  function ConfirmationOf(id: SlotId, s: Slot): Call {
    Call(DEVICE_CONFIRMED, id.stream, s.checkpointId, s.submittedSeq, s.generation, 0)
  }

  /** The confirmation has been logged behind the first `n` lines. */
  ghost predicate HasConfirmation(p: Pool, id: SlotId, s: Slot, n: nat) {
    exists i :: n <= i < |p.log| && p.log[i] == ConfirmationOf(id, s)
  }

  predicate WillConfirm(x: PollStage, id: SlotId, s: Slot) {
    || x == Claimed(id)
    || x == PollStage.Loaded(id, s.generation)
    || x == PollStage.Answered(id, s.generation, 1)
  }

  /** A poller has taken the slot and is on its way to confirm it. */
  predicate Taken(p: Pool, id: SlotId, s: Slot) {
    && p.polling && p.pollOwner < |p.polls| && WillConfirm(p.polls[p.pollOwner].at, id, s)
    && id in p.slots && p.slots[id] == s.(phase := QUERYING)
  }

  ghost predicate OnItsWay(p: Pool, id: SlotId, s: Slot, n: nat) {
    n <= |p.log| && (Taken(p, id, s) || HasConfirmation(p, id, s, n))
  }

  predicate LogKept(p: Pool, p': Pool) {
    |p.log| <= |p'.log| && p'.log[..|p.log|] == p.log
  }

  lemma LoggedStays(p: Pool, p': Pool, id: SlotId, s: Slot, n: nat)
    requires HasConfirmation(p, id, s, n) && LogKept(p, p')
    ensures HasConfirmation(p', id, s, n)
  {}

  // ---- A pending slot nobody claims ----

  lemma PollerLeavesSlot(p: Pool, a: Action, id: SlotId)
    requires Inv(p) && Enabled(p, a) && id in p.slots && p.slots[id].phase == PENDING && !Claims(p, a, id)
    requires a.Examine? || a.Report? || a.Release?
    ensures id in Apply(p, a).slots && Apply(p, a).slots[id] == p.slots[id]
  {
    assert PollOk(p, a.q);
  }

  lemma StepLogKept(p: Pool, a: Action)
    requires Shape(p) && Enabled(p, a)
    ensures LogKept(p, Apply(p, a))
  {
    StepLogs(p, a);
  }

  lemma UnclaimedStays(p: Pool, a: Action, id: SlotId)
    requires Inv(p) && Enabled(p, a) && id in p.slots && p.slots[id].phase == PENDING && !Claims(p, a, id)
    ensures id in Apply(p, a).slots && Apply(p, a).slots[id] == p.slots[id] && LogKept(p, Apply(p, a))
  {
    StepLogKept(p, a);
    if OfSubmitter(a) { SubmitterLeavesSlot(p, a, id); }
    else if a.Examine? || a.Report? || a.Release? { PollerLeavesSlot(p, a, id); }
    else { RestLeavesSlots(p, a); }
  }

  // ---- A claimed slot ----

  lemma ClaimTakes(p: Pool, a: Action, id: SlotId)
    requires Inv(p) && Enabled(p, a) && Claims(p, a, id) && id in p.slots
    ensures OnItsWay(Apply(p, a), id, p.slots[id], |p.log|)
  {
    assert PollOk(p, a.q);
  }

  /** Steps of other threads, and the poller's own load and query, keep the slot on its way. */
  lemma TakenAlone(p: Pool, a: Action, id: SlotId, s: Slot)
    requires Inv(p) && Enabled(p, a) && Taken(p, id, s) && !OfSubmitter(a)
    requires !a.Report? && !a.Examine? && !a.Release? && (Asks(p, a, id) ==> a.rc == 1)
    ensures Taken(Apply(p, a), id, s)
  {
    if OfPoller(a) { assert PollOk(p, a.q); }
  }

  /** Only the poller that holds the slot can report, and it confirms. */
  lemma TakenReports(p: Pool, a: Action, id: SlotId, s: Slot)
    requires Inv(p) && Enabled(p, a) && Taken(p, id, s) && (a.Report? || a.Examine? || a.Release?)
    ensures a.Report? && HasConfirmation(Apply(p, a), id, s, |p.log|)
  {
    assert PollOk(p, a.q);
    assert Apply(p, a).log[|p.log|] == ConfirmationOf(id, s);
  }

  lemma WayStays(p: Pool, a: Action, id: SlotId, s: Slot, n: nat)
    requires Inv(p) && Enabled(p, a) && OnItsWay(p, id, s, n) && (Asks(p, a, id) ==> a.rc == 1)
    ensures OnItsWay(Apply(p, a), id, s, n)
  {
    StepLogKept(p, a);
    if HasConfirmation(p, id, s, n) {
      LoggedStays(p, Apply(p, a), id, s, n);
    } else if OfSubmitter(a) {
      SubmitterLeavesSlot(p, a, id);
    } else if a.Report? || a.Examine? || a.Release? {
      TakenReports(p, a, id, s);
    } else {
      TakenAlone(p, a, id, s);
    }
  }

  // ---- Runs ----

  lemma {:induction false} WayEndsLogged(p: Pool, acts: seq<Action>, id: SlotId, s: Slot, n: nat)
    requires Inv(p) && IsRun(p, acts) && ReadyThroughout(p, acts, id) && OnItsWay(p, id, s, n)
    requires !Exec(p, acts).polling
    ensures HasConfirmation(Exec(p, acts), id, s, n)
    decreases |acts|
  {
    if acts != [] {
      StepKeepsInv(p, acts[0]);
      WayStays(p, acts[0], id, s, n);
      WayEndsLogged(Apply(p, acts[0]), acts[1..], id, s, n);
    }
  }

  lemma {:induction false} QueriedEndsLogged(p: Pool, acts: seq<Action>, id: SlotId, s: Slot, n: nat)
    requires Inv(p) && IsRun(p, acts) && ReadyThroughout(p, acts, id) && Queried(p, acts, id)
    requires id in p.slots && p.slots[id] == s && s.phase == PENDING && n <= |p.log|
    requires !Exec(p, acts).polling
    ensures HasConfirmation(Exec(p, acts), id, s, n)
    decreases |acts|
  {
    StepKeepsInv(p, acts[0]);
    var p1 := Apply(p, acts[0]);
    if Claims(p, acts[0], id) {
      ClaimTakes(p, acts[0], id);
      WayEndsLogged(p1, acts[1..], id, s, n);
    } else {
      UnclaimedStays(p, acts[0], id);
      QueriedEndsLogged(p1, acts[1..], id, s, n);
    }
  }

  /** A ready event is confirmed within one round: in any run between two moments without a poll whose
      polls have budgets adding up to the number of slots, a slot pending at the start gets its
      DEVICE_CONFIRMED line, with the ids and generation of its submission, if the backend answers
      complete whenever it is asked about it. */
  lemma ReadyIsConfirmed(p: Pool, acts: seq<Action>, id: SlotId)
    requires Inv(p) && !p.polling && id in p.slots && p.slots[id].phase == PENDING
    requires IsRun(p, acts) && !Exec(p, acts).polling && Spent(p, acts) >= Total(p) >= 1
    requires p.pollCursor < U64 && NoSkew(p.pollCursor, Total(p), U64)
    requires ReadyThroughout(p, acts, id)
    ensures HasConfirmation(Exec(p, acts), id, p.slots[id], |p.log|)
  {
    EveryPendingSlotIsQueried(p, acts, id);
    QueriedEndsLogged(p, acts, id, p.slots[id], |p.log|);
  }

  // ---- Counting polls ----

  /** How many polls take a cursor value in the run. */
  ghost function Polls(p: Pool, acts: seq<Action>): nat
    requires IsRun(p, acts)
    decreases |acts|
  {
    if acts == [] then 0
    else (if acts[0].Advance? && Total(p) > 0 then 1 else 0) + Polls(Apply(p, acts[0]), acts[1..])
  }

  ghost predicate BudgetsAtLeast(p: Pool, acts: seq<Action>, b: nat)
    requires IsRun(p, acts)
    decreases |acts|
  {
    acts == [] ||
    ((acts[0].Advance? ==> p.polls[acts[0].q].budget >= b) && BudgetsAtLeast(Apply(p, acts[0]), acts[1..], b))
  }

  lemma {:induction false} SpentByPolls(p: Pool, acts: seq<Action>, b: nat)
    requires IsRun(p, acts) && BudgetsAtLeast(p, acts, b)
    ensures Spent(p, acts) >= Polls(p, acts) * b
    decreases |acts|
  {
    if acts != [] {
      var p1 := Apply(p, acts[0]);
      SpentByPolls(p1, acts[1..], b);
      OneMore(Polls(p1, acts[1..]), b);
    }
  }

  lemma OneMore(n: nat, b: nat)
    ensures (n + 1) * b == n * b + b
  {}

  lemma CeilCovers(total: nat, b: nat, n: nat)
    requires b >= 1 && n >= (total + b - 1) / b
    ensures n * b >= total
  {
    var c := (total + b - 1) / b;
    assert c * b + (total + b - 1) % b == total + b - 1;
    MulMonotone(c, n, b);
  }

  lemma EnoughSpent(p: Pool, acts: seq<Action>, b: nat)
    requires IsRun(p, acts) && b >= 1 && BudgetsAtLeast(p, acts, b) && Polls(p, acts) >= (Total(p) + b - 1) / b
    ensures Spent(p, acts) >= Total(p)
  {
    SpentByPolls(p, acts, b);
    CeilCovers(Total(p), b, Polls(p, acts));
  }

  /** ceil(total / budget) polls are enough. */
  lemma ReadyWithinOneRound(p: Pool, acts: seq<Action>, id: SlotId, b: nat)
    requires Inv(p) && !p.polling && id in p.slots && p.slots[id].phase == PENDING
    requires IsRun(p, acts) && !Exec(p, acts).polling && ReadyThroughout(p, acts, id)
    requires b >= 1 && BudgetsAtLeast(p, acts, b) && Polls(p, acts) >= (Total(p) + b - 1) / b && Total(p) >= 1
    requires p.pollCursor < U64 && NoSkew(p.pollCursor, Total(p), U64)
    ensures Queried(p, acts, id) && HasConfirmation(Exec(p, acts), id, p.slots[id], |p.log|)
  {
    EnoughSpent(p, acts, b);
    EveryPendingSlotIsQueried(p, acts, id);
    ReadyIsConfirmed(p, acts, id);
  }
}
