/** Poll fairness: with budgets that add up to the number of slots, no pending slot is passed over,
    although slots that are not pending use up no budget and submitters run in between. */
module PollFairness {
  import opened ModArith
  import opened ScanOrder
  import opened CheckpointPool
  import opened PoolFrames
  import opened PoolInvariant
  import opened PoolTheorems

  /** The step is the compare-exchange that takes pending slot `id` for a query. */
  ghost predicate Claims(p: Pool, a: Action, id: SlotId)
    requires Shape(p) && Enabled(p, a)
  {
    a.Examine? && Target(p, a.q) == id && p.slots[id].phase == PENDING
  }

  /** Somewhere in the run the slot is taken for a query. */
  ghost predicate Queried(p: Pool, acts: seq<Action>, id: SlotId)
    requires IsRun(p, acts)
    decreases |acts|
  {
    acts != [] && (Claims(p, acts[0], id) || Queried(Apply(p, acts[0]), acts[1..], id))
  }

  /** The budget a step commits: that of the poll which advances the poll cursor. */
  ghost function Cost(p: Pool, a: Action): nat
    requires Shape(p) && Enabled(p, a)
  {
    if a.Advance? && Total(p) > 0 then p.polls[a.q].budget else 0
  }

  /** The budgets of the polls that start scanning in the run. */
  ghost function Spent(p: Pool, acts: seq<Action>): nat
    requires IsRun(p, acts)
    decreases |acts|
  {
    if acts == [] then 0 else Cost(p, acts[0]) + Spent(Apply(p, acts[0]), acts[1..])
  }

  predicate Scanning(p: Pool) {
    p.polling && p.pollOwner < |p.polls| && !p.polls[p.pollOwner].at.Entered?
  }

  /** The slot a poll examines when its wrapped cursor stands at `x`. */
  function Pos(ids: seq<nat>, k: nat, x: nat): SlotId
    requires k >= 1 && |ids| >= 1
  {
    PollTarget(ids, k, x, 0)
  }

  /** None of the positions from `lo` up to `hi` is slot `id`. */
  ghost predicate Passed(p: Pool, lo: nat, hi: nat, id: SlotId)
    requires p.k >= 1 && |p.ids| >= 1
  {
    forall x: nat :: lo <= x < hi ==> Pos(p.ids, p.k, x) != id
  }

  function Min(a: nat, b: nat): nat { if a <= b then a else b }

  /** While the slot has been pending and never taken, and polls worth `c` have started since the cursor
      was `s0`: every position a finished poll covered, up to `c` or a full round, was another slot; the
      poll under way, which started at the end of that stretch, has passed only other slots too. */
  ghost predicate PassedOver(p: Pool, s0: nat, c: nat, id: SlotId) {
    && p.k >= 1 && |p.ids| >= 1
    && id in p.slots && p.slots[id].phase == PENDING
    && p.pollCursor == (s0 + c) % U64
    && if Scanning(p) then ScanPassed(p, s0, c, id, p.polls[p.pollOwner])
       else Passed(p, s0, s0 + Min(Total(p), c), id) && (p.polling ==> Untouched(p))
  }

  /** A poll that has set the flag but not yet taken its cursor value. */
  predicate Untouched(p: Pool) {
    p.pollOwner < |p.polls| && p.polls[p.pollOwner].offset == 0 && p.polls[p.pollOwner].checked == 0
  }

  ghost predicate ScanPassed(p: Pool, s0: nat, c: nat, id: SlotId, me: Poller)
    requires p.k >= 1 && |p.ids| >= 1
  {
    && me.budget <= c
    && me.start == (s0 + (c - me.budget)) % U64
    && me.checked <= me.offset + (if Holds(me) then 1 else 0)
    && Passed(p, s0, s0 + Min(Total(p), c - me.budget), id)
    && Passed(p, s0 + (c - me.budget), s0 + (c - me.budget) + me.offset, id)
    && (Holds(me) ==> PollTarget(p.ids, p.k, me.start, me.offset) == me.at.id)
  }

  lemma TargetOfWrapped(ids: seq<nat>, k: nat, s: nat, o: nat)
    requires k >= 1 && |ids| >= 1
    ensures PollTarget(ids, k, s % U64, o) == Pos(ids, k, s + o)
  {
    assert (s % U64 + o) % U64 == (s + o) % U64 by { ModPlus(s, o, U64); }
  }

  lemma ModPlus(s: nat, o: nat, m: nat)
    requires m >= 1
    ensures (s % m + o) % m == (s + o) % m
  {
    var x := s % m + o;
    assert s + o == m * (s / m + x / m) + x % m;
    DivModUnique(s + o, m, s / m + x / m, x % m);
  }

  /** A full round of positions meets every slot. */
  lemma RoundMeetsAll(p: Pool, s0: nat, id: SlotId)
    requires Shape(p) && id in p.slots && Total(p) >= 1 && NoSkew(s0 % U64, Total(p), U64)
    ensures |p.ids| >= 1 && !Passed(p, s0, s0 + Total(p), id)
  {
    var i: nat :| i < |p.ids| && p.ids[i] == id.stream;
    var flat := p.k * i + id.index;
    assert flat < Total(p) by { FlatBound(i, |p.ids|, p.k, id.index); }
    DivModUnique(flat, p.k, i, id.index);
    var j := Covers(s0 % U64, Total(p), U64, flat);
    TargetOfWrapped(p.ids, p.k, s0, j);
    assert Pos(p.ids, p.k, s0 + j) == id;
  }

  lemma FlatBound(i: nat, n: nat, k: nat, x: nat)
    requires i < n && x < k
    ensures k * i + x < n * k
  {
    MulMonotone(i + 1, n, k);
  }

  lemma TotalPositive(p: Pool)
    requires p.k >= 1 && |p.ids| >= 1
    ensures Total(p) >= 1
  {
    MulMonotone(1, |p.ids|, p.k);
  }

  predicate SamePolling(p: Pool, p': Pool) {
    p'.ids == p.ids && p'.k == p.k && p'.polls == p.polls && p'.pollCursor == p.pollCursor
    && p'.polling == p.polling && p'.pollOwner == p.pollOwner
  }

  lemma PollersRest(p: Pool, p': Pool, s0: nat, c: nat, id: SlotId)
    requires PassedOver(p, s0, c, id) && SamePolling(p, p') && id in p'.slots && p'.slots[id].phase == PENDING
    ensures PassedOver(p', s0, c, id)
  {}

  lemma WorldPasses(p: Pool, a: Action, s0: nat, c: nat, id: SlotId)
    requires Shape(p) && Enabled(p, a) && PassedOver(p, s0, c, id) && (a.DeviceCompletes? || a.HostRecords?)
    ensures PassedOver(Apply(p, a), s0, c, id)
  {
    PollersRest(p, Apply(p, a), s0, c, id);
  }

  predicate Searches(a: Action) {
    a.Begin? || a.Try? || a.GiveUp? || a.LogSubmitted?
  }

  lemma SearchLeavesSlot(p: Pool, a: Action, id: SlotId)
    requires Shape(p) && Enabled(p, a) && Searches(a) && id in p.slots && p.slots[id].phase != FREE
    ensures id in Apply(p, a).slots && Apply(p, a).slots[id] == p.slots[id]
  {}

  lemma NumberLeavesSlot(p: Pool, a: Action, id: SlotId)
    requires Shape(p) && Enabled(p, a) && (a.TakeNumber? || a.StoreSeq? || a.StoreId?) && id in p.slots && SubOk(p, a.t)
    requires p.slots[id].phase != RESERVED
    ensures id in Apply(p, a).slots && Apply(p, a).slots[id] == p.slots[id]
  {}

  lemma LastLeavesSlot(p: Pool, a: Action, id: SlotId)
    requires Shape(p) && Enabled(p, a) && (a.RecordOk? || a.RecordFails? || a.Publish?) && id in p.slots && SubOk(p, a.t)
    requires p.slots[id].phase != RESERVED
    ensures id in Apply(p, a).slots && Apply(p, a).slots[id] == p.slots[id]
  {}

  /** Submitters leave the pollers, and the slots that are pending or queried, alone. */
  lemma SubmitterLeavesSlot(p: Pool, a: Action, id: SlotId)
    requires Inv(p) && Enabled(p, a) && OfSubmitter(a) && id in p.slots
    requires p.slots[id].phase == PENDING || p.slots[id].phase == QUERYING
    ensures id in Apply(p, a).slots && Apply(p, a).slots[id] == p.slots[id] && SamePolling(p, Apply(p, a))
  {
    SubmitterFrame(p, a);
    assert SubOk(p, a.t);
    if Searches(a) { SearchLeavesSlot(p, a, id); }
    else if a.TakeNumber? || a.StoreSeq? || a.StoreId? { NumberLeavesSlot(p, a, id); }
    else { LastLeavesSlot(p, a, id); }
  }

  lemma SubmitterPasses(p: Pool, a: Action, s0: nat, c: nat, id: SlotId)
    requires Inv(p) && Enabled(p, a) && PassedOver(p, s0, c, id) && OfSubmitter(a)
    ensures PassedOver(Apply(p, a), s0, c, id)
  {
    SubmitterLeavesSlot(p, a, id);
    PollersRest(p, Apply(p, a), s0, c, id);
  }

  lemma EnterKeeps(p: Pool, q: nat, budget: nat, s0: nat, c: nat, id: SlotId)
    requires Inv(p) && Enabled(p, Enter(q, budget)) && PassedOver(p, s0, c, id)
    ensures PassedOver(DoEnter(p, q, budget), s0, c, id)
  {}

  lemma AdvanceKeeps(p: Pool, q: nat, s0: nat, c: nat, id: SlotId)
    requires Inv(p) && Enabled(p, Advance(q)) && PassedOver(p, s0, c, id)
    ensures PassedOver(DoAdvance(p, q), s0, c + p.polls[q].budget, id) && Total(p) > 0
  {
    assert PollOk(p, q);
    TotalPositive(p);
    ModPlus(s0 + c, p.polls[q].budget, U64);
  }

  lemma ExamineKeeps(p: Pool, q: nat, s0: nat, c: nat, id: SlotId)
    requires Inv(p) && Enabled(p, Examine(q)) && PassedOver(p, s0, c, id) && !Claims(p, Examine(q), id)
    ensures PassedOver(DoExamine(p, q), s0, c, id)
  {
    assert PollOk(p, q);
    TargetElsewhere(p, q, s0, c, id);
    ExamineMoves(p, q);
    MovesOn(p, DoExamine(p, q), q, DoExamine(p, q).polls[q], s0, c, id);
  }

  /** From its scan the poller of the poll under way passes a slot other than `id`, or takes it. */
  lemma MovesOn(p: Pool, p': Pool, q: nat, x: Poller, s0: nat, c: nat, id: SlotId)
    requires PassedOver(p, s0, c, id) && q < |p.polls| && p.pollOwner == q && p.polling && p.polls[q].at.Scan?
    requires var me := p.polls[q];
      Pos(p.ids, p.k, s0 + (c - me.budget) + me.offset) != id
      && (x == me.(offset := me.offset + 1)
          || (Holds(x) && x == me.(checked := me.checked + 1, at := x.at) && x.at.id == PollTarget(p.ids, p.k, me.start, me.offset)))
    requires p'.polls == p.polls[q := x] && p'.pollCursor == p.pollCursor && p'.polling && p'.pollOwner == q
    requires p'.ids == p.ids && p'.k == p.k && id in p'.slots && p'.slots[id].phase == PENDING
    ensures PassedOver(p', s0, c, id)
  {}

  lemma ExamineMoves(p: Pool, q: nat)
    requires Shape(p) && Enabled(p, Examine(q))
    ensures var p', me := DoExamine(p, q), p.polls[q];
      && p'.polls == p.polls[q := p'.polls[q]] && p'.pollCursor == p.pollCursor && p'.polling == p.polling
      && p'.pollOwner == p.pollOwner && p'.ids == p.ids && p'.k == p.k
      && p'.polls[q] == if p.slots[Target(p, q)].phase == PENDING then me.(checked := me.checked + 1, at := Claimed(Target(p, q)))
                        else me.(offset := me.offset + 1)
    ensures forall id :: id in p.slots && id != Target(p, q) ==> id in DoExamine(p, q).slots && DoExamine(p, q).slots[id] == p.slots[id]
    ensures p.slots[Target(p, q)].phase != PENDING ==> DoExamine(p, q).slots == p.slots
  {}

  lemma TargetElsewhere(p: Pool, q: nat, s0: nat, c: nat, id: SlotId)
    requires Shape(p) && Enabled(p, Examine(q)) && Target(p, q) != id
    requires p.polls[q].budget <= c && p.polls[q].start == (s0 + (c - p.polls[q].budget)) % U64
    ensures |p.ids| >= 1 && Pos(p.ids, p.k, s0 + (c - p.polls[q].budget) + p.polls[q].offset) != id
    ensures Target(p, q) == PollTarget(p.ids, p.k, p.polls[q].start, p.polls[q].offset)
  {
    var me := p.polls[q];
    TargetOfWrapped(p.ids, p.k, s0 + (c - me.budget), me.offset);
  }

  /** The poller under way goes on with the slot it holds. */
  lemma StillHolds(p: Pool, p': Pool, q: nat, at: PollStage, s0: nat, c: nat, id: SlotId)
    requires PassedOver(p, s0, c, id) && q < |p.polls| && p.pollOwner == q && p.polling && Holds(p.polls[q])
    requires p'.polls == p.polls[q := p.polls[q].(at := at)] && Holds(p'.polls[q]) && at.id == p.polls[q].at.id
    requires p'.ids == p.ids && p'.k == p.k && p'.pollCursor == p.pollCursor && p'.polling && p'.pollOwner == q
    requires id in p'.slots && p'.slots[id].phase == PENDING
    ensures PassedOver(p', s0, c, id)
  {}

  lemma AskingKeeps(p: Pool, a: Action, s0: nat, c: nat, id: SlotId)
    requires Inv(p) && Enabled(p, a) && PassedOver(p, s0, c, id) && (a.LoadGen? || a.Query?)
    ensures PassedOver(Apply(p, a), s0, c, id)
  {
    assert PollOk(p, a.q);
    StillHolds(p, Apply(p, a), a.q, Apply(p, a).polls[a.q].at, s0, c, id);
  }

  lemma ReportTells(p: Pool, q: nat)
    requires Shape(p) && Enabled(p, Report(q))
    ensures Apply(p, Report(q)).polls == p.polls[q := p.polls[q].(at := Told(p.polls[q].at.id, p.polls[q].at.rc))]
    ensures var p' := Apply(p, Report(q));
      && p'.pollOwner == p.pollOwner && p'.pollCursor == p.pollCursor && p'.polling == p.polling
      && p'.ids == p.ids && p'.k == p.k
  {}

  lemma ReportLeavesSlot(p: Pool, q: nat, id: SlotId)
    requires Shape(p) && Enabled(p, Report(q)) && id in p.slots && id != p.polls[q].at.id
    ensures id in Apply(p, Report(q)).slots && Apply(p, Report(q)).slots[id] == p.slots[id]
  {}

  lemma ReportKeeps(p: Pool, q: nat, s0: nat, c: nat, id: SlotId)
    requires Inv(p) && Enabled(p, Report(q)) && PassedOver(p, s0, c, id)
    ensures PassedOver(Apply(p, Report(q)), s0, c, id)
  {
    assert PollOk(p, q);
    ReportTells(p, q);
    ReportLeavesSlot(p, q, id);
    StillHolds(p, Apply(p, Report(q)), q, Told(p.polls[q].at.id, p.polls[q].at.rc), s0, c, id);
  }

  lemma ReleaseKeeps(p: Pool, q: nat, s0: nat, c: nat, id: SlotId)
    requires Inv(p) && Enabled(p, Release(q)) && PassedOver(p, s0, c, id)
    ensures PassedOver(DoRelease(p, q), s0, c, id)
  {
    assert PollOk(p, q);
    var me := p.polls[q];
    TargetOfWrapped(p.ids, p.k, s0 + (c - me.budget), me.offset);
    assert Pos(p.ids, p.k, s0 + (c - me.budget) + me.offset) == me.at.id;
  }

  lemma LeaveKeeps(p: Pool, q: nat, s0: nat, c: nat, id: SlotId)
    requires Inv(p) && Enabled(p, Leave(q)) && PassedOver(p, s0, c, id)
    ensures PassedOver(DoLeave(p, q), s0, c, id)
  {
    assert PollOk(p, q);
  }

  lemma EnterPasses(p: Pool, a: Action, s0: nat, c: nat, id: SlotId)
    requires Inv(p) && Enabled(p, a) && PassedOver(p, s0, c, id) && a.Enter?
    ensures PassedOver(Apply(p, a), s0, c + Cost(p, a), id)
  {
    EnterKeeps(p, a.q, a.budget, s0, c, id);
  }

  lemma AdvancePasses(p: Pool, a: Action, s0: nat, c: nat, id: SlotId)
    requires Inv(p) && Enabled(p, a) && PassedOver(p, s0, c, id) && a.Advance?
    ensures PassedOver(Apply(p, a), s0, c + Cost(p, a), id)
  {
    AdvanceKeeps(p, a.q, s0, c, id);
  }

  lemma LeavePasses(p: Pool, a: Action, s0: nat, c: nat, id: SlotId)
    requires Inv(p) && Enabled(p, a) && PassedOver(p, s0, c, id) && a.Leave?
    ensures PassedOver(Apply(p, a), s0, c + Cost(p, a), id)
  {
    LeaveKeeps(p, a.q, s0, c, id);
  }

  lemma QueryPasses(p: Pool, a: Action, s0: nat, c: nat, id: SlotId)
    requires Inv(p) && Enabled(p, a) && PassedOver(p, s0, c, id) && !Claims(p, a, id)
    requires OfPoller(a) && !a.Enter? && !a.Advance? && !a.Leave?
    ensures PassedOver(Apply(p, a), s0, c, id)
  {
    match a
    case Examine(q) => ExamineKeeps(p, q, s0, c, id);
    case LoadGen(_) => AskingKeeps(p, a, s0, c, id);
    case Query(_, _) => AskingKeeps(p, a, s0, c, id);
    case Report(q) => ReportKeeps(p, q, s0, c, id);
    case Release(q) => ReleaseKeeps(p, q, s0, c, id);
  }

  lemma StepPassesOver(p: Pool, a: Action, s0: nat, c: nat, id: SlotId)
    requires Inv(p) && Enabled(p, a) && PassedOver(p, s0, c, id) && !Claims(p, a, id)
    ensures PassedOver(Apply(p, a), s0, c + Cost(p, a), id)
  {
    if a.Enter? {
      EnterPasses(p, a, s0, c, id);
    } else if a.Advance? {
      AdvancePasses(p, a, s0, c, id);
    } else if a.Leave? {
      LeavePasses(p, a, s0, c, id);
    } else if OfPoller(a) {
      QueryPasses(p, a, s0, c, id);
    } else if OfSubmitter(a) {
      SubmitterPasses(p, a, s0, c, id);
    } else {
      WorldPasses(p, a, s0, c, id);
    }
  }

  /** A run is its first step and the rest. */
  lemma FirstStep(p: Pool, acts: seq<Action>, id: SlotId)
    requires IsRun(p, acts) && acts != []
    ensures Shape(p) && Enabled(p, acts[0]) && IsRun(Apply(p, acts[0]), acts[1..])
    ensures Exec(p, acts) == Exec(Apply(p, acts[0]), acts[1..])
    ensures Spent(p, acts) == Cost(p, acts[0]) + Spent(Apply(p, acts[0]), acts[1..])
    ensures Queried(p, acts, id) <==> Claims(p, acts[0], id) || Queried(Apply(p, acts[0]), acts[1..], id)
  {}

  lemma RunStep(p: Pool, acts: seq<Action>, s0: nat, c: nat, id: SlotId) returns (p1: Pool, c1: nat)
    requires Inv(p) && IsRun(p, acts) && PassedOver(p, s0, c, id) && !Queried(p, acts, id) && acts != []
    ensures Inv(p1) && IsRun(p1, acts[1..]) && PassedOver(p1, s0, c1, id) && !Queried(p1, acts[1..], id)
    ensures Exec(p1, acts[1..]) == Exec(p, acts) && c1 + Spent(p1, acts[1..]) == c + Spent(p, acts)
    ensures Shape(p) && Enabled(p, acts[0]) && p1 == Apply(p, acts[0]) && c1 == c + Cost(p, acts[0])
  {
    FirstStep(p, acts, id);
    StepKeepsInv(p, acts[0]);
    StepPassesOver(p, acts[0], s0, c, id);
    p1, c1 := Apply(p, acts[0]), c + Cost(p, acts[0]);
  }

  lemma {:induction false} RunPassesOver(p: Pool, acts: seq<Action>, s0: nat, c: nat, id: SlotId) returns (p': Pool, c': nat)
    requires Inv(p) && IsRun(p, acts) && PassedOver(p, s0, c, id) && !Queried(p, acts, id)
    ensures p' == Exec(p, acts) && c' == c + Spent(p, acts) && PassedOver(p', s0, c', id)
    decreases |acts|
  {
    if acts == [] {
      p', c' := p, c;
    } else {
      var p1, c1 := RunStep(p, acts, s0, c, id);
      p', c' := RunPassesOver(p1, acts[1..], s0, c1, id);
    }
  }

  lemma UnqueriedEnds(p: Pool, acts: seq<Action>, id: SlotId)
    requires Inv(p) && !p.polling && id in p.slots && p.slots[id].phase == PENDING && p.pollCursor < U64
    requires IsRun(p, acts) && !Exec(p, acts).polling && !Queried(p, acts, id) && Total(p) >= 1
    ensures var p' := Exec(p, acts);
      && Shape(p') && p'.ids == p.ids && p'.k == p.k && id in p'.slots && |p'.ids| >= 1
      && Passed(p', p.pollCursor, p.pollCursor + Min(Total(p'), Spent(p, acts)), id)
  {
    SmallMod(p.pollCursor, U64);
    assert PassedOver(p, p.pollCursor, 0, id);
    var p', c := RunPassesOver(p, acts, p.pollCursor, 0, id);
    RunKeepsInv(p, acts);
    StreamsStay(p, acts);
  }

  /** Poll fairness: take any run from a state that meets the pool invariant (so from any reachable one),
      with any submitters and pollers interleaved, between two moments at which no poll is under way. If
      the polls started in it have budgets that add up to at least the number of slots, every slot pending
      at the start has been queried, provided the 64-bit cursor does not wrap within the first round or
      the number of slots divides 2^64. */
  lemma EveryPendingSlotIsQueried(p: Pool, acts: seq<Action>, id: SlotId)
    requires Inv(p) && !p.polling && id in p.slots && p.slots[id].phase == PENDING
    requires IsRun(p, acts) && !Exec(p, acts).polling && Spent(p, acts) >= Total(p) >= 1
    requires p.pollCursor < U64 && NoSkew(p.pollCursor, Total(p), U64)
    ensures Queried(p, acts, id)
  {
    SmallMod(p.pollCursor, U64);
    if !Queried(p, acts, id) {
      UnqueriedEnds(p, acts, id);
      RoundMeetsAll(Exec(p, acts), p.pollCursor, id);
    }
  }
}
