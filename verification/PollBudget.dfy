/** What a poll's budget buys: a poll leaves budget unused only when it has gone round the whole pool. */
module PollBudget {
  import opened ModArith
  import opened CheckpointPool
  import opened PoolFrames
  import opened PoolInvariant
  import opened PoolTheorems
  import opened PollFairness

  /** The step takes a pending slot for a query. */
  ghost function Takes(p: Pool, a: Action): nat
    requires Shape(p) && Enabled(p, a)
  {
    if a.Examine? && p.slots[Target(p, a.q)].phase == PENDING then 1 else 0
  }

  /** How many slots the polls of the run take for a query. */
  ghost function Taken(p: Pool, acts: seq<Action>): nat
    requires IsRun(p, acts)
    decreases |acts|
  {
    if acts == [] then 0 else Takes(p, acts[0]) + Taken(Apply(p, acts[0]), acts[1..])
  }

  /** Polls worth `c` have started and taken `u` slots: the budgets are used up, but for what the poll under
      way has left. */
  predicate UsedUp(p: Pool, c: nat, u: nat) {
    if PollFairness.Scanning(p) then
      var me := p.polls[p.pollOwner];
      u + me.budget == c + me.checked && me.checked <= me.budget
    else
      u == c && (p.polling ==> Untouched(p))
  }

  /** A poll that starts at `x` meets every slot: it does not wrap, or the slot count divides 2^64. */
  predicate RoundFits(p: Pool, x: nat) {
    x + Total(p) <= U64 || (Total(p) >= 1 && U64 % Total(p) == 0)
  }

  lemma SamePollersUsed(p: Pool, p': Pool, c: nat, u: nat)
    requires UsedUp(p, c, u) && p'.polls == p.polls && p'.polling == p.polling && p'.pollOwner == p.pollOwner
    ensures UsedUp(p', c, u)
  {}

  lemma EnterUses(p: Pool, q: nat, budget: nat, c: nat, u: nat)
    requires Inv(p) && Enabled(p, Enter(q, budget)) && UsedUp(p, c, u)
    ensures UsedUp(DoEnter(p, q, budget), c, u)
  {}

  lemma AdvanceUses(p: Pool, q: nat, c: nat, u: nat)
    requires Inv(p) && Enabled(p, Advance(q)) && UsedUp(p, c, u) && Total(p) > 0
    ensures UsedUp(DoAdvance(p, q), c + p.polls[q].budget, u)
  {
    assert PollOk(p, q);
  }

  lemma ExamineUses(p: Pool, q: nat, c: nat, u: nat)
    requires Inv(p) && Enabled(p, Examine(q)) && UsedUp(p, c, u)
    ensures UsedUp(DoExamine(p, q), c, u + Takes(p, Examine(q)))
  {
    assert PollOk(p, q);
    ExamineMoves(p, q);
  }

  /** The other steps of a query change neither the budget nor what is used of it. */
  lemma QueryUses(p: Pool, a: Action, c: nat, u: nat)
    requires Inv(p) && Enabled(p, a) && UsedUp(p, c, u) && (a.LoadGen? || a.Query? || a.Report? || a.Release?)
    ensures UsedUp(Apply(p, a), c, u)
  {
    assert PollOk(p, a.q);
    if a.Report? { ReportTells(p, a.q); }
  }

  /** When a poll leaves, a slot that was pending all along and never taken shows that its budget is spent. */
  lemma LeaveUses(p: Pool, q: nat, s0: nat, c: nat, u: nat, id: SlotId)
    requires Inv(p) && Enabled(p, Leave(q)) && PassedOver(p, s0, c, id) && UsedUp(p, c, u) && RoundFits(p, s0 + c)
    ensures UsedUp(DoLeave(p, q), c, u)
  {
    assert PollOk(p, q);
    var me := p.polls[q];
    if me.checked < me.budget {
      var start := s0 + (c - me.budget);
      TotalPositive(p);
      if start + Total(p) <= U64 { SmallMod(start, U64); }
      RoundMeetsAll(p, start, id);
      assert false;
    }
  }

  lemma StepUses(p: Pool, a: Action, s0: nat, c: nat, u: nat, id: SlotId)
    requires Inv(p) && Enabled(p, a) && PassedOver(p, s0, c, id) && UsedUp(p, c, u) && RoundFits(p, s0 + c)
    ensures UsedUp(Apply(p, a), c + Cost(p, a), u + Takes(p, a))
  {
    if a.Leave? { LeaveUses(p, a.q, s0, c, u, id); }
    else if OfPoller(a) { PollerUses(p, a, s0, c, u, id); }
    else if OfSubmitter(a) { SubmitterFrame(p, a); SamePollersUsed(p, Apply(p, a), c, u); }
    else { WorldUses(p, a, c, u); }
  }

  lemma PollerUses(p: Pool, a: Action, s0: nat, c: nat, u: nat, id: SlotId)
    requires Inv(p) && Enabled(p, a) && PassedOver(p, s0, c, id) && UsedUp(p, c, u) && OfPoller(a) && !a.Leave?
    ensures UsedUp(Apply(p, a), c + Cost(p, a), u + Takes(p, a))
  {
    if a.Enter? { EnterUses(p, a.q, a.budget, c, u); }
    else if a.Advance? { TotalPositive(p); AdvanceUses(p, a.q, c, u); }
    else if a.Examine? { ExamineUses(p, a.q, c, u); }
    else { QueryUses(p, a, c, u); }
  }

  lemma WorldUses(p: Pool, a: Action, c: nat, u: nat)
    requires Shape(p) && Enabled(p, a) && UsedUp(p, c, u) && (a.DeviceCompletes? || a.HostRecords?)
    ensures UsedUp(Apply(p, a), c, u)
  {}

  lemma RoundFitsLess(p: Pool, x: nat, y: nat)
    requires RoundFits(p, y) && x <= y
    ensures RoundFits(p, x)
  {}

  lemma {:induction false} RunUses(p: Pool, acts: seq<Action>, s0: nat, c: nat, u: nat, id: SlotId)
    requires Inv(p) && IsRun(p, acts) && PassedOver(p, s0, c, id) && !Queried(p, acts, id)
    requires UsedUp(p, c, u) && RoundFits(p, s0 + c + Spent(p, acts))
    ensures UsedUp(Exec(p, acts), c + Spent(p, acts), u + Taken(p, acts))
    decreases |acts|
  {
    if acts != [] {
      var p1, c1 := RunStep(p, acts, s0, c, id);
      assert UsedUp(p1, c1, u + Takes(p, acts[0])) by {
        RoundFitsLess(p, s0 + c, s0 + c + Spent(p, acts));
        StepUses(p, acts[0], s0, c, u, id);
      }
      assert RoundFits(p1, s0 + c1 + Spent(p1, acts[1..])) by { SameStreams(p, acts[0]); }
      RunUses(p1, acts[1..], s0, c1, u + Takes(p, acts[0]), id);
    }
  }

  /** Take any run between two moments at which no poll is under way, with any submitters and pollers
      interleaved. If its polls take fewer slots than their budgets allow, every slot pending at the start
      has been queried, provided the 64-bit cursor does not wrap or the number of slots divides 2^64. */
  lemma BudgetIsUsed(p: Pool, acts: seq<Action>, id: SlotId)
    requires Inv(p) && !p.polling && id in p.slots && p.slots[id].phase == PENDING && p.pollCursor < U64
    requires IsRun(p, acts) && !Exec(p, acts).polling && Taken(p, acts) < Spent(p, acts)
    requires p.pollCursor + Spent(p, acts) + Total(p) <= U64 || (Total(p) >= 1 && U64 % Total(p) == 0)
    ensures Queried(p, acts, id)
  {
    if !Queried(p, acts, id) {
      SmallMod(p.pollCursor, U64);
      assert PassedOver(p, p.pollCursor, 0, id);
      RunUses(p, acts, p.pollCursor, 0, 0, id);
      assert false;
    }
  }
}
