/** Pollers can always be driven on: the poll under way can be finished, and a slot whose recordings have
    all completed can be brought to its confirmation. */
module PollDriver {
  import opened CheckpointPool
  import opened PoolInvariant
  import opened PoolFrames
  import opened PoolTheorems
  import opened PollFairness
  import opened ReadyConfirmed

  predicate OnlyPolls(acts: seq<Action>) {
    forall i :: 0 <= i < |acts| ==> OfPoller(acts[i])
  }

  /** Steps of a poll after it has taken its start position. */
  predicate OnlyScans(acts: seq<Action>) {
    forall i :: 0 <= i < |acts| ==> OfPoller(acts[i]) && !acts[i].Enter? && !acts[i].Advance?
  }

  lemma ByPollerTrans(p: Pool, p1: Pool, p2: Pool)
    requires ByPoller(p, p1) && ByPoller(p1, p2)
    ensures ByPoller(p, p2)
  {
    SameRecordingsTrans(p, p1, p2);
  }

  lemma StillComplete(p: Pool, p': Pool, id: SlotId)
    requires AllComplete(p, id) && SameRecordings(p, p') && p'.done == p.done
    ensures AllComplete(p', id)
  {
    forall j | 0 <= j < |p'.queue[id.stream]| && p'.queue[id.stream][j].index == id.index ensures j < p'.done[id.stream] {
      assert SameRecording(p.queue[id.stream][j], p'.queue[id.stream][j]);
    }
  }

  // ---- One step on ----

  /** How far the poll of `me` still has to go. */
  function Rank(total: nat, me: Poller): nat {
    var left := if total > me.offset then total - me.offset else 0;
    match me.at
    case Away => 0
    case Entered => 8 * left + 7
    case Scan => if left == 0 || me.checked >= me.budget then 1 else 8 * left + 6
    case Claimed(_) => 8 * left + 5
    case Loaded(_, _) => 8 * left + 4
    case Answered(_, _, _) => 8 * left + 3
    case Told(_, _) => 8 * left + 2
  }

  /** The next step of poller `q`; the backend answers complete for `id` and not ready for others. */
  function NextStep(p: Pool, q: nat, id: SlotId): Action
    requires q < |p.polls| && !p.polls[q].at.Away?
  {
    var me := p.polls[q];
    match me.at
    case Entered => Advance(q)
    case Scan => if me.offset >= Total(p) || me.checked >= me.budget then Leave(q) else Examine(q)
    case Claimed(_) => LoadGen(q)
    case Loaded(d, _) => Query(q, if d == id then 1 else 0)
    case Answered(_, _, _) => Report(q)
    case Told(_, _) => Release(q)
  }

  predicate FurtherOn(p: Pool, p': Pool, q: nat)
    requires q < |p.polls|
  {
    && |p'.polls| == |p.polls| && p'.pollOwner == p.pollOwner && !p'.polls[q].at.Entered?
    && (p'.polling ==> Rank(Total(p), p'.polls[q]) < Rank(Total(p), p.polls[q]))
    && (!p.polls[q].at.Entered? ==> p'.pollCursor == p.pollCursor)
  }

  lemma ScanGoesOn(p: Pool, q: nat, id: SlotId)
    requires Shape(p) && q < |p.polls| && p.pollOwner == q && (p.polls[q].at.Entered? || p.polls[q].at.Scan?)
    ensures Enabled(p, NextStep(p, q, id)) && FurtherOn(p, Apply(p, NextStep(p, q, id)), q)
  {}

  lemma AskingGoesOn(p: Pool, q: nat, id: SlotId)
    requires Shape(p) && q < |p.polls| && p.pollOwner == q && AllComplete(p, id)
    requires p.polls[q].at.Claimed? || p.polls[q].at.Loaded? || p.polls[q].at.Told?
    ensures Enabled(p, NextStep(p, q, id)) && FurtherOn(p, Apply(p, NextStep(p, q, id)), q)
  {}

  lemma ReportGoesOn(p: Pool, q: nat, id: SlotId)
    requires Shape(p) && q < |p.polls| && p.pollOwner == q && p.polls[q].at.Answered?
    ensures Enabled(p, NextStep(p, q, id)) && FurtherOn(p, Apply(p, NextStep(p, q, id)), q)
  {
    ReportTells(p, q);
  }

  lemma GoesOn(p: Pool, id: SlotId)
    requires Inv(p) && p.polling && AllComplete(p, id)
    ensures p.pollOwner < |p.polls| && !p.polls[p.pollOwner].at.Away?
    ensures var a := NextStep(p, p.pollOwner, id);
      && Enabled(p, a) && OfPoller(a) && FurtherOn(p, Apply(p, a), p.pollOwner) && (Asks(p, a, id) ==> a.rc == 1)
  {
    var q := p.pollOwner;
    assert PollOk(p, q);
    var at := p.polls[q].at;
    if at.Entered? || at.Scan? { ScanGoesOn(p, q, id); }
    else if at.Answered? { ReportGoesOn(p, q, id); }
    else { AskingGoesOn(p, q, id); }
  }

  // ---- To the end of the poll ----

  /** A run of poller steps in which the backend answers complete for `id`. */
  ghost predicate Polls(p: Pool, acts: seq<Action>, p': Pool, id: SlotId) {
    IsRun(p, acts) && Exec(p, acts) == p' && OnlyPolls(acts) && ReadyThroughout(p, acts, id)
  }

  lemma StepPolls(p: Pool, a: Action, p1: Pool, rest: seq<Action>, p': Pool, id: SlotId)
    requires Shape(p) && Enabled(p, a) && Apply(p, a) == p1 && OfPoller(a) && (Asks(p, a, id) ==> a.rc == 1)
    requires Polls(p1, rest, p', id)
    ensures Polls(p, [a] + rest, p', id)
  {
    ConsRun(p, a, p1, rest, id);
  }

  lemma {:induction false} FinishPoll(p: Pool, id: SlotId) returns (acts: seq<Action>, p': Pool)
    requires Inv(p) && AllComplete(p, id)
    ensures Polls(p, acts, p', id)
    ensures Inv(p') && !p'.polling && ByPoller(p, p') && AllComplete(p', id)
    ensures !p.polling ==> acts == [] && p' == p
    ensures p.polling ==> p.pollOwner < |p.polls|
    ensures p.polling && !p.polls[p.pollOwner].at.Entered? ==> p'.pollCursor == p.pollCursor && OnlyScans(acts)
    decreases if p.polling && p.pollOwner < |p.polls| then Rank(Total(p), p.polls[p.pollOwner]) + 1 else 0
  {
    if !p.polling {
      acts, p' := [], p;
      SameQueue(p, p);
    } else {
      var p1, a := OneStep(p, id);
      var rest;
      rest, p' := FinishPoll(p1, id);
      acts := [a] + rest;
      assert ByPoller(p, p') by { ByPollerTrans(p, p1, p'); }
      assert Polls(p, acts, p', id) by { StepPolls(p, a, p1, rest, p', id); }
    }
  }

  lemma OneStep(p: Pool, id: SlotId) returns (p1: Pool, a: Action)
    requires Inv(p) && p.polling && AllComplete(p, id)
    ensures p.pollOwner < |p.polls| && Enabled(p, a) && Apply(p, a) == p1 && OfPoller(a) && (Asks(p, a, id) ==> a.rc == 1)
    ensures !a.Enter? && (!p.polls[p.pollOwner].at.Entered? ==> !a.Advance?)
    ensures Inv(p1) && ByPoller(p, p1) && AllComplete(p1, id) && FurtherOn(p, p1, p.pollOwner)
  {
    GoesOn(p, id);
    a := NextStep(p, p.pollOwner, id);
    p1 := Apply(p, a);
    StepKeepsInv(p, a);
    PollerFrame(p, a);
    StillComplete(p, p1, id);
  }

  lemma ConsRun(p: Pool, a: Action, p1: Pool, rest: seq<Action>, id: SlotId)
    requires Shape(p) && Enabled(p, a) && Apply(p, a) == p1 && IsRun(p1, rest) && ReadyThroughout(p1, rest, id)
    requires Asks(p, a, id) ==> a.rc == 1
    ensures IsRun(p, [a] + rest) && Exec(p, [a] + rest) == Exec(p1, rest) && ReadyThroughout(p, [a] + rest, id)
    ensures Spent(p, [a] + rest) == Cost(p, a) + Spent(p1, rest)
  {
    assert ([a] + rest)[1..] == rest;
  }

  // ---- Whole polls ----

  /** From idle `p` a poll with budget `b` takes the flag in `p1` and its start position in `p2`. */
  ghost predicate Starts(p: Pool, p1: Pool, p2: Pool, b: nat) {
    && Shape(p) && Enabled(p, Enter(0, b)) && Apply(p, Enter(0, b)) == p1 && Cost(p, Enter(0, b)) == 0
    && Shape(p1) && Enabled(p1, Advance(0)) && Apply(p1, Advance(0)) == p2 && Cost(p1, Advance(0)) == b
  }

  lemma Begun(p: Pool, p2: Pool, id: SlotId)
    requires AllComplete(p, id) && |p.polls| >= 1 && |p2.polls| >= 1
    requires p2 == p.(polling := true, pollOwner := 0, pollCursor := p2.pollCursor, polls := p.polls[0 := p2.polls[0]])
    ensures ByPoller(p, p2) && AllComplete(p2, id)
  {
    SameQueue(p, p2);
    StillComplete(p, p2, id);
  }

  lemma EnterPoll(p: Pool, b: nat) returns (p1: Pool)
    requires Inv(p) && !p.polling && |p.polls| >= 1 && p.polls[0].at.Away? && 1 <= b < U32
    ensures Enabled(p, Enter(0, b)) && Apply(p, Enter(0, b)) == p1 && Inv(p1) && Cost(p, Enter(0, b)) == 0
    ensures p1 == p.(polling := true, pollOwner := 0, polls := p.polls[0 := Poller(b, 0, 0, 0, Entered)])
  {
    StepKeepsInv(p, Enter(0, b));
    p1 := Apply(p, Enter(0, b));
  }

  lemma AdvancePoll(p1: Pool, start: nat, b: nat) returns (p2: Pool)
    requires Inv(p1) && p1.polling && p1.pollOwner == 0 && |p1.polls| >= 1 && p1.polls[0] == Poller(b, 0, 0, 0, Entered)
    requires p1.pollCursor == start && Total(p1) >= 1
    ensures Enabled(p1, Advance(0)) && Apply(p1, Advance(0)) == p2 && Inv(p2) && Cost(p1, Advance(0)) == b
    ensures p2 == p1.(pollCursor := (start + b) % U64, polls := p1.polls[0 := Poller(b, start, 0, 0, Scan)])
  {
    StepKeepsInv(p1, Advance(0));
    p2 := Apply(p1, Advance(0));
  }

  lemma StartPoll(p: Pool, id: SlotId, b: nat) returns (p1: Pool, p2: Pool)
    requires Inv(p) && !p.polling && |p.polls| >= 1 && Total(p) >= 1 && 1 <= b < U32 && AllComplete(p, id)
    ensures Starts(p, p1, p2, b) && Inv(p2) && ByPoller(p, p2) && AllComplete(p2, id)
    ensures p2.polling && p2.pollOwner == 0 && p2.polls[0].at.Scan?
    ensures p2.polls[0].start == p.pollCursor && p2.pollCursor == (p.pollCursor + b) % U64
  {
    assert PollOk(p, 0);
    p1 := EnterPoll(p, b);
    p2 := AdvancePoll(p1, p.pollCursor, b);
    Begun(p, p2, id);
  }

  lemma StartedRun(p: Pool, p1: Pool, p2: Pool, rest: seq<Action>, id: SlotId, b: nat) returns (acts: seq<Action>)
    requires Starts(p, p1, p2, b) && IsRun(p2, rest) && ReadyThroughout(p2, rest, id) && OnlyPolls(rest)
    ensures IsRun(p, acts) && Exec(p, acts) == Exec(p2, rest) && OnlyPolls(acts) && ReadyThroughout(p, acts, id)
    ensures Spent(p, acts) >= b && acts == [Enter(0, b)] + ([Advance(0)] + rest)
  {
    ConsRun(p1, Advance(0), p2, rest, id);
    ConsRun(p, Enter(0, b), p1, [Advance(0)] + rest, id);
    acts := [Enter(0, b)] + ([Advance(0)] + rest);
  }

  /** Polls that commit at least budget `b` and move the cursor by exactly `b`. */
  ghost predicate PollsWorth(p: Pool, acts: seq<Action>, p': Pool, id: SlotId, b: nat) {
    Polls(p, acts, p', id) && Spent(p, acts) >= b && p'.pollCursor == (p.pollCursor + b) % U64
  }

  /** A whole poll with budget `b`, from one idle moment to the next. */
  lemma WholePoll(p: Pool, id: SlotId, b: nat) returns (acts: seq<Action>, p': Pool)
    requires Inv(p) && !p.polling && |p.polls| >= 1 && Total(p) >= 1 && 1 <= b < U32 && AllComplete(p, id)
    ensures PollsWorth(p, acts, p', id, b)
    ensures Inv(p') && !p'.polling && ByPoller(p, p') && AllComplete(p', id)
  {
    var p1, p2 := StartPoll(p, id, b);
    var rest;
    rest, p' := FinishPoll(p2, id);
    ByPollerTrans(p, p2, p');
    acts := StartedRun(p, p1, p2, rest, id, b);
  }

  lemma {:induction false} PollsJoin(p: Pool, a: seq<Action>, p1: Pool, b: seq<Action>, p2: Pool, id: SlotId)
    requires Polls(p, a, p1, id) && Polls(p1, b, p2, id)
    ensures Polls(p, a + b, p2, id) && Spent(p, a + b) == Spent(p, a) + Spent(p1, b)
    decreases |a|
  {
    if a == [] {
      assert a + b == b;
    } else {
      assert (a + b)[1..] == a[1..] + b && (a + b)[0] == a[0];
      assert forall i :: 0 <= i < |a[1..]| ==> a[1..][i] == a[i + 1];
      PollsJoin(Apply(p, a[0]), a[1..], p1, b, p2, id);
    }
  }

  lemma WorthJoin(p: Pool, a: seq<Action>, p1: Pool, b: seq<Action>, p2: Pool, id: SlotId, m: nat, n: nat)
    requires PollsWorth(p, a, p1, id, m) && PollsWorth(p1, b, p2, id, n)
    ensures PollsWorth(p, a + b, p2, id, m + n)
  {
    PollsJoin(p, a, p1, b, p2, id);
    CursorAdds(p.pollCursor, m, n);
  }

  lemma CursorAdds(c: nat, m: nat, n: nat)
    ensures ((c + m) % U64 + n) % U64 == (c + (m + n)) % U64
  {
    ModPlus(c + m, n, U64);
  }

  /** A poll with the largest budget. */
  lemma LongestPoll(p: Pool, id: SlotId) returns (acts: seq<Action>, p': Pool)
    requires Inv(p) && !p.polling && |p.polls| >= 1 && Total(p) >= 1 && AllComplete(p, id)
    ensures PollsWorth(p, acts, p', id, U32 - 1)
    ensures Inv(p') && !p'.polling && |p'.polls| >= 1 && Total(p') >= 1 && AllComplete(p', id)
  {
    acts, p' := WholePoll(p, id, U32 - 1);
  }

  /** As many whole polls as it takes to commit budget `b`: one poll holds no more than 32 bits of it. */
  lemma {:induction false} PollsOf(p: Pool, id: SlotId, b: nat) returns (acts: seq<Action>, p': Pool)
    requires Inv(p) && !p.polling && |p.polls| >= 1 && Total(p) >= 1 && AllComplete(p, id) && b >= 1
    ensures PollsWorth(p, acts, p', id, b) && !p'.polling
    decreases b
  {
    if b < U32 {
      acts, p' := WholePoll(p, id, b);
    } else {
      var n := b - (U32 - 1);
      var first, p1 := LongestPoll(p, id);
      var rest;
      rest, p' := PollsOf(p1, id, n);
      acts := first + rest;
      assert PollsWorth(p, acts, p', id, U32 - 1 + n) by { WorthJoin(p, first, p1, rest, p', id, U32 - 1, n); }
    }
  }

  /** Poller steps keep the invariant and leave streams and recordings alone. */
  lemma {:induction false} PollsEnd(p: Pool, acts: seq<Action>, p': Pool, id: SlotId)
    requires Inv(p) && AllComplete(p, id) && IsRun(p, acts) && Exec(p, acts) == p' && OnlyPolls(acts)
    ensures Inv(p') && ByPoller(p, p') && AllComplete(p', id)
    decreases |acts|
  {
    if acts == [] {
      SameQueue(p, p);
    } else {
      var p1 := Apply(p, acts[0]);
      assert OfPoller(acts[0]) && forall i :: 0 <= i < |acts[1..]| ==> acts[1..][i] == acts[i + 1];
      StepKeepsInv(p, acts[0]);
      PollerFrame(p, acts[0]);
      StillComplete(p, p1, id);
      PollsEnd(p1, acts[1..], p', id);
      ByPollerTrans(p, p1, p');
    }
  }

  lemma WholePolls(p: Pool, id: SlotId, b: nat) returns (acts: seq<Action>, p': Pool)
    requires Inv(p) && !p.polling && |p.polls| >= 1 && Total(p) >= 1 && AllComplete(p, id) && b >= 1
    ensures PollsWorth(p, acts, p', id, b)
    ensures Inv(p') && !p'.polling && ByPoller(p, p') && AllComplete(p', id)
  {
    acts, p' := PollsOf(p, id, b);
    PollsEnd(p, acts, p', id);
  }
}
