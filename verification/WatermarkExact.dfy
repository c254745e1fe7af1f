/** The recording guard is the exact condition for truthful reports: where it fails, the pool can be led
    to a report that calls a checkpoint confirmed although the device has not reached it. */
module WatermarkExact {
  import opened Records
  import opened FlightEvents
  import opened CheckpointPool
  import opened PoolInvariant
  import opened PoolFrames
  import opened PoolTheorems
  import opened ConfirmDriver
  import opened Progress
  import opened Watermark

  // ---- A report that misleads ----

  /** The parsed events of the whole log. */
  function WholeReport(log: seq<Call>): (evs: seq<Event>)
    ensures |evs| == |log| && forall i :: 0 <= i < |log| ==> evs[i] == Rec(i + 1, Body(0, 0, 0, 0, 0, log[i]))
  {
    seq(|log|, (i: nat) requires i < |log| => Rec(i + 1, Body(0, 0, 0, 0, 0, log[i])))
  }

  /** Place `j` has not completed, but place `i` has its confirmation line, and that line marks `j` too:
      either it was logged earlier or a confirmation of `i` matches it. */
  ghost predicate Misleading(p: Pool, st: nat, i: nat, j: nat) {
    && AtPlace(p, st, i) && AtPlace(p, st, j) && st in p.done && p.done[st] <= j
    && p.queue[st][i].line >= 0 && p.queue[st][j].line >= 0 && LogHas(p, Answer(st, p.queue[st][i]))
    && (p.queue[st][j].line < p.queue[st][i].line || SameTuple(p.queue[st][i], p.queue[st][j]))
  }

  lemma AnswerConfirms(p: Pool, st: nat, r: Recording, e: Event)
    requires LogHas(p, Answer(st, r)) && r.gen >= 1
    requires e.body.call.stream == st && e.body.call.corr == r.cid && e.body.call.arg0 == r.sseq && e.body.call.arg1 == r.gen
    ensures Confirmation(WholeReport(p.log), KeyOf(e)).Some?
  {
    var evs := WholeReport(p.log);
    ConfirmationMeaning(evs, KeyOf(e));
    var c :| 0 <= c < |p.log| && p.log[c] == Answer(st, r);
    assert Confirms(evs[c]) && KeyOf(evs[c]) == KeyOf(e);
  }

  /** The event of the SUBMITTED line of place `j`. */
  lemma LineEvent(p: Pool, st: nat, j: nat) returns (e: Event)
    requires Inv(p) && AtPlace(p, st, j) && p.queue[st][j].line >= 0
    ensures e in WholeReport(p.log) && SubmittedOn(e, st) && e.seqno == p.queue[st][j].line + 1
    ensures var r, c := p.queue[st][j], e.body.call; c.stream == st && c.corr == r.cid && c.arg0 == r.sseq && c.arg1 == r.gen >= 1
    ensures st in p.done && p.done[st] <= j ==> !CompletedOnDevice(p, e)
  {
    assert RecOk(p, st, j);
    var evs, l := WholeReport(p.log), p.queue[st][j].line;
    e := evs[l];
  }

  lemma WholeIsRetained(p: Pool)
    ensures Retained(p, WholeReport(p.log))
  {}

  lemma MarkedNotComplete(p: Pool, st: nat, e: Event, f: Event)
    requires e in WholeReport(p.log) && SubmittedOn(e, st) && f in WholeReport(p.log) && SubmittedOn(f, st)
    requires e.seqno <= f.seqno && Confirmation(WholeReport(p.log), KeyOf(f)).Some? && !CompletedOnDevice(p, e)
    ensures !Truthful(p)
  {
    var evs := WholeReport(p.log);
    var m := BehindExactIsConfirmed(evs, st, e, f);
    WholeIsRetained(p);
    assert !ConfirmedIsTrue(p, evs, st, m);
  }

  lemma MisleadingIsUntruthful(p: Pool, st: nat, i: nat, j: nat)
    requires Inv(p) && Misleading(p, st, i, j)
    ensures !Truthful(p)
  {
    var e := LineEvent(p, st, j);
    var f := LineEvent(p, st, i);
    if SameTuple(p.queue[st][i], p.queue[st][j]) {
      AnswerConfirms(p, st, p.queue[st][i], e);
      MarkedNotComplete(p, st, e, e);
    } else {
      AnswerConfirms(p, st, p.queue[st][i], f);
      MarkedNotComplete(p, st, e, f);
    }
  }

  // ---- From a failing guard to a misleading report ----

  /** Place `i` is on the device before place `j`, which is logged and not complete, and `i` is logged
      later or under the same tuple. */
  ghost predicate Crossed(p: Pool, st: nat, i: nat, j: nat) {
    && AtPlace(p, st, i) && AtPlace(p, st, j) && i < j && st in p.done && p.done[st] <= j
    && p.queue[st][i].line >= 0 && p.queue[st][j].line >= 0
    && (p.queue[st][j].line < p.queue[st][i].line || SameTuple(p.queue[st][i], p.queue[st][j]))
  }

  lemma CrossedMisleads(p: Pool, st: nat, i: nat, j: nat) returns (acts: seq<Action>, p': Pool)
    requires Inv(p) && Crossed(p, st, i, j) && |p.polls| >= 1 && Total(p) <= U64
    ensures IsRun(p, acts) && Exec(p, acts) == p' && Calm(acts) && !Truthful(p')
  {
    acts, p' := LoggedCanBeConfirmed(p, st, i);
    SameAnswer(p, p', st, i);
    SameAnswer(p, p', st, j);
    assert SameRecording(p.queue[st][i], p'.queue[st][i]) && SameRecording(p.queue[st][j], p'.queue[st][j]);
    MisleadingIsUntruthful(p', st, i, j);
  }

  /** The submitter has recorded at the end of its stream and logged; the earlier recordings are as they
      were. */
  ghost predicate NewestLogged(p: Pool, p': Pool, t: nat)
    requires Shape(p) && Enabled(p, RecordOk(t))
  {
    var st, me := p.subs[t].stream, p.subs[t];
    var q := p.queue[st];
    && p'.queue.Keys == p.queue.Keys && |p'.queue[st]| == |q| + 1 && p'.queue[st][..|q|] == q
    && p'.queue[st][|q|].(line := -1) == Recording(me.index, me.gen, me.sseq, me.cid, -1, -1)
    && p'.queue[st][|q|].line == |p.log|
    && p'.done == p.done && p'.ids == p.ids && p'.k == p.k && p'.polls == p.polls
    && |p'.log| == |p.log| + 1 && |p'.subs| == |p.subs| && (forall u :: 0 <= u < |p.subs| && u != t ==> p'.subs[u] == p.subs[u])
  }

  lemma RecordAndLog(p: Pool, t: nat)
    requires Inv(p) && Enabled(p, RecordOk(t))
    ensures var p1 := DoRecordOk(p, t);
      Inv(p1) && Enabled(p1, LogSubmitted(t)) && Inv(DoLogSubmitted(p1, t)) && NewestLogged(p, DoLogSubmitted(p1, t), t)
  {
    KeepRecordOk(p, t);
    KeepLogSubmitted(DoRecordOk(p, t), t);
    var p1 := DoRecordOk(p, t);
    var st := p.subs[t].stream;
    assert p1.slots[OwnId(p.subs[t])].rec == |p.queue[st]|;
  }

  /** Once it is logged, whichever recording it should have stood behind makes the report untruthful. */
  lemma LoggedMisleads(p: Pool, t: nat, p2: Pool, i: nat) returns (acts: seq<Action>, p': Pool)
    requires Inv(p) && Enabled(p, RecordOk(t)) && Inv(p2) && NewestLogged(p, p2, t) && |p.polls| >= 1 && Total(p) <= U64
    requires i < |p.queue[p.subs[t].stream]| && !Behind(p.subs[t], p.queue[p.subs[t].stream][i])
    ensures IsRun(p2, acts) && Exec(p2, acts) == p' && Calm(acts) && !Truthful(p')
  {
    var st, n := p.subs[t].stream, |p.queue[p.subs[t].stream]|;
    if p.queue[st][i].line >= 0 {
      assert p2.queue[st][..n][i] == p2.queue[st][i];
      acts, p' := CrossedMisleads(p2, st, i, n);
    } else {
      var u, p3 := UnloggedLogs(p, p2, t, i);
      acts, p' := LateLogMisleads(p2, u, p3, st, i, n);
    }
  }

  /** A recording that the guard forbids leads, without any further recording, to an untruthful report. */
  lemma ForbiddenMisleads(p: Pool, t: nat) returns (acts: seq<Action>)
    requires Inv(p) && Enabled(p, RecordOk(t)) && !RecordGuard(p, t) && |p.polls| >= 1 && Total(p) <= U64
    ensures IsRun(DoRecordOk(p, t), acts) && Calm(acts) && !Truthful(Exec(DoRecordOk(p, t), acts))
  {
    RecordAndLog(p, t);
    var p1 := DoRecordOk(p, t);
    var p2 := DoLogSubmitted(p1, t);
    var i :| 0 <= i < |p.queue[p.subs[t].stream]| && !Behind(p.subs[t], p.queue[p.subs[t].stream][i]);
    var more, p3 := LoggedMisleads(p, t, p2, i);
    LogFirst(p1, t, p2, more);
    acts := [LogSubmitted(t)] + more;
  }

  lemma LogFirst(p: Pool, t: nat, p1: Pool, rest: seq<Action>)
    requires Shape(p) && Enabled(p, LogSubmitted(t)) && Apply(p, LogSubmitted(t)) == p1 && IsRun(p1, rest) && Calm(rest)
    ensures var acts := [LogSubmitted(t)] + rest;
      IsRun(p, acts) && Exec(p, acts) == Exec(p1, rest) && Calm(acts)
  {
    assert ([LogSubmitted(t)] + rest)[1..] == rest;
  }

  /** The owner of the earlier recording logs after the later one has been logged. */
  lemma LateLogMisleads(p2: Pool, u: nat, p3: Pool, st: nat, i: nat, j: nat) returns (acts: seq<Action>, p': Pool)
    requires Shape(p2) && Enabled(p2, LogSubmitted(u)) && Apply(p2, LogSubmitted(u)) == p3
    requires Inv(p3) && Crossed(p3, st, i, j) && |p3.polls| >= 1 && Total(p3) <= U64
    ensures IsRun(p2, acts) && Exec(p2, acts) == p' && Calm(acts) && !Truthful(p')
  {
    var rest;
    rest, p' := CrossedMisleads(p3, st, i, j);
    LogFirst(p2, u, p3, rest);
    acts := [LogSubmitted(u)] + rest;
  }

  lemma UnloggedLogs(p: Pool, p2: Pool, t: nat, i: nat) returns (u: nat, p3: Pool)
    requires Inv(p) && Enabled(p, RecordOk(t)) && Inv(p2) && NewestLogged(p, p2, t)
    requires i < |p.queue[p.subs[t].stream]| && p.queue[p.subs[t].stream][i].line < 0
    ensures Enabled(p2, LogSubmitted(u)) && p3 == Apply(p2, LogSubmitted(u)) && Inv(p3)
    ensures Crossed(p3, p.subs[t].stream, i, |p.queue[p.subs[t].stream]|) && p3.polls == p.polls && Total(p3) == Total(p)
  {
    u := UnloggedOwner(p, p2, t, i);
    KeepLogSubmitted(p2, u);
    p3 := DoLogSubmitted(p2, u);
  }

  lemma UnloggedOwner(p: Pool, p2: Pool, t: nat, i: nat) returns (u: nat)
    requires Inv(p) && Enabled(p, RecordOk(t)) && Inv(p2) && NewestLogged(p, p2, t)
    requires i < |p.queue[p.subs[t].stream]| && p.queue[p.subs[t].stream][i].line < 0
    ensures Enabled(p2, LogSubmitted(u)) && Crossed(DoLogSubmitted(p2, u), p.subs[t].stream, i, |p.queue[p.subs[t].stream]|)
    ensures DoLogSubmitted(p2, u).polls == p.polls && Total(DoLogSubmitted(p2, u)) == Total(p)
  {
    var st := p.subs[t].stream;
    var id := SlotId(st, p.queue[st][i].index);
    assert RecOk(p, st, i) && SlotOk(p, id);
    u := p.slots[id].holder;
    assert p2.queue[st][..|p.queue[st]|][i] == p2.queue[st][i];
    assert RecOk(p2, st, i) && SubOk(p2, u);
    LateLogCrosses(p2, u, i, |p.queue[st]|);
  }

  /** The owner of place `i` logs it when a later place is logged and not complete. */
  lemma LateLogCrosses(p: Pool, u: nat, i: nat, j: nat)
    requires Shape(p) && Enabled(p, LogSubmitted(u)) && p.slots[OwnId(p.subs[u])].rec == i < j
    requires var st := p.subs[u].stream;
      AtPlace(p, st, j) && st in p.done && p.done[st] <= j && 0 <= p.queue[st][j].line < |p.log|
    ensures Crossed(DoLogSubmitted(p, u), p.subs[u].stream, i, j)
  {}

  // ---- The exact condition ----

  /** Recording now is safe: whatever guarded run follows, reports stay truthful. */
  ghost predicate RecordingIsSafe(p: Pool, t: nat)
    requires Shape(p) && Enabled(p, RecordOk(t))
  {
    forall acts | IsGuardedRun(DoRecordOk(p, t), acts) ::
      IsRun(DoRecordOk(p, t), acts) && Truthful(Exec(DoRecordOk(p, t), acts))
  }

  lemma {:induction false} CalmIsGuarded(p: Pool, acts: seq<Action>)
    requires IsRun(p, acts) && Calm(acts)
    ensures IsGuardedRun(p, acts)
    decreases |acts|
  {
    if acts != [] {
      assert forall i :: 0 <= i < |acts[1..]| ==> acts[1..][i] == acts[i + 1];
      CalmIsGuarded(Apply(p, acts[0]), acts[1..]);
    }
  }

  lemma GuardIsSafe(p: Pool, t: nat)
    requires Inv(p) && Ordered(p) && Enabled(p, RecordOk(t)) && RecordGuard(p, t)
    ensures RecordingIsSafe(p, t)
  {
    KeepRecordOk(p, t);
    RecordKeepsOrder(p, t);
    forall acts | IsGuardedRun(DoRecordOk(p, t), acts)
      ensures IsRun(DoRecordOk(p, t), acts) && Truthful(Exec(DoRecordOk(p, t), acts))
    {
      GuardedKeeps(DoRecordOk(p, t), acts);
      OrderedIsTruthful(Exec(DoRecordOk(p, t), acts));
    }
  }

  /** The exact condition: from any state a guarded run can reach, in a pool that is polled, the next
      recording is safe if and only if it meets the guard. */
  lemma RecordGuardIsExact(p: Pool, t: nat)
    requires Inv(p) && Ordered(p) && Enabled(p, RecordOk(t)) && |p.polls| >= 1 && Total(p) <= U64
    ensures RecordingIsSafe(p, t) <==> RecordGuard(p, t)
  {
    if RecordGuard(p, t) {
      GuardIsSafe(p, t);
    } else {
      var acts := ForbiddenMisleads(p, t);
      CalmIsGuarded(DoRecordOk(p, t), acts);
    }
  }
}
