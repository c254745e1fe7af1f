/** Any logged recording of a pool can be brought to its DEVICE_CONFIRMED line, without another recording
    and without the device passing it. */
module ConfirmDriver {
  import opened FlightEvents
  import opened ModArith
  import opened CheckpointPool
  import opened PoolInvariant
  import opened PoolFrames
  import opened PoolTheorems
  import opened SubmitCall
  import opened PollFairness
  import opened ReadyConfirmed
  import opened PollDriver

  /** No submission starts and none is recorded. */
  predicate Calm(acts: seq<Action>) {
    forall i :: 0 <= i < |acts| ==> !acts[i].Begin? && !acts[i].RecordOk?
  }

  /** A calm run that adds no recording. */
  ghost predicate Leads(p: Pool, acts: seq<Action>, p': Pool) {
    && IsRun(p, acts) && Exec(p, acts) == p' && Calm(acts) && Inv(p')
    && SameRecordings(p, p') && p'.ids == p.ids && p'.k == p.k && |p'.polls| == |p.polls|
  }

  lemma LeadsJoin(p: Pool, a: seq<Action>, p1: Pool, b: seq<Action>, p2: Pool)
    requires Leads(p, a, p1) && Leads(p1, b, p2)
    ensures Leads(p, a + b, p2)
  {
    RunJoin(p, a, b);
    SameRecordingsTrans(p, p1, p2);
  }

  lemma PollsLead(p: Pool, acts: seq<Action>, p': Pool)
    requires IsRun(p, acts) && Exec(p, acts) == p' && OnlyPolls(acts) && Inv(p') && ByPoller(p, p')
    ensures Leads(p, acts, p')
  {}

  // ---- The lines of a recording ----

  function Answer(st: nat, r: Recording): Call {
    Call(DEVICE_CONFIRMED, st, r.cid, r.sseq, r.gen, 0)
  }

  ghost predicate LogHas(p: Pool, c: Call) {
    exists i :: 0 <= i < |p.log| && p.log[i] == c
  }

  predicate AtPlace(p: Pool, st: nat, i: nat) {
    st in p.queue && i < |p.queue[st]|
  }

  lemma ConfirmedIsAnswered(p: Pool, st: nat, i: nat)
    requires Inv(p) && AtPlace(p, st, i) && p.queue[st][i].conf >= 0
    ensures LogHas(p, Answer(st, p.queue[st][i]))
  {
    assert RecOk(p, st, i);
  }

  lemma SameAnswer(p: Pool, p': Pool, st: nat, i: nat)
    requires AtPlace(p, st, i) && SameRecordings(p, p')
    ensures AtPlace(p', st, i) && Answer(st, p'.queue[st][i]) == Answer(st, p.queue[st][i])
    ensures p'.queue[st][i].line == p.queue[st][i].line && p'.queue[st][i].index == p.queue[st][i].index
  {
    assert SameRecording(p.queue[st][i], p'.queue[st][i]);
  }

  /** The event of place `i` waits on the device for its confirmation. */
  predicate Awaits(p: Pool, id: SlotId, i: nat) {
    AtPlace(p, id.stream, i) && p.queue[id.stream][i].index == id.index && p.queue[id.stream][i].conf < 0
    && id in p.slots && p.slots[id].rec == i && (p.slots[id].phase == PENDING || p.slots[id].phase == QUERYING)
  }

  lemma AwaitsFields(p: Pool, id: SlotId, i: nat)
    requires Inv(p) && Awaits(p, id, i)
    ensures ConfirmationOf(id, p.slots[id]) == Answer(id.stream, p.queue[id.stream][i])
    ensures !p.polling ==> p.slots[id].phase == PENDING
  {
    assert SlotOk(p, id) && InFlight(p, id);
  }

  /** After polling, the recording is confirmed or still waits. */
  lemma AwaitsOrConfirmed(p: Pool, p': Pool, id: SlotId, i: nat)
    requires Inv(p) && Inv(p') && Awaits(p, id, i) && ByPoller(p, p')
    ensures AtPlace(p', id.stream, i) && (p'.queue[id.stream][i].conf >= 0 || Awaits(p', id, i))
  {
    SameAnswer(p, p', id.stream, i);
    assert RecOk(p', id.stream, i);
    if p'.queue[id.stream][i].conf < 0 && p'.slots[id].phase == RESERVED {
      assert SlotOk(p', id) && SubOk(p, p'.slots[id].holder);
    }
  }

  /** A waiting event whose latest recording has completed has no recording left to complete. */
  lemma LatestComplete(p: Pool, id: SlotId, i: nat)
    requires Inv(p) && Awaits(p, id, i) && id.stream in p.done && i < p.done[id.stream]
    ensures AllComplete(p, id)
  {
    forall j | 0 <= j < |p.queue[id.stream]| && p.queue[id.stream][j].index == id.index ensures j < p.done[id.stream] {
      assert RecOk(p, id.stream, j);
    }
  }

  // ---- Driving it ----

  lemma CursorReset(c: nat)
    ensures 1 <= U64 - c % U64 && (c + (U64 - c % U64)) % U64 == 0
  {
    DivModUnique(c + (U64 - c % U64), U64, c / U64 + 1, 0);
  }

  /** With the cursor at zero one whole round of polling confirms a complete pending slot. */
  lemma RoundConfirms(p: Pool, id: SlotId, i: nat) returns (acts: seq<Action>, p': Pool)
    requires Inv(p) && !p.polling && |p.polls| >= 1 && 1 <= Total(p) <= U64 && p.pollCursor == 0
    requires Awaits(p, id, i) && AllComplete(p, id)
    ensures Leads(p, acts, p') && LogHas(p', Answer(id.stream, p.queue[id.stream][i])) && p'.done == p.done
  {
    AwaitsFields(p, id, i);
    acts, p' := WholePolls(p, id, Total(p));
    PollsLead(p, acts, p');
    ReadyIsConfirmed(p, acts, id);
  }

  lemma IdleConfirms(p: Pool, id: SlotId, i: nat) returns (acts: seq<Action>, p': Pool)
    requires Inv(p) && !p.polling && |p.polls| >= 1 && 1 <= Total(p) <= U64
    requires Awaits(p, id, i) && AllComplete(p, id)
    ensures Leads(p, acts, p') && LogHas(p', Answer(id.stream, p.queue[id.stream][i])) && p'.done == p.done
  {
    CursorReset(p.pollCursor);
    acts, p' := WholePolls(p, id, U64 - p.pollCursor % U64);
    PollsLead(p, acts, p');
    AwaitsOrConfirmed(p, p', id, i);
    SameAnswer(p, p', id.stream, i);
    if p'.queue[id.stream][i].conf >= 0 {
      ConfirmedIsAnswered(p', id.stream, i);
    } else {
      var more, p2 := RoundConfirms(p', id, i);
      LeadsJoin(p, acts, p', more, p2);
      acts, p' := acts + more, p2;
    }
  }

  lemma AwaitingConfirms(p: Pool, id: SlotId, i: nat) returns (acts: seq<Action>, p': Pool)
    requires Inv(p) && |p.polls| >= 1 && 1 <= Total(p) <= U64
    requires Awaits(p, id, i) && AllComplete(p, id)
    ensures Leads(p, acts, p') && LogHas(p', Answer(id.stream, p.queue[id.stream][i])) && p'.done == p.done
  {
    acts, p' := FinishPoll(p, id);
    PollsLead(p, acts, p');
    AwaitsOrConfirmed(p, p', id, i);
    SameAnswer(p, p', id.stream, i);
    if p'.queue[id.stream][i].conf >= 0 {
      ConfirmedIsAnswered(p', id.stream, i);
    } else {
      var more, p2 := IdleConfirms(p', id, i);
      LeadsJoin(p, acts, p', more, p2);
      acts, p' := acts + more, p2;
    }
  }

  /** The device goes on until it has completed `n` recordings of the stream. */
  lemma {:induction false} DeviceTo(p: Pool, st: nat, n: nat) returns (acts: seq<Action>, p': Pool)
    requires Inv(p) && st in p.queue && st in p.done && n <= |p.queue[st]|
    ensures Leads(p, acts, p') && p' == p.(done := p'.done) && st in p'.done
    ensures p'.done[st] == if n <= p.done[st] then p.done[st] else n
    decreases if n <= p.done[st] then 0 else n - p.done[st]
  {
    if n <= p.done[st] {
      acts, p' := [], p;
      SameQueue(p, p);
    } else {
      var p1 := OneCompletes(p, st);
      var rest;
      rest, p' := DeviceTo(p1, st, n);
      LeadsJoin(p, [DeviceCompletes(st)], p1, rest, p');
      acts := [DeviceCompletes(st)] + rest;
    }
  }

  lemma OneCompletes(p: Pool, st: nat) returns (p1: Pool)
    requires Inv(p) && st in p.queue && st in p.done && p.done[st] < |p.queue[st]|
    ensures Leads(p, [DeviceCompletes(st)], p1) && p1 == p.(done := p.done[st := p.done[st] + 1])
  {
    p1 := DoDevice(p, st);
    OneStepLeads(p, DeviceCompletes(st));
  }

  /** A single calm step. */
  lemma OneStepLeads(p: Pool, a: Action)
    requires Inv(p) && Enabled(p, a) && !a.Begin? && !a.RecordOk? && !a.LogSubmitted?
    requires |Apply(p, a).polls| == |p.polls|
    ensures Leads(p, [a], Apply(p, a))
  {
    Snoc(p, [], p, a);
    assert [] + [a] == [a];
    OtherSteps(p, a);
    SameStreams(p, a);
  }

  /** The owner of a logged recording publishes it. */
  lemma OwnerPublishes(p: Pool, st: nat, i: nat) returns (acts: seq<Action>, p': Pool)
    requires Inv(p) && AtPlace(p, st, i) && p.queue[st][i].line >= 0 && p.queue[st][i].conf < 0
    ensures Leads(p, acts, p') && p'.done == p.done && Awaits(p', SlotId(st, p.queue[st][i].index), i)
  {
    var id := SlotId(st, p.queue[st][i].index);
    assert RecOk(p, st, i) && SlotOk(p, id);
    if p.slots[id].phase == RESERVED {
      var t := p.slots[id].holder;
      PublishFrame(p, t);
      OneStepLeads(p, Publish(t));
      acts, p' := [Publish(t)], DoPublish(p, t);
    } else {
      acts, p' := [], p;
      SameQueue(p, p);
    }
  }

  /** A logged recording can be brought to its confirmation while the device completes nothing beyond it
      that it had not completed before. */
  lemma LoggedCanBeConfirmed(p: Pool, st: nat, i: nat) returns (acts: seq<Action>, p': Pool)
    requires Inv(p) && AtPlace(p, st, i) && p.queue[st][i].line >= 0
    requires |p.polls| >= 1 && Total(p) <= U64 && st in p.done
    ensures Leads(p, acts, p') && LogHas(p', Answer(st, p.queue[st][i])) && st in p'.done
    ensures p'.done[st] <= if p.done[st] <= i then i + 1 else p.done[st]
  {
    if p.queue[st][i].conf >= 0 {
      acts, p' := [], p;
      SameQueue(p, p);
      ConfirmedIsAnswered(p, st, i);
    } else {
      var a, p1 := OwnerPublishes(p, st, i);
      SameAnswer(p, p1, st, i);
      var b, p2 := DeviceTo(p1, st, i + 1);
      LeadsJoin(p, a, p1, b, p2);
      var id := SlotId(st, p.queue[st][i].index);
      var c;
      c, p' := PublishedConfirms(p2, id, i);
      LeadsJoin(p, a + b, p2, c, p');
      acts := a + b + c;
    }
  }

  lemma PublishedConfirms(p: Pool, id: SlotId, i: nat) returns (acts: seq<Action>, p': Pool)
    requires Inv(p) && |p.polls| >= 1 && Total(p) <= U64
    requires Awaits(p, id, i) && id.stream in p.done && i < p.done[id.stream]
    ensures Leads(p, acts, p') && LogHas(p', Answer(id.stream, p.queue[id.stream][i])) && p'.done == p.done
  {
    LatestComplete(p, id, i);
    assert HasId(p, id);
    TotalPositive(p);
    acts, p' := AwaitingConfirms(p, id, i);
  }
}
