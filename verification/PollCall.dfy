/** The query of one pending slot, from its claim to its release, with no other step in between. */
module PollCall {
  import opened FlightEvents
  import opened CheckpointPool
  import opened PoolInvariant
  import opened PoolTheorems
  import opened SubmitCall

  function Seen(me: Poller): Poller {
    me.(offset := me.offset + 1, checked := me.checked + 1, at := Scan)
  }

  /** The slot after an answer: free on 1, otherwise pending with the report remembered. */
  function AnsweredSlot(s: Slot, rc: int): Slot {
    if rc == 1 then s.(phase := FREE)
    else if rc == 0 then s.(phase := PENDING, notReadyGen := s.generation)
    else s.(phase := PENDING, errorGen := s.generation)
  }

  /** The lines an answer adds to the log. */
  function AnswerLines(id: SlotId, s: Slot, rc: int): seq<Call> {
    if rc == 1 then [Call(DEVICE_CONFIRMED, id.stream, s.checkpointId, s.submittedSeq, s.generation, 0)]
    else if rc == 0 then
      if s.notReadyGen == s.generation then []
      else [Call(CHECKPOINT, id.stream, s.checkpointId, s.submittedSeq, s.generation, NOT_READY)]
    else
      if s.errorGen == s.generation then []
      else [Call(CHECKPOINT, id.stream, s.checkpointId, s.submittedSeq, s.generation, QUERY_ERROR)]
  }

  function AnswerPlaces(s: Slot, rc: int): seq<nat> {
    if rc == 1 then [s.rec]
    else if (if rc == 0 then s.notReadyGen else s.errorGen) == s.generation then []
    else [0]
  }

  function AfterAnswer(p: Pool, q: nat, id: SlotId, rc: int): Pool
    requires q < |p.polls| && id in p.slots && id.stream in p.queue
  {
    var s := p.slots[id];
    p.(slots := p.slots[id := AnsweredSlot(s, rc)],
       log := p.log + AnswerLines(id, s, rc), prov := p.prov + AnswerPlaces(s, rc),
       queue := if rc == 1 then NoteConf(p, id.stream, s.rec).queue else p.queue,
       polls := p.polls[q := Seen(p.polls[q])])
  }

  /** Poller `q` with the answer in hand. */
  function Asked(p: Pool, q: nat, id: SlotId, rc: int): Pool
    requires q < |p.polls| && id in p.slots
  {
    var me := p.polls[q];
    var s := p.slots[id];
    p.(slots := p.slots[id := s.(phase := QUERYING)],
       polls := p.polls[q := me.(checked := me.checked + 1, at := Answered(id, s.generation, rc))])
  }

  /** The poller has claimed the slot and read its generation. */
  function Read(p: Pool, q: nat, id: SlotId): Pool
    requires q < |p.polls| && id in p.slots
  {
    var me := p.polls[q];
    var s := p.slots[id];
    p.(slots := p.slots[id := s.(phase := QUERYING)],
       polls := p.polls[q := me.(checked := me.checked + 1, at := Loaded(id, s.generation))])
  }

  lemma ReadGives(p: Pool, q: nat)
    requires Shape(p) && Enabled(p, Examine(q)) && p.slots[Target(p, q)].phase == PENDING
    requires Shape(DoExamine(p, q))
    ensures Steps(DoExamine(p, q), LoadGen(q), Read(p, q, Target(p, q)))
  {}

  /** Poller `q` is about to find slot `id` pending; an answer of 1 would be honest. */
  ghost predicate AboutToQuery(p: Pool, q: nat, id: SlotId, rc: int) {
    && Inv(p) && Enabled(p, Examine(q)) && Target(p, q) == id && id in p.slots && id.stream in p.queue
    && p.slots[id].phase == PENDING && (rc == 1 ==> AllComplete(p, id))
  }

  lemma ReadIsRun(p: Pool, q: nat, id: SlotId, rc: int)
    requires AboutToQuery(p, q, id, rc)
    ensures IsRun(p, [Examine(q), LoadGen(q)]) && Exec(p, [Examine(q), LoadGen(q)]) == Read(p, q, id) && Inv(Read(p, q, id))
  {
    KeepExamine(p, q);
    ReadGives(p, q);
    TwoSteps(p, Examine(q), DoExamine(p, q), LoadGen(q), Read(p, q, id));
  }

  lemma QueryGives(p: Pool, q: nat, id: SlotId, rc: int)
    requires q < |p.polls| && id in p.slots && Shape(Read(p, q, id)) && (rc == 1 ==> AllComplete(p, id))
    ensures Steps(Read(p, q, id), Query(q, rc), Asked(p, q, id, rc))
  {}

  lemma AskedIsRun(p: Pool, q: nat, id: SlotId, rc: int)
    requires AboutToQuery(p, q, id, rc)
    ensures var acts := [Examine(q), LoadGen(q), Query(q, rc)];
      IsRun(p, acts) && Exec(p, acts) == Asked(p, q, id, rc) && Inv(Asked(p, q, id, rc))
  {
    ReadIsRun(p, q, id, rc);
    QueryGives(p, q, id, rc);
    SnocTo(p, [Examine(q), LoadGen(q)], Read(p, q, id), Query(q, rc), Asked(p, q, id, rc));
    assert [Examine(q), LoadGen(q)] + [Query(q, rc)] == [Examine(q), LoadGen(q), Query(q, rc)];
  }

  /** Between the report and the release. */
  function Reported(p: Pool, q: nat, id: SlotId, rc: int): Pool
    requires q < |p.polls| && id in p.slots && id.stream in p.queue
  {
    var me := p.polls[q];
    var s := p.slots[id];
    p.(slots := p.slots[id := AnsweredSlot(s, rc).(phase := QUERYING)],
       log := p.log + AnswerLines(id, s, rc), prov := p.prov + AnswerPlaces(s, rc),
       queue := if rc == 1 then NoteConf(p, id.stream, s.rec).queue else p.queue,
       polls := p.polls[q := me.(checked := me.checked + 1, at := Told(id, rc))])
  }

  lemma ConfirmGives(p: Pool, q: nat, id: SlotId)
    requires q < |p.polls| && id in p.slots && id.stream in p.queue && Shape(Asked(p, q, id, 1))
    ensures Steps(Asked(p, q, id, 1), Report(q), Reported(p, q, id, 1))
  {}

  lemma ReportGives(p: Pool, q: nat, id: SlotId, rc: int)
    requires q < |p.polls| && id in p.slots && id.stream in p.queue && Shape(Asked(p, q, id, rc)) && rc != 1
    ensures Steps(Asked(p, q, id, rc), Report(q), Reported(p, q, id, rc))
  {}

  lemma ReleaseGives(p: Pool, q: nat, id: SlotId, rc: int)
    requires q < |p.polls| && id in p.slots && id.stream in p.queue
    requires Shape(Reported(p, q, id, rc))
    ensures Steps(Reported(p, q, id, rc), Release(q), AfterAnswer(p, q, id, rc))
  {
    var s := AnsweredSlot(p.slots[id], rc);
    assert p.slots[id := s.(phase := QUERYING)][id := s] == p.slots[id := s];
  }

  lemma ReportedReleased(p: Pool, q: nat, id: SlotId, rc: int)
    requires q < |p.polls| && id in p.slots && id.stream in p.queue && Inv(Asked(p, q, id, rc))
    ensures Steps(Asked(p, q, id, rc), Report(q), Reported(p, q, id, rc))
    ensures Steps(Reported(p, q, id, rc), Release(q), AfterAnswer(p, q, id, rc))
  {
    if rc == 1 { ConfirmGives(p, q, id); } else { ReportGives(p, q, id, rc); }
    StepKeepsInv(Asked(p, q, id, rc), Report(q));
    ReleaseGives(p, q, id, rc);
  }

  function QueryActions(q: nat, rc: int): seq<Action> {
    [Examine(q), LoadGen(q), Query(q, rc), Report(q), Release(q)]
  }

  lemma QueryJoins(p: Pool, p1: Pool, p2: Pool, p3: Pool, q: nat, rc: int)
    requires IsRun(p, [Examine(q), LoadGen(q), Query(q, rc)]) && Exec(p, [Examine(q), LoadGen(q), Query(q, rc)]) == p1
    requires Inv(p1) && Steps(p1, Report(q), p2) && Steps(p2, Release(q), p3)
    ensures IsRun(p, QueryActions(q, rc)) && Exec(p, QueryActions(q, rc)) == p3 && Inv(p3)
  {
    var acts := [Examine(q), LoadGen(q), Query(q, rc)];
    SnocTo(p, acts, p1, Report(q), p2);
    SnocTo(p, acts + [Report(q)], p2, Release(q), p3);
    assert acts + [Report(q)] + [Release(q)] == QueryActions(q, rc);
  }

  lemma QueryIsRun(p: Pool, q: nat, id: SlotId, rc: int)
    requires AboutToQuery(p, q, id, rc)
    ensures IsRun(p, QueryActions(q, rc)) && Exec(p, QueryActions(q, rc)) == AfterAnswer(p, q, id, rc)
    ensures Inv(AfterAnswer(p, q, id, rc))
  {
    AskedIsRun(p, q, id, rc);
    ReportedReleased(p, q, id, rc);
    QueryJoins(p, Asked(p, q, id, rc), Reported(p, q, id, rc), AfterAnswer(p, q, id, rc), q, rc);
  }

  // ---- The start of a poll ----

  function Started(p: Pool, q: nat, budget: nat): Pool
    requires q < |p.polls|
  {
    p.(polling := true, pollOwner := q, pollCursor := (p.pollCursor + budget) % U64,
       polls := p.polls[q := Poller(budget, p.pollCursor, 0, 0, Scan)])
  }

  lemma StartGives(p: Pool, q: nat, budget: nat)
    requires Shape(p) && !p.polling && Enabled(p, Enter(q, budget)) && Shape(DoEnter(p, q, budget))
    ensures Total(p) > 0 ==> Steps(DoEnter(p, q, budget), Advance(q), Started(p, q, budget))
    ensures Total(p) == 0 ==>
      Steps(DoEnter(p, q, budget), Advance(q), p.(pollOwner := q, polls := p.polls[q := Poller(budget, 0, 0, 0, Away)]))
  {}

  lemma StartIsRun(p: Pool, q: nat, budget: nat)
    requires Inv(p) && !p.polling && Enabled(p, Enter(q, budget)) && Total(p) > 0
    ensures var acts := [Enter(q, budget), Advance(q)];
      IsRun(p, acts) && Exec(p, acts) == Started(p, q, budget) && Inv(Started(p, q, budget))
  {
    KeepEnter(p, q, budget);
    StartGives(p, q, budget);
    TwoSteps(p, Enter(q, budget), DoEnter(p, q, budget), Advance(q), Started(p, q, budget));
  }

  /** Without streams the poll sets the flag and clears it again. */
  lemma EmptyIsRun(p: Pool, q: nat, budget: nat)
    requires Inv(p) && !p.polling && Enabled(p, Enter(q, budget)) && Total(p) == 0
    ensures var acts := [Enter(q, budget), Advance(q)];
      var p' := p.(pollOwner := q, polls := p.polls[q := Poller(budget, 0, 0, 0, Away)]);
      IsRun(p, acts) && Exec(p, acts) == p' && Inv(p')
  {
    KeepEnter(p, q, budget);
    StartGives(p, q, budget);
    TwoSteps(p, Enter(q, budget), DoEnter(p, q, budget), Advance(q),
             p.(pollOwner := q, polls := p.polls[q := Poller(budget, 0, 0, 0, Away)]));
  }

  /** An answer changes which log line speaks of a recording, not what has completed. */
  lemma AnswerKeepsComplete(p: Pool, q: nat, id: SlotId, rc: int, d: SlotId)
    requires q < |p.polls| && id in p.slots && id.stream in p.queue && AllComplete(p, d)
    ensures AllComplete(AfterAnswer(p, q, id, rc), d)
  {}
}
