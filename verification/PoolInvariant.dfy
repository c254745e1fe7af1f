/** What every step of the checkpoint pool keeps, whatever the interleaving. */
module PoolInvariant {
  import opened FlightEvents
  import opened ScanOrder
  import opened CheckpointPool

  /** The slot's event is on the device queue and not yet free for another submission. */
  predicate InFlight(p: Pool, id: SlotId) {
    id in p.slots &&
    var s := p.slots[id];
    || s.phase == PENDING
    || s.phase == QUERYING
    || (s.phase == RESERVED && (InStage(p, s.holder, Recorded) || InStage(p, s.holder, Logged)))
  }

  predicate HeldBy(p: Pool, id: SlotId) {
    p.polling && p.pollOwner < |p.polls| && Holds(p.polls[p.pollOwner]) && p.polls[p.pollOwner].at.id == id
  }

  /** The poller has logged the confirmation of this slot and not yet freed it. */
  predicate Confirming(p: Pool, id: SlotId) {
    HeldBy(p, id) && p.polls[p.pollOwner].at.Told? && p.polls[p.pollOwner].at.rc == 1
  }

  /** The place of the slot's event on the device queue agrees with the slot. */
  predicate Current(p: Pool, id: SlotId)
    requires id in p.slots
  {
    var s := p.slots[id];
    id.stream in p.queue && s.rec < |p.queue[id.stream]| &&
    var r := p.queue[id.stream][s.rec];
    && r.index == id.index && r.gen == s.generation && r.sseq == s.submittedSeq && r.cid == s.checkpointId
    && (r.line < 0 <==> s.phase == RESERVED && InStage(p, s.holder, Recorded))
    && (r.conf < 0 <==> !(s.phase == QUERYING && Confirming(p, id)))
  }

  predicate SlotOk(p: Pool, id: SlotId) {
    id in p.slots ==>
      var s := p.slots[id];
      && (s.phase == RESERVED ==>
            s.holder < |p.subs| && p.subs[s.holder].Owning? && OwnId(p.subs[s.holder]) == id)
      && (s.phase == QUERYING ==> HeldBy(p, id))
      && (InFlight(p, id) ==> Current(p, id))
  }

  /** Every recording of the event belongs to an earlier generation. */
  ghost predicate OlderOnly(p: Pool, id: SlotId)
    requires id in p.slots
  {
    id.stream in p.queue &&
    forall j :: 0 <= j < |p.queue[id.stream]| && p.queue[id.stream][j].index == id.index ==>
      p.queue[id.stream][j].gen < p.slots[id].generation
  }

  ghost predicate SubOk(p: Pool, t: nat) {
    t < |p.subs| && p.subs[t].Owning? ==>
      var me := p.subs[t];
      var id := OwnId(me);
      id in p.slots &&
      var s := p.slots[id];
      && s.phase == RESERVED && s.holder == t
      && (me.stage != Reserved ==> me.gen == s.generation && me.gen >= 1)
      && (me.stage in {SeqStored, IdStored, Recorded, Logged} ==> s.submittedSeq == me.sseq)
      && (me.stage in {IdStored, Recorded, Logged} ==> s.checkpointId == me.cid)
      && (me.stage in {Numbered, SeqStored, IdStored} ==> OlderOnly(p, id))
  }

  ghost predicate PollOk(p: Pool, q: nat) {
    q < |p.polls| ==>
      var me := p.polls[q];
      && (!me.at.Away? <==> p.polling && p.pollOwner == q)
      && (Holds(me) ==>
            me.at.id in p.slots &&
            var s := p.slots[me.at.id];
            && s.phase == QUERYING
            && (me.at.Loaded? || me.at.Answered? ==> me.at.gen == s.generation)
            && (me.at.Answered? && me.at.rc == 1 ==> AllComplete(p, me.at.id))
            && (me.at.Told? && me.at.rc == 1 ==> AllComplete(p, me.at.id)))
  }

  predicate RecOk(p: Pool, st: nat, j: nat) {
    st in p.queue && j < |p.queue[st]| ==>
      var r := p.queue[st][j];
      var id := SlotId(st, r.index);
      && id in p.slots && st in p.done
      && 1 <= r.gen <= p.slots[id].generation
      && (r.conf >= 0 || (InFlight(p, id) && p.slots[id].rec == j))
      && (r.conf >= 0 ==> j < p.done[st] && r.line >= 0)
      && (r.line >= 0 ==> r.line < |p.log| && r.line < |p.prov| && p.prov[r.line] == j
                          && p.log[r.line] == Call(CHECKPOINT, st, r.cid, r.sseq, r.gen, SUBMITTED))
      && (r.conf >= 0 ==> r.line < r.conf < |p.log| && r.conf < |p.prov| && p.prov[r.conf] == j
                          && p.log[r.conf] == Call(DEVICE_CONFIRMED, st, r.cid, r.sseq, r.gen, 0))
  }

  /** The recording log line `i` speaks of carries the same stream, ids and generation. */
  predicate Describes(p: Pool, i: nat)
    requires i < |p.log|
  {
    var c := p.log[i];
    c.stream in p.queue && c.stream in p.ids && i < |p.prov| && p.prov[i] < |p.queue[c.stream]| &&
    var r := p.queue[c.stream][p.prov[i]];
    r.cid == c.corr && r.sseq == c.arg0 && r.gen == c.arg1
  }

  predicate LineOk(p: Pool, i: nat) {
    i < |p.log| ==>
      var c := p.log[i];
      && (IsSubmitted(c) ==> c.flags == SUBMITTED && Describes(p, i) && p.queue[c.stream][p.prov[i]].line == i)
      && (IsConfirmed(c) ==> Describes(p, i) && p.queue[c.stream][p.prov[i]].conf == i)
  }

  /** Later recordings of one event carry higher generations. */
  predicate GensRise(p: Pool, st: nat, i: nat, j: nat) {
    st in p.queue && i < j < |p.queue[st]| && p.queue[st][i].index == p.queue[st][j].index ==>
      p.queue[st][i].gen < p.queue[st][j].gen
  }

  ghost predicate DeviceOk(p: Pool) {
    forall st :: st in p.ids ==> st in p.queue && st in p.done && p.done[st] <= |p.queue[st]|
  }

  ghost predicate Inv(p: Pool) {
    && Shape(p)
    && DeviceOk(p)
    && (p.polling ==> p.pollOwner < |p.polls|)
    && (forall id :: SlotOk(p, id))
    && (forall t :: SubOk(p, t))
    && (forall q :: PollOk(p, q))
    && (forall st, j :: RecOk(p, st, j))
    && (forall i :: LineOk(p, i))
    && (forall st, i, j :: GensRise(p, st, i, j))
    && (forall st :: st in p.queue ==> st in p.ids)
  }

  lemma InitInv(p: Pool)
    requires Init(p)
    ensures Inv(p)
  {}


  // ---- Steps that move threads and at most append lines of other kinds ----

  predicate SameSlotsAndDevice(p: Pool, p': Pool) {
    && p'.ids == p.ids && p'.k == p.k && p'.slots == p.slots && p'.queue == p.queue && p'.done == p.done
    && |p'.subs| == |p.subs| && |p'.polls| == |p.polls|
  }

  ghost predicate NeutralLines(p: Pool, p': Pool) {
    && |p.log| <= |p'.log| && |p.prov| <= |p'.prov|
    && (forall i :: 0 <= i < |p.log| ==> p'.log[i] == p.log[i])
    && (forall i :: 0 <= i < |p.prov| ==> p'.prov[i] == p.prov[i])
    && (forall i :: |p.log| <= i < |p'.log| ==> !IsSubmitted(p'.log[i]) && !IsConfirmed(p'.log[i]))
  }

  /** Threads that hold no slot before or after may move. */
  ghost predicate HoldersStay(p: Pool, p': Pool)
    requires |p'.subs| == |p.subs| && |p'.polls| == |p.polls|
  {
    && (forall t :: 0 <= t < |p.subs| && (p.subs[t].Owning? || p'.subs[t].Owning?) ==> p'.subs[t] == p.subs[t])
    && (forall q :: 0 <= q < |p.polls| && (Holds(p.polls[q]) || Holds(p'.polls[q])) ==> p'.polls[q] == p.polls[q])
  }

  lemma ThreadsOnly(p: Pool, p': Pool)
    requires Inv(p) && Shape(p')
    requires SameSlotsAndDevice(p, p') && NeutralLines(p, p') && HoldersStay(p, p')
    requires p'.polling ==> p'.pollOwner < |p'.polls|
    requires forall q :: PollOk(p', q)
    ensures Inv(p')
  {
    forall id ensures SlotOk(p', id) {
      assert SlotOk(p, id);
      if id in p.slots && p.slots[id].phase == QUERYING { assert PollOk(p', p.pollOwner); }
    }
    forall t: nat ensures SubOk(p', t) { assert SubOk(p, t); }
    forall st, j: nat ensures RecOk(p', st, j) { assert RecOk(p, st, j); }
    forall i: nat ensures LineOk(p', i) { assert LineOk(p, i); }
    forall st, i: nat, j: nat ensures GensRise(p', st, i, j) { assert GensRise(p, st, i, j); }
  }

  // ---- Steps of a thread on the one slot it holds ----

  function WithSub(p: Pool, t: nat, x: Submitter, id: SlotId, s: Slot): Pool
    requires t < |p.subs|
  {
    PutSub(PutSlot(p, id, s), t, x)
  }

  lemma SubmitterMove(p: Pool, t: nat, x: Submitter, id: SlotId, s: Slot)
    requires Inv(p) && t < |p.subs| && id in p.slots
    requires if p.subs[t].Owning? then OwnId(p.subs[t]) == id else p.slots[id].phase == FREE
    requires x.Owning? ==> OwnId(x) == id
    requires SubShape(p, x) && s.phase != QUERYING && s.generation >= p.slots[id].generation
    requires var p' := WithSub(p, t, x, id, s); SlotOk(p', id) && SubOk(p', t)
    requires InFlight(p, id) <==> InFlight(WithSub(p, t, x, id, s), id)
    requires InFlight(p, id) ==> s.rec == p.slots[id].rec
    ensures Inv(WithSub(p, t, x, id, s))
  {
    var p' := WithSub(p, t, x, id, s);
    assert SubOk(p, t);
    forall d ensures SlotOk(p', d) { SubmitterMoveSlot(p, t, x, id, s, d); }
    forall u: nat ensures SubOk(p', u) { assert SubOk(p, u); }
    forall q: nat ensures PollOk(p', q) { assert PollOk(p, q); }
    forall st, j: nat ensures RecOk(p', st, j) { SubmitterMoveRec(p, t, x, id, s, st, j); }
    forall i: nat ensures LineOk(p', i) { assert LineOk(p, i); }
    forall st, i: nat, j: nat ensures GensRise(p', st, i, j) { assert GensRise(p, st, i, j); }
  }

  lemma SubmitterMoveSlot(p: Pool, t: nat, x: Submitter, id: SlotId, s: Slot, d: SlotId)
    requires Shape(p) && t < |p.subs| && id in p.slots && SubOk(p, t) && SlotOk(p, d)
    requires if p.subs[t].Owning? then OwnId(p.subs[t]) == id else p.slots[id].phase == FREE
    requires SlotOk(WithSub(p, t, x, id, s), id)
    ensures SlotOk(WithSub(p, t, x, id, s), d)
  {}

  lemma SubmitterMoveRec(p: Pool, t: nat, x: Submitter, id: SlotId, s: Slot, st: nat, j: nat)
    requires Inv(p) && t < |p.subs| && id in p.slots
    requires if p.subs[t].Owning? then OwnId(p.subs[t]) == id else p.slots[id].phase == FREE
    requires s.generation >= p.slots[id].generation
    requires InFlight(p, id) <==> InFlight(WithSub(p, t, x, id, s), id)
    requires InFlight(p, id) ==> s.rec == p.slots[id].rec
    ensures RecOk(WithSub(p, t, x, id, s), st, j)
  {
    assert RecOk(p, st, j);
    if st in p.queue && j < |p.queue[st]| { assert SlotOk(p, SlotId(st, p.queue[st][j].index)); }
  }

  function WithPoll(p: Pool, q: nat, x: Poller, id: SlotId, s: Slot): Pool
    requires q < |p.polls|
  {
    PutPoll(PutSlot(p, id, s), q, x)
  }

  /** Everything the slot's recordings depend on is as before. */
  predicate SameReservation(s: Slot, s': Slot) {
    s'.generation == s.generation && s'.rec == s.rec && s'.holder == s.holder
    && s'.submittedSeq == s.submittedSeq && s'.checkpointId == s.checkpointId
  }

  /** The slot's recording has its DEVICE_CONFIRMED line. */
  predicate Confirmed(p: Pool, id: SlotId)
    requires id in p.slots
  {
    id.stream in p.queue && p.slots[id].rec < |p.queue[id.stream]| && p.queue[id.stream][p.slots[id].rec].conf >= 0
  }

  lemma PollerMove(p: Pool, q: nat, x: Poller, id: SlotId, s: Slot)
    requires Inv(p) && q < |p.polls| && id in p.slots && p.polling && p.pollOwner == q
    requires if Holds(p.polls[q]) then p.polls[q].at.id == id else p.slots[id].phase == PENDING
    requires Holds(x) ==> x.at.id == id
    requires SameReservation(p.slots[id], s) && s.phase in {PENDING, QUERYING, FREE}
    requires var p' := WithPoll(p, q, x, id, s); SlotOk(p', id) && PollOk(p', q)
    requires s.phase == FREE ==> Confirmed(p, id)
    ensures Inv(WithPoll(p, q, x, id, s))
  {
    var p' := WithPoll(p, q, x, id, s);
    assert PollOk(p, q) && SlotOk(p, id);
    forall d ensures SlotOk(p', d) { assert SlotOk(p, d); }
    forall u: nat ensures SubOk(p', u) { assert SubOk(p, u); }
    forall r: nat ensures PollOk(p', r) { assert PollOk(p, r); }
    forall st, j: nat ensures RecOk(p', st, j) { assert RecOk(p, st, j); }
    forall i: nat ensures LineOk(p', i) { assert LineOk(p, i); }
    forall st, i: nat, j: nat ensures GensRise(p', st, i, j) { assert GensRise(p, st, i, j); }
  }

  lemma LinesOnly(p: Pool, c: Call)
    requires Inv(p) && !IsSubmitted(c) && !IsConfirmed(c)
    ensures Inv(Emit(p, c, 0))
  {
    forall q: nat ensures PollOk(Emit(p, c, 0), q) { assert PollOk(p, q); }
    ThreadsOnly(p, Emit(p, c, 0));
  }

  // ---- Each step ----

  lemma KeepBegin(p: Pool, t: nat, st: nat, sseq: nat, cid: nat)
    requires Inv(p) && Enabled(p, Begin(t, st, sseq, cid))
    ensures Inv(DoBegin(p, t, st, sseq, cid))
  {
    var p' := DoBegin(p, t, st, sseq, cid);
    forall q: nat ensures PollOk(p', q) { assert PollOk(p, q); }
    ThreadsOnly(p, p');
  }

  lemma KeepTry(p: Pool, t: nat)
    requires Inv(p) && Enabled(p, Try(t))
    ensures Inv(DoTry(p, t))
  {
    var me := p.subs[t];
    var id := SlotId(me.stream, Visit(me.start, me.n, p.k, U32));
    var p' := DoTry(p, t);
    assert SlotOk(p, id);
    if p.slots[id].phase == FREE {
      SubmitterMove(p, t, p'.subs[t], id, p'.slots[id]);
    } else {
      forall q: nat ensures PollOk(p', q) { assert PollOk(p, q); }
      ThreadsOnly(p, p');
    }
  }

  lemma KeepGiveUp(p: Pool, t: nat)
    requires Inv(p) && Enabled(p, GiveUp(t))
    ensures Inv(DoGiveUp(p, t))
  {
    var p' := DoGiveUp(p, t);
    forall q: nat ensures PollOk(p', q) { assert PollOk(p, q); }
    ThreadsOnly(p, p');
  }

  lemma KeepTakeNumber(p: Pool, t: nat)
    requires Inv(p) && Enabled(p, TakeNumber(t))
    ensures Inv(DoTakeNumber(p, t))
  {
    var id := OwnId(p.subs[t]);
    var p' := DoTakeNumber(p, t);
    assert SubOk(p, t) && SlotOk(p, id);
    forall j | 0 <= j < |p.queue[id.stream]| && p.queue[id.stream][j].index == id.index
      ensures p.queue[id.stream][j].gen < p'.slots[id].generation
    {
      assert RecOk(p, id.stream, j);
    }
    SubmitterMove(p, t, p'.subs[t], id, p'.slots[id]);
  }

  lemma KeepStoreSeq(p: Pool, t: nat)
    requires Inv(p) && Enabled(p, StoreSeq(t))
    ensures Inv(DoStoreSeq(p, t))
  {
    var id := OwnId(p.subs[t]);
    var p' := DoStoreSeq(p, t);
    assert SubOk(p, t) && SlotOk(p, id);
    SubmitterMove(p, t, p'.subs[t], id, p'.slots[id]);
  }

  lemma KeepStoreId(p: Pool, t: nat)
    requires Inv(p) && Enabled(p, StoreId(t))
    ensures Inv(DoStoreId(p, t))
  {
    var id := OwnId(p.subs[t]);
    var p' := DoStoreId(p, t);
    assert SubOk(p, t) && SlotOk(p, id);
    SubmitterMove(p, t, p'.subs[t], id, p'.slots[id]);
  }

  lemma KeepRecordFails(p: Pool, t: nat)
    requires Inv(p) && Enabled(p, RecordFails(t))
    ensures Inv(DoRecordFails(p, t))
  {
    var id := OwnId(p.subs[t]);
    var p' := DoRecordFails(p, t);
    assert SubOk(p, t) && SlotOk(p, id);
    SubmitterMove(p, t, p'.subs[t], id, p'.slots[id]);
  }

  lemma KeepPublish(p: Pool, t: nat)
    requires Inv(p) && Enabled(p, Publish(t))
    ensures Inv(DoPublish(p, t))
  {
    var id := OwnId(p.subs[t]);
    var p' := DoPublish(p, t);
    assert SubOk(p, t) && SlotOk(p, id);
    SubmitterMove(p, t, p'.subs[t], id, p'.slots[id]);
  }

  lemma RecordOkSlot(p: Pool, t: nat, d: SlotId)
    requires Shape(p) && Enabled(p, RecordOk(t)) && SubOk(p, t) && SlotOk(p, OwnId(p.subs[t])) && SlotOk(p, d)
    ensures SlotOk(DoRecordOk(p, t), d)
  {}

  lemma RecordOkSub(p: Pool, t: nat, u: nat)
    requires Shape(p) && Enabled(p, RecordOk(t)) && SubOk(p, t) && SubOk(p, u)
    ensures SubOk(DoRecordOk(p, t), u)
  {}

  lemma RecordOkPoll(p: Pool, t: nat, q: nat)
    requires Shape(p) && Enabled(p, RecordOk(t)) && SubOk(p, t) && PollOk(p, q)
    ensures PollOk(DoRecordOk(p, t), q)
  {}

  lemma RecordOkRec(p: Pool, t: nat, st: nat, j: nat)
    requires Shape(p) && Enabled(p, RecordOk(t)) && SubOk(p, t) && SlotOk(p, OwnId(p.subs[t])) && RecOk(p, st, j)
    ensures RecOk(DoRecordOk(p, t), st, j)
  {}

  lemma RecordOkRises(p: Pool, t: nat, st: nat, i: nat, j: nat)
    requires Shape(p) && Enabled(p, RecordOk(t)) && SubOk(p, t) && GensRise(p, st, i, j)
    ensures GensRise(DoRecordOk(p, t), st, i, j)
  {}

  lemma RecordOkParts(p: Pool, t: nat)
    requires Inv(p) && Enabled(p, RecordOk(t))
    ensures forall d :: SlotOk(DoRecordOk(p, t), d)
    ensures forall u: nat :: SubOk(DoRecordOk(p, t), u)
    ensures forall q: nat :: PollOk(DoRecordOk(p, t), q)
    ensures forall st, j: nat :: RecOk(DoRecordOk(p, t), st, j)
    ensures forall st, i: nat, j: nat :: GensRise(DoRecordOk(p, t), st, i, j)
  {
    assert SubOk(p, t);
    forall d ensures SlotOk(DoRecordOk(p, t), d) { RecordOkSlot(p, t, d); }
    forall u: nat ensures SubOk(DoRecordOk(p, t), u) { RecordOkSub(p, t, u); }
    forall q: nat ensures PollOk(DoRecordOk(p, t), q) { RecordOkPoll(p, t, q); }
    forall st, j: nat ensures RecOk(DoRecordOk(p, t), st, j) { RecordOkRec(p, t, st, j); }
    forall st, i: nat, j: nat ensures GensRise(DoRecordOk(p, t), st, i, j) { RecordOkRises(p, t, st, i, j); }
  }

  lemma KeepRecordOk(p: Pool, t: nat)
    requires Inv(p) && Enabled(p, RecordOk(t))
    ensures Inv(DoRecordOk(p, t))
  {
    RecordOkParts(p, t);
    forall i: nat ensures LineOk(DoRecordOk(p, t), i) { assert LineOk(p, i); }
  }

  /** The queue holds the same events with the same generations, whatever lines they now point to. */
  ghost predicate SameEvents(p: Pool, p': Pool) {
    && (forall st :: st in p.queue <==> st in p'.queue)
    && (forall st :: st in p.queue ==> |p'.queue[st]| == |p.queue[st]|)
    && (forall st, j :: st in p.queue && 0 <= j < |p.queue[st]| ==>
          p'.queue[st][j].index == p.queue[st][j].index && p'.queue[st][j].gen == p.queue[st][j].gen)
  }

  /** The clauses that look only at the events of the queue. */
  lemma SameEventsKeep(p: Pool, p': Pool)
    requires Inv(p) && SameEvents(p, p') && p'.slots == p.slots && p'.polls == p.polls && p'.done == p.done
    requires p'.polling == p.polling && p'.pollOwner == p.pollOwner
    ensures forall q: nat :: PollOk(p', q)
    ensures forall st, i: nat, j: nat :: GensRise(p', st, i, j)
    ensures forall id :: id in p.slots && OlderOnly(p, id) ==> OlderOnly(p', id)
  {
    forall q: nat ensures PollOk(p', q) { assert PollOk(p, q); }
    forall st, i: nat, j: nat ensures GensRise(p', st, i, j) { assert GensRise(p, st, i, j); }
  }

  lemma LogSubmittedEvents(p: Pool, t: nat)
    requires Shape(p) && Enabled(p, LogSubmitted(t))
    ensures var p' := DoLogSubmitted(p, t);
      SameEvents(p, p') && p'.slots == p.slots && p'.polls == p.polls && p'.done == p.done
      && p'.polling == p.polling && p'.pollOwner == p.pollOwner
  {}

  lemma LogSubmittedShape(p: Pool, t: nat)
    requires Shape(p) && DeviceOk(p) && Enabled(p, LogSubmitted(t))
    ensures Shape(DoLogSubmitted(p, t)) && DeviceOk(DoLogSubmitted(p, t))
  {
    LogSubmittedEvents(p, t);
  }

  lemma LogSubmittedSlot(p: Pool, t: nat, d: SlotId)
    requires Shape(p) && Enabled(p, LogSubmitted(t)) && SubOk(p, t) && SlotOk(p, OwnId(p.subs[t])) && SlotOk(p, d)
    ensures SlotOk(DoLogSubmitted(p, t), d)
  {}

  lemma LogSubmittedSlots(p: Pool, t: nat)
    requires Inv(p) && Enabled(p, LogSubmitted(t))
    ensures forall d :: SlotOk(DoLogSubmitted(p, t), d)
  {
    forall d ensures SlotOk(DoLogSubmitted(p, t), d) { LogSubmittedSlot(p, t, d); }
  }

  lemma LogSubmittedSub(p: Pool, t: nat, u: nat)
    requires Shape(p) && Enabled(p, LogSubmitted(t)) && SubOk(p, t) && SubOk(p, u)
    ensures SubOk(DoLogSubmitted(p, t), u)
  {
    LogSubmittedEvents(p, t);
  }

  lemma LogSubmittedSubs(p: Pool, t: nat)
    requires Inv(p) && Enabled(p, LogSubmitted(t))
    ensures forall u: nat :: SubOk(DoLogSubmitted(p, t), u)
  {
    forall u: nat ensures SubOk(DoLogSubmitted(p, t), u) { LogSubmittedSub(p, t, u); }
  }

  lemma LogSubmittedRec(p: Pool, t: nat, st: nat, j: nat)
    requires Shape(p) && Enabled(p, LogSubmitted(t)) && SubOk(p, t) && SlotOk(p, OwnId(p.subs[t])) && RecOk(p, st, j)
    ensures RecOk(DoLogSubmitted(p, t), st, j)
  {}

  lemma LogSubmittedRecs(p: Pool, t: nat)
    requires Inv(p) && Enabled(p, LogSubmitted(t))
    ensures forall st, j: nat :: RecOk(DoLogSubmitted(p, t), st, j)
  {
    forall st, j: nat ensures RecOk(DoLogSubmitted(p, t), st, j) { LogSubmittedRec(p, t, st, j); }
  }

  lemma LogSubmittedLines(p: Pool, t: nat)
    requires Inv(p) && Enabled(p, LogSubmitted(t))
    ensures forall i: nat :: LineOk(DoLogSubmitted(p, t), i)
  {
    var p' := DoLogSubmitted(p, t);
    assert SubOk(p, t) && SlotOk(p, OwnId(p.subs[t]));
    forall i: nat ensures LineOk(p', i) { assert LineOk(p, i); }
  }

  lemma KeepLogSubmitted(p: Pool, t: nat)
    requires Inv(p) && Enabled(p, LogSubmitted(t))
    ensures Inv(DoLogSubmitted(p, t))
  {
    LogSubmittedEvents(p, t);
    LogSubmittedShape(p, t);
    SameEventsKeep(p, DoLogSubmitted(p, t));
    LogSubmittedSlots(p, t);
    LogSubmittedSubs(p, t);
    LogSubmittedRecs(p, t);
    LogSubmittedLines(p, t);
  }

  lemma KeepEnter(p: Pool, q: nat, budget: nat)
    requires Inv(p) && Enabled(p, Enter(q, budget))
    ensures Inv(DoEnter(p, q, budget))
  {
    var p' := DoEnter(p, q, budget);
    assert PollOk(p, q);
    forall r: nat ensures PollOk(p', r) { assert PollOk(p, r); }
    ThreadsOnly(p, p');
  }

  /** The poller under way, holding no slot, moves, or ends its poll. */
  function Walked(p: Pool, q: nat, x: Poller, cursor: nat, polling: bool): Pool
    requires q < |p.polls|
  {
    PutPoll(p, q, x).(pollCursor := cursor, polling := polling)
  }

  lemma PollerWalks(p: Pool, q: nat, x: Poller, cursor: nat, polling: bool)
    requires Inv(p) && q < |p.polls| && p.polling && p.pollOwner == q && !Holds(p.polls[q])
    requires !Holds(x) && (x.at.Away? <==> !polling)
    ensures Inv(Walked(p, q, x, cursor, polling))
  {
    var p' := Walked(p, q, x, cursor, polling);
    forall r: nat ensures PollOk(p', r) { assert PollOk(p, r); }
    ThreadsOnly(p, p');
  }

  lemma AdvanceWalks(p: Pool, q: nat)
    requires Shape(p) && Enabled(p, Advance(q))
    ensures var p' := DoAdvance(p, q);
      && p' == Walked(p, q, p'.polls[q], p'.pollCursor, p'.polling) && (p'.polls[q].at.Away? || p'.polls[q].at.Scan?)
      && (p.polling ==> (p'.polls[q].at.Away? <==> !p'.polling))
  {}

  lemma KeepAdvance(p: Pool, q: nat)
    requires Inv(p) && Enabled(p, Advance(q))
    ensures Inv(DoAdvance(p, q))
  {
    assert PollOk(p, q);
    AdvanceWalks(p, q);
    var p' := DoAdvance(p, q);
    PollerWalks(p, q, p'.polls[q], p'.pollCursor, p'.polling);
  }

  lemma KeepLeave(p: Pool, q: nat)
    requires Inv(p) && Enabled(p, Leave(q))
    ensures Inv(DoLeave(p, q))
  {
    assert PollOk(p, q);
    PollerWalks(p, q, p.polls[q].(at := Away), p.pollCursor, false);
  }

  lemma KeepExamine(p: Pool, q: nat)
    requires Inv(p) && Enabled(p, Examine(q))
    ensures Inv(DoExamine(p, q))
  {
    var p' := DoExamine(p, q);
    var id := Target(p, q);
    assert PollOk(p, q) && SlotOk(p, id);
    if p.slots[id].phase == PENDING {
      PollerMove(p, q, p'.polls[q], id, p'.slots[id]);
    } else {
      forall r: nat ensures PollOk(p', r) { assert PollOk(p, r); }
      ThreadsOnly(p, p');
    }
  }

  lemma KeepLoadGen(p: Pool, q: nat)
    requires Inv(p) && Enabled(p, LoadGen(q))
    ensures Inv(DoLoadGen(p, q))
  {
    var p' := DoLoadGen(p, q);
    var id := p.polls[q].at.id;
    assert PollOk(p, q) && SlotOk(p, id);
    PollerMove(p, q, p'.polls[q], id, p'.slots[id]);
    assert p' == WithPoll(p, q, p'.polls[q], id, p'.slots[id]);
  }

  lemma KeepQuery(p: Pool, q: nat, rc: int)
    requires Inv(p) && Enabled(p, Query(q, rc))
    ensures Inv(DoQuery(p, q, rc))
  {
    var p' := DoQuery(p, q, rc);
    var id := p.polls[q].at.id;
    assert PollOk(p, q) && SlotOk(p, id);
    PollerMove(p, q, p'.polls[q], id, p'.slots[id]);
    assert p' == WithPoll(p, q, p'.polls[q], id, p'.slots[id]);
  }

  lemma KeepRelease(p: Pool, q: nat)
    requires Inv(p) && Enabled(p, Release(q))
    ensures Inv(DoRelease(p, q))
  {
    var p' := DoRelease(p, q);
    var id := p.polls[q].at.id;
    assert PollOk(p, q) && SlotOk(p, id);
    PollerMove(p, q, p'.polls[q], id, p'.slots[id]);
    assert p' == WithPoll(p, q, p'.polls[q], id, p'.slots[id]);
  }

  lemma KeepReportOther(p: Pool, q: nat)
    requires Inv(p) && Enabled(p, Report(q)) && p.polls[q].at.rc != 1
    ensures Inv(DoReportOther(p, q))
  {
    var p' := DoReportOther(p, q);
    var id := p.polls[q].at.id;
    var p1 := p.(log := p'.log, prov := p'.prov);
    if p'.log != p.log { LinesOnly(p, p'.log[|p.log|]); }
    assert PollOk(p, q) && PollOk(p1, q) && SlotOk(p1, id);
    PollerMove(p1, q, p'.polls[q], id, p'.slots[id]);
  }

  lemma ConfirmEvents(p: Pool, q: nat)
    requires Shape(p) && Enabled(p, Report(q)) && p.polls[q].at.rc == 1
    ensures var p' := DoConfirm(p, q);
      SameEvents(p, p') && p'.slots == p.slots && p'.subs == p.subs && p'.done == p.done
      && p'.polling == p.polling && p'.pollOwner == p.pollOwner
  {}

  lemma ConfirmSlot(p: Pool, q: nat, d: SlotId)
    requires Shape(p) && Enabled(p, Report(q)) && p.polls[q].at.rc == 1
    requires PollOk(p, q) && SlotOk(p, p.polls[q].at.id) && SlotOk(p, d)
    ensures SlotOk(DoConfirm(p, q), d)
  {}

  lemma ConfirmSub(p: Pool, q: nat, u: nat)
    requires Shape(p) && Enabled(p, Report(q)) && p.polls[q].at.rc == 1 && SubOk(p, u)
    ensures SubOk(DoConfirm(p, q), u)
  {
    ConfirmEvents(p, q);
  }

  lemma ConfirmPoll(p: Pool, q: nat, r: nat)
    requires Shape(p) && Enabled(p, Report(q)) && p.polls[q].at.rc == 1 && PollOk(p, q) && PollOk(p, r)
    ensures PollOk(DoConfirm(p, q), r)
  {
    ConfirmEvents(p, q);
  }

  lemma ConfirmThreads(p: Pool, q: nat)
    requires Inv(p) && Enabled(p, Report(q)) && p.polls[q].at.rc == 1
    ensures forall d :: SlotOk(DoConfirm(p, q), d)
    ensures forall u: nat :: SubOk(DoConfirm(p, q), u)
    ensures forall r: nat :: PollOk(DoConfirm(p, q), r)
  {
    assert PollOk(p, q);
    forall d ensures SlotOk(DoConfirm(p, q), d) { ConfirmSlot(p, q, d); }
    forall u: nat ensures SubOk(DoConfirm(p, q), u) { ConfirmSub(p, q, u); }
    forall r: nat ensures PollOk(DoConfirm(p, q), r) { ConfirmPoll(p, q, r); }
  }

  lemma ConfirmRecs(p: Pool, q: nat)
    requires Inv(p) && Enabled(p, Report(q)) && p.polls[q].at.rc == 1
    ensures forall st, j: nat :: RecOk(DoConfirm(p, q), st, j)
  {
    var p' := DoConfirm(p, q);
    var id := p.polls[q].at.id;
    assert PollOk(p, q) && SlotOk(p, id);
    forall st, j: nat ensures RecOk(p', st, j) { assert RecOk(p, st, j); }
  }

  lemma ConfirmLine(p: Pool, q: nat, i: nat)
    requires Shape(p) && Enabled(p, Report(q)) && p.polls[q].at.rc == 1 && LineOk(p, i)
    requires var id := p.polls[q].at.id;
      PollOk(p, q) && SlotOk(p, id) && id in p.slots && id.stream in p.ids && RecOk(p, id.stream, p.slots[id].rec)
    ensures LineOk(DoConfirm(p, q), i)
  {}

  lemma ConfirmRises(p: Pool, q: nat, st: nat, i: nat, j: nat)
    requires Shape(p) && Enabled(p, Report(q)) && p.polls[q].at.rc == 1 && GensRise(p, st, i, j)
    ensures GensRise(DoConfirm(p, q), st, i, j)
  {
    ConfirmEvents(p, q);
  }

  lemma KeepConfirm(p: Pool, q: nat)
    requires Inv(p) && Enabled(p, Report(q)) && p.polls[q].at.rc == 1
    ensures Inv(DoConfirm(p, q))
  {
    ConfirmThreads(p, q);
    ConfirmRecs(p, q);
    assert PollOk(p, q);
    forall i: nat ensures LineOk(DoConfirm(p, q), i) { ConfirmLine(p, q, i); }
    forall st, i: nat, j: nat ensures GensRise(DoConfirm(p, q), st, i, j) { ConfirmRises(p, q, st, i, j); }
  }

  lemma KeepDevice(p: Pool, st: nat)
    requires Inv(p) && Enabled(p, DeviceCompletes(st))
    ensures Inv(DoDevice(p, st))
  {
    var p' := DoDevice(p, st);
    forall d ensures SlotOk(p', d) { assert SlotOk(p, d); }
    forall u: nat ensures SubOk(p', u) { assert SubOk(p, u); }
    forall q: nat ensures PollOk(p', q) { assert PollOk(p, q); }
    forall s, j: nat ensures RecOk(p', s, j) { assert RecOk(p, s, j); }
    forall i: nat ensures LineOk(p', i) { assert LineOk(p, i); }
    forall s, i: nat, j: nat ensures GensRise(p', s, i, j) { assert GensRise(p, s, i, j); }
  }

  /** Every step of every thread and of the device keeps the invariant. */
  lemma StepKeepsInv(p: Pool, a: Action)
    requires Inv(p) && Enabled(p, a)
    ensures Inv(Apply(p, a))
  {
    match a
    case Begin(t, st, sseq, cid) => KeepBegin(p, t, st, sseq, cid);
    case Try(t) => KeepTry(p, t);
    case GiveUp(t) => KeepGiveUp(p, t);
    case TakeNumber(t) => KeepTakeNumber(p, t);
    case StoreSeq(t) => KeepStoreSeq(p, t);
    case StoreId(t) => KeepStoreId(p, t);
    case RecordOk(t) => KeepRecordOk(p, t);
    case RecordFails(t) => KeepRecordFails(p, t);
    case LogSubmitted(t) => KeepLogSubmitted(p, t);
    case Publish(t) => KeepPublish(p, t);
    case Enter(q, budget) => KeepEnter(p, q, budget);
    case Advance(q) => KeepAdvance(p, q);
    case Examine(q) => KeepExamine(p, q);
    case LoadGen(q) => KeepLoadGen(p, q);
    case Query(q, rc) => KeepQuery(p, q, rc);
    case Report(q) => if p.polls[q].at.rc == 1 { KeepConfirm(p, q); } else { KeepReportOther(p, q); }
    case Release(q) => KeepRelease(p, q);
    case Leave(q) => KeepLeave(p, q);
    case DeviceCompletes(st) => KeepDevice(p, st);
    case HostRecords(call) => LinesOnly(p, call);
  }
}
