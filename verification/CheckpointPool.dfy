/** flight_checkpoint.cpp under concurrency: submitters and pollers as interleaved atomic steps over the
    slots, the flight log and a device whose streams complete recorded events in order. */
module CheckpointPool {
  import opened FlightEvents
  import opened ScanOrder

  const U32 := 0x1_0000_0000
  const U64 := 0x1_0000_0000_0000_0000

  datatype Phase = FREE | RESERVED | PENDING | QUERYING

  /** One pooled event. `holder` and `rec` are history: the submitter that last won the slot, and the
      place in the device queue of the event's latest recording. */
  datatype Slot = Slot(phase: Phase, generation: nat, submittedSeq: nat, checkpointId: nat,
                       errorGen: nat, notReadyGen: nat, holder: nat, rec: nat)

  const FRESH_SLOT := Slot(FREE, 0, 0, 0, 0, 0, 0, 0)

  datatype SlotId = SlotId(stream: nat, index: nat)

  /** An event recorded on a stream. Besides the event (its slot index), the entry carries history: the
      submission it was recorded for and the log lines of its SUBMITTED and DEVICE_CONFIRMED records
      (-1 before they are written). */
  datatype Recording = Recording(index: nat, gen: nat, sseq: nat, cid: nat, line: int, conf: int)

  /** How far a submitter that owns a slot has come. */
  datatype Stage = Reserved | Numbered | SeqStored | IdStored | Recorded | Logged

  datatype Submitter =
    | Idle
    | Scanning(stream: nat, sseq: nat, cid: nat, start: nat, n: nat)
    | Owning(stream: nat, sseq: nat, cid: nat, index: nat, gen: nat, stage: Stage)

  datatype PollStage =
    | Away
    | Entered
    | Scan
    | Claimed(id: SlotId)
    | Loaded(id: SlotId, gen: nat)
    | Answered(id: SlotId, gen: nat, rc: int)
    | Told(id: SlotId, rc: int)

  datatype Poller = Poller(budget: nat, start: nat, offset: nat, checked: nat, at: PollStage)

  /** `ids` lists the registered streams, `k` is slots_per_stream. `queue[st][..done[st]]` is what the
      device has completed. `prov[i]` is history: the queue place log line i speaks of. */
  datatype Pool = Pool(
    ids: seq<nat>, k: nat,
    slots: map<SlotId, Slot>, cursors: map<nat, nat>, pollCursor: nat,
    polling: bool, pollOwner: nat,
    queue: map<nat, seq<Recording>>, done: map<nat, nat>,
    log: seq<Call>, prov: seq<nat>,
    subs: seq<Submitter>, polls: seq<Poller>)

  datatype Action =
    | Begin(t: nat, stream: nat, sseq: nat, cid: nat)
    | Try(t: nat)
    | GiveUp(t: nat)
    | TakeNumber(t: nat)
    | StoreSeq(t: nat)
    | StoreId(t: nat)
    | RecordOk(t: nat)
    | RecordFails(t: nat)
    | LogSubmitted(t: nat)
    | Publish(t: nat)
    | Enter(q: nat, budget: nat)
    | Advance(q: nat)
    | Examine(q: nat)
    | LoadGen(q: nat)
    | Query(q: nat, rc: int)
    | Report(q: nat)
    | Release(q: nat)
    | Leave(q: nat)
    | DeviceCompletes(stream: nat)
    | HostRecords(call: Call)

  // ---- Shape ----

  predicate HasId(p: Pool, id: SlotId) {
    id.stream in p.ids && id.index < p.k
  }

  predicate Holds(q: Poller) {
    q.at.Claimed? || q.at.Loaded? || q.at.Answered? || q.at.Told?
  }

  predicate SubShape(p: Pool, s: Submitter) {
    match s
    case Idle => true
    case Scanning(st, _, _, _, n) => st in p.ids && n <= p.k
    case Owning(st, _, _, i, _, _) => st in p.ids && i < p.k
  }

  ghost predicate Shape(p: Pool) {
    && p.k >= 1
    && (forall id :: id in p.slots ==> HasId(p, id))
    && (forall id :: HasId(p, id) ==> id in p.slots)
    && (forall st :: st in p.ids ==> st in p.queue && st in p.done && st in p.cursors)
    && |p.prov| == |p.log|
    && (forall t :: 0 <= t < |p.subs| ==> SubShape(p, p.subs[t]))
    && (forall q :: 0 <= q < |p.polls| ==> Holds(p.polls[q]) ==> HasId(p, p.polls[q].at.id))
  }

  function OwnId(s: Submitter): SlotId
    requires s.Owning?
  {
    SlotId(s.stream, s.index)
  }

  predicate InStage(p: Pool, t: nat, stage: Stage) {
    t < |p.subs| && p.subs[t].Owning? && p.subs[t].stage == stage
  }

  function Total(p: Pool): nat {
    |p.ids| * p.k
  }

  /** The slot a poller examines at `offset`; start and offset are 64-bit. */
  function PollTarget(ids: seq<nat>, k: nat, start: nat, offset: nat): (id: SlotId)
    requires k >= 1 && |ids| >= 1
    ensures id.stream in ids && id.index < k
  {
    var flat := Visit(start, offset, |ids| * k, U64);
    assert flat / k < |ids| by { DivBound(flat, k, |ids|); }
    SlotId(ids[flat / k], flat % k)
  }

  lemma DivBound(a: nat, k: nat, n: nat)
    requires k >= 1 && a < n * k
    ensures a / k < n
  {
    if a / k >= n {
      MulMonotone(n, a / k, k);
      assert false;
    }
  }

  lemma MulMonotone(a: nat, b: nat, k: nat)
    requires a <= b
    ensures a * k <= b * k
  {}

  /** Every recording of the event has completed: what a backend answer of 1 promises. */
  ghost predicate AllComplete(p: Pool, id: SlotId) {
    id.stream in p.queue && id.stream in p.done &&
    forall j :: 0 <= j < |p.queue[id.stream]| && p.queue[id.stream][j].index == id.index ==> j < p.done[id.stream]
  }

  // ---- Steps ----

  predicate OfSubmitter(a: Action) {
    a.Begin? || a.Try? || a.GiveUp? || a.TakeNumber? || a.StoreSeq? || a.StoreId? || a.RecordOk?
    || a.RecordFails? || a.LogSubmitted? || a.Publish?
  }

  predicate OfPoller(a: Action) {
    a.Enter? || a.Advance? || a.Examine? || a.LoadGen? || a.Query? || a.Report? || a.Release? || a.Leave?
  }

  ghost predicate Enabled(p: Pool, a: Action)
    requires Shape(p)
  {
    match a
    case Begin(t, st, sseq, _) => t < |p.subs| && p.subs[t].Idle? && st in p.ids && sseq != 0
    case Try(t) => t < |p.subs| && p.subs[t].Scanning? && p.subs[t].n < p.k
    case GiveUp(t) => t < |p.subs| && p.subs[t].Scanning? && p.subs[t].n == p.k
    case TakeNumber(t) => InStage(p, t, Reserved)
    case StoreSeq(t) => InStage(p, t, Numbered)
    case StoreId(t) => InStage(p, t, SeqStored)
    case RecordOk(t) => InStage(p, t, IdStored)
    case RecordFails(t) => InStage(p, t, IdStored)
    case LogSubmitted(t) => InStage(p, t, Recorded)
    case Publish(t) => InStage(p, t, Logged)
    case Enter(q, budget) => q < |p.polls| && p.polls[q].at.Away? && 0 < budget < U32
    case Advance(q) => q < |p.polls| && p.polls[q].at.Entered?
    case Examine(q) => q < |p.polls| && p.polls[q].at.Scan? && p.polls[q].offset < Total(p) && p.polls[q].checked < p.polls[q].budget
    case LoadGen(q) => q < |p.polls| && p.polls[q].at.Claimed?
    case Query(q, rc) => q < |p.polls| && p.polls[q].at.Loaded? && (rc == 1 ==> AllComplete(p, p.polls[q].at.id))
    case Report(q) => q < |p.polls| && p.polls[q].at.Answered?
    case Release(q) => q < |p.polls| && p.polls[q].at.Told?
    case Leave(q) =>
      q < |p.polls| && p.polls[q].at.Scan? && (p.polls[q].offset >= Total(p) || p.polls[q].checked >= p.polls[q].budget)
    case DeviceCompletes(st) => st in p.ids && p.done[st] < |p.queue[st]|
    case HostRecords(call) => call.kind != CHECKPOINT && call.kind != DEVICE_CONFIRMED
  }

  function PutSlot(p: Pool, id: SlotId, s: Slot): Pool {
    p.(slots := p.slots[id := s])
  }

  function PutSub(p: Pool, t: nat, s: Submitter): Pool
    requires t < |p.subs|
  {
    p.(subs := p.subs[t := s])
  }

  function PutPoll(p: Pool, q: nat, x: Poller): Pool
    requires q < |p.polls|
  {
    p.(polls := p.polls[q := x])
  }

  function Emit(p: Pool, c: Call, place: nat): Pool {
    p.(log := p.log + [c], prov := p.prov + [place])
  }

  /** History: note in the device queue which log line now speaks of the recording at place `j`. */
  function NoteLine(p: Pool, st: nat, j: nat): Pool
    requires st in p.queue
  {
    var q := p.queue[st];
    if j < |q| then p.(queue := p.queue[st := q[j := q[j].(line := |p.log|)]]) else p
  }

  function NoteConf(p: Pool, st: nat, j: nat): Pool
    requires st in p.queue
  {
    var q := p.queue[st];
    if j < |q| then p.(queue := p.queue[st := q[j := q[j].(conf := |p.log|)]]) else p
  }

  // Submitter steps, in program order.

  function DoBegin(p: Pool, t: nat, st: nat, sseq: nat, cid: nat): Pool
    requires Shape(p) && Enabled(p, Begin(t, st, sseq, cid))
  {
    PutSub(p, t, Scanning(st, sseq, cid, p.cursors[st], 0)).(cursors := p.cursors[st := (p.cursors[st] + 1) % U32])
  }

  function DoTry(p: Pool, t: nat): Pool
    requires Shape(p) && Enabled(p, Try(t))
  {
    var me := p.subs[t];
    var id := SlotId(me.stream, Visit(me.start, me.n, p.k, U32));
    if p.slots[id].phase == FREE then
      PutSub(PutSlot(p, id, p.slots[id].(phase := RESERVED, holder := t)), t,
             Owning(me.stream, me.sseq, me.cid, id.index, 0, Reserved))
    else PutSub(p, t, me.(n := me.n + 1))
  }

  function DoGiveUp(p: Pool, t: nat): Pool
    requires Shape(p) && Enabled(p, GiveUp(t))
  {
    var me := p.subs[t];
    PutSub(Emit(p, Call(CHECKPOINT, me.stream, me.cid, me.sseq, 0, POOL_FULL), 0), t, Idle)
  }

  function DoTakeNumber(p: Pool, t: nat): Pool
    requires Shape(p) && Enabled(p, TakeNumber(t))
  {
    var me := p.subs[t];
    var slot := p.slots[OwnId(me)];
    PutSub(PutSlot(p, OwnId(me), slot.(generation := slot.generation + 1)), t,
           me.(gen := slot.generation + 1, stage := Numbered))
  }

  function DoStoreSeq(p: Pool, t: nat): Pool
    requires Shape(p) && Enabled(p, StoreSeq(t))
  {
    var me := p.subs[t];
    PutSub(PutSlot(p, OwnId(me), p.slots[OwnId(me)].(submittedSeq := me.sseq)), t, me.(stage := SeqStored))
  }

  function DoStoreId(p: Pool, t: nat): Pool
    requires Shape(p) && Enabled(p, StoreId(t))
  {
    var me := p.subs[t];
    PutSub(PutSlot(p, OwnId(me), p.slots[OwnId(me)].(checkpointId := me.cid)), t, me.(stage := IdStored))
  }

  function DoRecordOk(p: Pool, t: nat): Pool
    requires Shape(p) && Enabled(p, RecordOk(t))
  {
    var me := p.subs[t];
    var q := p.queue[me.stream];
    PutSub(PutSlot(p, OwnId(me), p.slots[OwnId(me)].(rec := |q|)), t, me.(stage := Recorded))
      .(queue := p.queue[me.stream := q + [Recording(me.index, me.gen, me.sseq, me.cid, -1, -1)]])
  }

  function DoRecordFails(p: Pool, t: nat): Pool
    requires Shape(p) && Enabled(p, RecordFails(t))
  {
    var me := p.subs[t];
    PutSub(PutSlot(p, OwnId(me), p.slots[OwnId(me)].(phase := FREE)), t, Idle)
  }

  function DoLogSubmitted(p: Pool, t: nat): Pool
    requires Shape(p) && Enabled(p, LogSubmitted(t))
  {
    var me := p.subs[t];
    var place := p.slots[OwnId(me)].rec;
    PutSub(Emit(NoteLine(p, me.stream, place),
                Call(CHECKPOINT, me.stream, me.cid, me.sseq, me.gen, SUBMITTED), place),
           t, me.(stage := Logged))
  }

  function DoPublish(p: Pool, t: nat): Pool
    requires Shape(p) && Enabled(p, Publish(t))
  {
    var me := p.subs[t];
    PutSub(PutSlot(p, OwnId(me), p.slots[OwnId(me)].(phase := PENDING)), t, Idle)
  }

  // Poller steps, in program order.

  function DoEnter(p: Pool, q: nat, budget: nat): Pool
    requires Shape(p) && Enabled(p, Enter(q, budget))
  {
    if p.polling then p
    else PutPoll(p, q, Poller(budget, 0, 0, 0, Entered)).(polling := true, pollOwner := q)
  }

  function DoAdvance(p: Pool, q: nat): Pool
    requires Shape(p) && Enabled(p, Advance(q))
  {
    var me := p.polls[q];
    if Total(p) == 0 then PutPoll(p, q, me.(at := Away)).(polling := false)
    else PutPoll(p, q, me.(start := p.pollCursor, at := Scan)).(pollCursor := (p.pollCursor + me.budget) % U64)
  }

  /** The slot poller `q` is about to examine. */
  function Target(p: Pool, q: nat): (id: SlotId)
    requires Shape(p) && Enabled(p, Examine(q))
    ensures id in p.slots
  {
    assert |p.ids| >= 1;
    var id := PollTarget(p.ids, p.k, p.polls[q].start, p.polls[q].offset);
    assert HasId(p, id);
    id
  }

  function DoExamine(p: Pool, q: nat): Pool
    requires Shape(p) && Enabled(p, Examine(q))
  {
    var me := p.polls[q];
    var id := Target(p, q);
    if p.slots[id].phase == PENDING then
      PutPoll(PutSlot(p, id, p.slots[id].(phase := QUERYING)), q, me.(checked := me.checked + 1, at := Claimed(id)))
    else PutPoll(p, q, me.(offset := me.offset + 1))
  }

  function DoLoadGen(p: Pool, q: nat): Pool
    requires Shape(p) && Enabled(p, LoadGen(q))
  {
    var me := p.polls[q];
    PutPoll(p, q, me.(at := Loaded(me.at.id, p.slots[me.at.id].generation)))
  }

  function DoQuery(p: Pool, q: nat, rc: int): Pool
    requires Shape(p) && Enabled(p, Query(q, rc))
  {
    var me := p.polls[q];
    PutPoll(p, q, me.(at := Answered(me.at.id, me.at.gen, rc)))
  }

  /** An answer of 1: the confirmation is logged before the slot is released. */
  function DoConfirm(p: Pool, q: nat): Pool
    requires Shape(p) && Enabled(p, Report(q))
  {
    var me := p.polls[q];
    var id := me.at.id;
    var slot := p.slots[id];
    PutPoll(Emit(NoteConf(p, id.stream, slot.rec),
                 Call(DEVICE_CONFIRMED, id.stream, slot.checkpointId, slot.submittedSeq, me.at.gen, 0), slot.rec),
            q, me.(at := Told(id, me.at.rc)))
  }

  /** Any other answer is logged once for each generation. */
  function DoReportOther(p: Pool, q: nat): Pool
    requires Shape(p) && Enabled(p, Report(q))
  {
    var me := p.polls[q];
    var id, gen := me.at.id, me.at.gen;
    var slot := p.slots[id];
    var seen := if me.at.rc == 0 then slot.notReadyGen else slot.errorGen;
    var flag := if me.at.rc == 0 then NOT_READY else QUERY_ERROR;
    var slot' := if me.at.rc == 0 then slot.(notReadyGen := gen) else slot.(errorGen := gen);
    var p1 := if seen == gen then p
              else Emit(p, Call(CHECKPOINT, id.stream, slot.checkpointId, slot.submittedSeq, gen, flag), 0);
    PutPoll(PutSlot(p1, id, slot'), q, me.(at := Told(id, me.at.rc)))
  }

  function DoRelease(p: Pool, q: nat): Pool
    requires Shape(p) && Enabled(p, Release(q))
  {
    var me := p.polls[q];
    var slot := p.slots[me.at.id];
    PutPoll(PutSlot(p, me.at.id, slot.(phase := if me.at.rc == 1 then FREE else PENDING)), q,
            me.(offset := me.offset + 1, at := Scan))
  }

  function DoLeave(p: Pool, q: nat): Pool
    requires Shape(p) && Enabled(p, Leave(q))
  {
    PutPoll(p, q, p.polls[q].(at := Away)).(polling := false)
  }

  function DoDevice(p: Pool, st: nat): Pool
    requires Shape(p) && Enabled(p, DeviceCompletes(st))
  {
    p.(done := p.done[st := p.done[st] + 1])
  }

  function Apply(p: Pool, a: Action): Pool
    requires Shape(p) && Enabled(p, a)
  {
    match a
    case Begin(t, st, sseq, cid) => DoBegin(p, t, st, sseq, cid)
    case Try(t) => DoTry(p, t)
    case GiveUp(t) => DoGiveUp(p, t)
    case TakeNumber(t) => DoTakeNumber(p, t)
    case StoreSeq(t) => DoStoreSeq(p, t)
    case StoreId(t) => DoStoreId(p, t)
    case RecordOk(t) => DoRecordOk(p, t)
    case RecordFails(t) => DoRecordFails(p, t)
    case LogSubmitted(t) => DoLogSubmitted(p, t)
    case Publish(t) => DoPublish(p, t)
    case Enter(q, budget) => DoEnter(p, q, budget)
    case Advance(q) => DoAdvance(p, q)
    case Examine(q) => DoExamine(p, q)
    case LoadGen(q) => DoLoadGen(p, q)
    case Query(q, rc) => DoQuery(p, q, rc)
    case Report(q) => if p.polls[q].at.rc == 1 then DoConfirm(p, q) else DoReportOther(p, q)
    case Release(q) => DoRelease(p, q)
    case Leave(q) => DoLeave(p, q)
    case DeviceCompletes(st) => DoDevice(p, st)
    case HostRecords(call) => Emit(p, call, 0)
  }

  /** Streams registered, all slots free, nothing recorded; any number of threads. */
  ghost predicate Init(p: Pool) {
    && Shape(p)
    && (forall st :: st in p.queue ==> st in p.ids)
    && (forall id :: id in p.slots ==> p.slots[id] == FRESH_SLOT)
    && (forall st :: st in p.ids ==> p.queue[st] == [] && p.done[st] == 0)
    && (forall st :: st in p.ids ==> p.cursors[st] == 0) && p.pollCursor == 0
    && !p.polling && p.log == []
    && (forall t :: 0 <= t < |p.subs| ==> p.subs[t].Idle?)
    && (forall q :: 0 <= q < |p.polls| ==> p.polls[q].at.Away?)
  }
}
