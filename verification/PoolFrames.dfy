/** What the steps of the checkpoint pool leave alone. */
module PoolFrames {
  import opened FlightEvents
  import opened CheckpointPool

  /** Same streams and recordings, with the same SUBMITTED lines; a recording keeps its confirmation. */
  ghost predicate SameRecordings(p: Pool, p': Pool) {
    && (forall st :: st in p.queue ==> st in p'.queue && |p'.queue[st]| == |p.queue[st]|)
    && (forall st :: st in p'.queue ==> st in p.queue)
    && (forall st, j :: st in p.queue && 0 <= j < |p.queue[st]| ==> SameRecording(p.queue[st][j], p'.queue[st][j]))
  }

  predicate SameRecording(r: Recording, r': Recording) {
    r'.(conf := r.conf) == r && (r.conf >= 0 ==> r'.conf >= 0)
  }

  lemma SameRecordingsTrans(p: Pool, p1: Pool, p2: Pool)
    requires SameRecordings(p, p1) && SameRecordings(p1, p2)
    ensures SameRecordings(p, p2)
  {
    forall st, j | st in p.queue && 0 <= j < |p.queue[st]| ensures SameRecording(p.queue[st][j], p2.queue[st][j]) {
      assert SameRecording(p.queue[st][j], p1.queue[st][j]) && SameRecording(p1.queue[st][j], p2.queue[st][j]);
    }
  }

  lemma SameQueue(p: Pool, p': Pool)
    requires p'.queue == p.queue
    ensures SameRecordings(p, p')
  {}

  // ---- One transition at a time ----

  /** A poller's step leaves submitters, device and streams alone, and adds no recording. */
  ghost predicate ByPoller(p: Pool, p': Pool) {
    && p'.subs == p.subs && p'.cursors == p.cursors && p'.done == p.done && p'.ids == p.ids && p'.k == p.k && |p'.polls| == |p.polls|
    && SameRecordings(p, p')
  }

  /** A submitter's step leaves pollers, device and streams alone. */
  predicate BySubmitter(p: Pool, p': Pool) {
    && p'.polls == p.polls && p'.polling == p.polling && p'.pollOwner == p.pollOwner && p'.pollCursor == p.pollCursor
    && p'.done == p.done && p'.ids == p.ids && p'.k == p.k && |p'.subs| == |p.subs|
  }

  predicate QueueKept(p: Pool, p': Pool) {
    BySubmitter(p, p') && p'.queue == p.queue
  }

  lemma BeginFrame(p: Pool, t: nat, st: nat, sseq: nat, cid: nat)
    requires Shape(p) && Enabled(p, Begin(t, st, sseq, cid))
    ensures QueueKept(p, DoBegin(p, t, st, sseq, cid))
  {}

  lemma TryFrame(p: Pool, t: nat)
    requires Shape(p) && Enabled(p, Try(t))
    ensures QueueKept(p, DoTry(p, t))
  {}

  lemma GiveUpFrame(p: Pool, t: nat)
    requires Shape(p) && Enabled(p, GiveUp(t))
    ensures QueueKept(p, DoGiveUp(p, t))
  {}

  lemma TakeNumberFrame(p: Pool, t: nat)
    requires Shape(p) && Enabled(p, TakeNumber(t))
    ensures QueueKept(p, DoTakeNumber(p, t))
  {}

  lemma StoreSeqFrame(p: Pool, t: nat)
    requires Shape(p) && Enabled(p, StoreSeq(t))
    ensures QueueKept(p, DoStoreSeq(p, t))
  {}

  lemma StoreIdFrame(p: Pool, t: nat)
    requires Shape(p) && Enabled(p, StoreId(t))
    ensures QueueKept(p, DoStoreId(p, t))
  {}

  lemma RecordFailsFrame(p: Pool, t: nat)
    requires Shape(p) && Enabled(p, RecordFails(t))
    ensures QueueKept(p, DoRecordFails(p, t))
  {}

  lemma PublishFrame(p: Pool, t: nat)
    requires Shape(p) && Enabled(p, Publish(t))
    ensures QueueKept(p, DoPublish(p, t))
  {}

  lemma RecordOkFrame(p: Pool, t: nat)
    requires Shape(p) && Enabled(p, RecordOk(t))
    ensures BySubmitter(p, DoRecordOk(p, t))
  {}

  lemma LogSubmittedFrame(p: Pool, t: nat)
    requires Shape(p) && Enabled(p, LogSubmitted(t))
    ensures BySubmitter(p, DoLogSubmitted(p, t))
  {}

  lemma EnterFrame(p: Pool, q: nat, budget: nat)
    requires Shape(p) && Enabled(p, Enter(q, budget))
    ensures ByPoller(p, DoEnter(p, q, budget))
  {}

  lemma AdvanceFrame(p: Pool, q: nat)
    requires Shape(p) && Enabled(p, Advance(q))
    ensures ByPoller(p, DoAdvance(p, q))
  {
    SameQueue(p, DoAdvance(p, q));
  }

  lemma ExamineFrame(p: Pool, q: nat)
    requires Shape(p) && Enabled(p, Examine(q))
    ensures ByPoller(p, DoExamine(p, q))
  {}

  lemma LoadGenFrame(p: Pool, q: nat)
    requires Shape(p) && Enabled(p, LoadGen(q))
    ensures ByPoller(p, DoLoadGen(p, q))
  {}

  lemma QueryFrame(p: Pool, q: nat, rc: int)
    requires Shape(p) && Enabled(p, Query(q, rc))
    ensures ByPoller(p, DoQuery(p, q, rc))
  {}

  lemma ConfirmFrame(p: Pool, q: nat)
    requires Shape(p) && Enabled(p, Report(q))
    ensures ByPoller(p, DoConfirm(p, q))
  {}

  lemma ReportOtherFrame(p: Pool, q: nat)
    requires Shape(p) && Enabled(p, Report(q))
    ensures ByPoller(p, DoReportOther(p, q))
  {}

  lemma ReleaseFrame(p: Pool, q: nat)
    requires Shape(p) && Enabled(p, Release(q))
    ensures ByPoller(p, DoRelease(p, q))
  {}

  lemma LeaveFrame(p: Pool, q: nat)
    requires Shape(p) && Enabled(p, Leave(q))
    ensures ByPoller(p, DoLeave(p, q))
  {}

  lemma WorldFrame(p: Pool, a: Action)
    requires Shape(p) && Enabled(p, a) && (a.DeviceCompletes? || a.HostRecords?)
    ensures Apply(p, a).queue == p.queue && Apply(p, a).subs == p.subs && Apply(p, a).ids == p.ids && Apply(p, a).k == p.k
    ensures Apply(p, a).pollCursor == p.pollCursor
  {}

  // ---- Any step ----

  lemma PollerFrame(p: Pool, a: Action)
    requires Shape(p) && Enabled(p, a) && OfPoller(a)
    ensures ByPoller(p, Apply(p, a))
  {
    match a
    case Enter(q, budget) => EnterFrame(p, q, budget);
    case Advance(q) => AdvanceFrame(p, q);
    case Examine(q) => ExamineFrame(p, q);
    case LoadGen(q) => LoadGenFrame(p, q);
    case Query(q, rc) => QueryFrame(p, q, rc);
    case Report(q) => if p.polls[q].at.rc == 1 { ConfirmFrame(p, q); } else { ReportOtherFrame(p, q); }
    case Release(q) => ReleaseFrame(p, q);
    case Leave(q) => LeaveFrame(p, q);
  }

  lemma SubmitterFrame(p: Pool, a: Action)
    requires Shape(p) && Enabled(p, a) && OfSubmitter(a)
    ensures BySubmitter(p, Apply(p, a)) && (!a.RecordOk? && !a.LogSubmitted? ==> Apply(p, a).queue == p.queue)
  {
    match a
    case Begin(t, st, sseq, cid) => BeginFrame(p, t, st, sseq, cid);
    case Try(t) => TryFrame(p, t);
    case GiveUp(t) => GiveUpFrame(p, t);
    case TakeNumber(t) => TakeNumberFrame(p, t);
    case StoreSeq(t) => StoreSeqFrame(p, t);
    case StoreId(t) => StoreIdFrame(p, t);
    case RecordOk(t) => RecordOkFrame(p, t);
    case RecordFails(t) => RecordFailsFrame(p, t);
    case LogSubmitted(t) => LogSubmittedFrame(p, t);
    case Publish(t) => PublishFrame(p, t);
  }

  /** Steps other than recording and logging a submission. */
  lemma OtherSteps(p: Pool, a: Action)
    requires Shape(p) && Enabled(p, a) && !a.RecordOk? && !a.LogSubmitted?
    ensures SameRecordings(p, Apply(p, a))
  {
    if OfSubmitter(a) { SubmitterFrame(p, a); } else if OfPoller(a) { PollerFrame(p, a); } else { WorldFrame(p, a); }
  }

  lemma SameStreams(p: Pool, a: Action)
    requires Shape(p) && Enabled(p, a)
    ensures Apply(p, a).ids == p.ids && Apply(p, a).k == p.k
  {
    if OfSubmitter(a) { SubmitterFrame(p, a); } else if OfPoller(a) { PollerFrame(p, a); } else { WorldFrame(p, a); }
  }

  // ---- The log ----

  predicate AtMostOneMore(log: seq<Call>, log': seq<Call>) {
    log' == log || (|log'| == |log| + 1 && log'[..|log|] == log)
  }

  lemma SearchLogs(p: Pool, a: Action)
    requires Shape(p) && Enabled(p, a) && (a.Begin? || a.Try? || a.GiveUp?)
    ensures AtMostOneMore(p.log, Apply(p, a).log)
  {}

  lemma OwnerLogs(p: Pool, a: Action)
    requires Shape(p) && Enabled(p, a) && OfSubmitter(a) && !a.Begin? && !a.Try? && !a.GiveUp?
    ensures AtMostOneMore(p.log, Apply(p, a).log)
  {}

  lemma ReportLogs(p: Pool, a: Action)
    requires Shape(p) && Enabled(p, a) && a.Report?
    ensures AtMostOneMore(p.log, Apply(p, a).log)
  {}

  lemma PollerLogs(p: Pool, a: Action)
    requires Shape(p) && Enabled(p, a) && (a.Examine? || a.Release? || a.LoadGen? || a.Query?)
    ensures AtMostOneMore(p.log, Apply(p, a).log)
  {}

  lemma OthersLog(p: Pool, a: Action)
    requires Shape(p) && Enabled(p, a) && (a.Enter? || a.Advance? || a.Leave? || a.DeviceCompletes? || a.HostRecords?)
    ensures AtMostOneMore(p.log, Apply(p, a).log)
  {}

  lemma StepLogs(p: Pool, a: Action)
    requires Shape(p) && Enabled(p, a)
    ensures AtMostOneMore(p.log, Apply(p, a).log)
  {
    if a.Begin? || a.Try? || a.GiveUp? { SearchLogs(p, a); }
    else if OfSubmitter(a) { OwnerLogs(p, a); }
    else if a.Report? { ReportLogs(p, a); }
    else if a.Examine? || a.Release? || a.LoadGen? || a.Query? { PollerLogs(p, a); }
    else { OthersLog(p, a); }
  }
}
