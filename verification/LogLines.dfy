/** What each line of the flight log says about the run that wrote it: which step added it, for which
    submission, and after which answer of the backend. */
module LogLines {
  import opened FlightEvents
  import opened CheckpointPool
  import opened PoolInvariant
  import opened PoolFrames
  import opened PoolTheorems
  import opened Progress
  import Watermark

  // ---- The states of a run ----

  /** The pool before step `n` of a run. */
  ghost function StateAt(p: Pool, acts: seq<Action>, n: nat): Pool
    requires IsRun(p, acts) && n <= |acts|
    decreases n
  {
    if n == 0 then p else StateAt(Apply(p, acts[0]), acts[1..], n - 1)
  }

  lemma {:induction false} StateAtEnd(p: Pool, acts: seq<Action>)
    requires IsRun(p, acts)
    ensures StateAt(p, acts, |acts|) == Exec(p, acts)
    decreases |acts|
  {
    if acts != [] { StateAtEnd(Apply(p, acts[0]), acts[1..]); }
  }

  lemma {:induction false} StepAt(p: Pool, acts: seq<Action>, n: nat)
    requires Inv(p) && IsRun(p, acts) && n <= |acts|
    ensures Inv(StateAt(p, acts, n))
    ensures n < |acts| ==> Enabled(StateAt(p, acts, n), acts[n])
    ensures n < |acts| ==> StateAt(p, acts, n + 1) == Apply(StateAt(p, acts, n), acts[n])
    decreases n
  {
    if n > 0 {
      assert Inv(Apply(p, acts[0])) by { StepKeepsInv(p, acts[0]); }
      StepAt(Apply(p, acts[0]), acts[1..], n - 1);
    }
  }

  // ---- What a step adds ----

  /** Poller `q` holds the answer `rc` for a slot and has not reported it yet. */
  predicate HasAnswer(p: Pool, q: nat) {
    q < |p.polls| && p.polls[q].at.Answered? && p.polls[q].at.id in p.slots
    && p.polls[q].at.id.stream in p.queue && p.slots[p.polls[q].at.id].rec < |p.queue[p.polls[q].at.id.stream]|
  }

  function Answer(p: Pool, q: nat): int
    requires HasAnswer(p, q)
  {
    p.polls[q].at.rc
  }

  /** The recording of the slot that poller `q` has asked about. */
  function Asked(p: Pool, q: nat): Recording
    requires HasAnswer(p, q)
  {
    p.queue[p.polls[q].at.id.stream][p.slots[p.polls[q].at.id].rec]
  }

  /** The tuple of that recording. */
  function AskedKey(p: Pool, q: nat): Key
    requires HasAnswer(p, q)
  {
    var r := Asked(p, q);
    Key(p.polls[q].at.id.stream, r.cid, r.sseq, r.gen)
  }

  function TupleOf(c: Call): Key {
    Key(c.stream, c.corr, c.arg0, c.arg1)
  }

  /** The line reports an answer of this kind: complete, not ready, or an error. */
  predicate Tells(c: Call, rc: int) {
    if rc == 1 then c.kind == 24
    else if rc == 0 then c.kind == 23 && c.flags / 8 % 2 == 1
    else c.kind == 23 && c.flags / 4 % 2 == 1
  }

  predicate SameKind(rc: int, rc': int) {
    (rc == 1 <==> rc' == 1) && (rc == 0 <==> rc' == 0)
  }

  /** Step `a` in state `p` explains the line `c`: each bit of its flags stands for one action, and it
      carries the tuple of the submission that the action is about. */
  ghost predicate WrittenBy(p: Pool, a: Action, c: Call) {
    && (c.kind == 23 && c.flags % 2 == 1 <==> a.LogSubmitted?)
    && (c.kind == 23 && c.flags / 2 % 2 == 1 <==> a.GiveUp?)
    && (forall rc :: Tells(c, rc) <==> a.Report? && HasAnswer(p, a.q) && SameKind(Answer(p, a.q), rc))
    && (a.LogSubmitted? ==> InStage(p, a.t, Recorded) && SubmittedFor(p, p.subs[a.t], c))
    && (a.GiveUp? ==> a.t < |p.subs| && p.subs[a.t].Scanning?
                      && TupleOf(c) == Key(p.subs[a.t].stream, p.subs[a.t].cid, p.subs[a.t].sseq, 0))
    && (a.Report? ==> HasAnswer(p, a.q) && TupleOf(c) == AskedKey(p, a.q))
    && (!(a.LogSubmitted? || a.GiveUp? || a.Report?) ==> a == HostRecords(c))
  }

  /** The line carries the submitter's numbers, and so does the recording of its slot. */
  predicate SubmittedFor(p: Pool, me: Submitter, c: Call)
    requires me.Owning?
  {
    && TupleOf(c) == Key(me.stream, me.cid, me.sseq, me.gen)
    && OwnId(me) in p.slots && me.stream in p.queue && p.slots[OwnId(me)].rec < |p.queue[me.stream]|
    && var r := p.queue[me.stream][p.slots[OwnId(me)].rec];
      r.index == me.index && r.gen == me.gen && r.sseq == me.sseq && r.cid == me.cid
  }

  predicate Adds(p: Pool, p': Pool, c: Call) {
    p'.log == p.log + [c]
  }

  /** The step adds one line, which it explains. */
  ghost predicate AddsLine(p: Pool, a: Action, p': Pool) {
    exists c :: Adds(p, p', c) && WrittenBy(p, a, c)
  }

  lemma SubmittedAdds(p: Pool, t: nat)
    requires Inv(p) && Enabled(p, LogSubmitted(t))
    ensures AddsLine(p, LogSubmitted(t), Apply(p, LogSubmitted(t)))
  {
    assert SubOk(p, t) && SlotOk(p, OwnId(p.subs[t])) && InFlight(p, OwnId(p.subs[t]));
    var me := p.subs[t];
    assert Adds(p, Apply(p, LogSubmitted(t)), Call(CHECKPOINT, me.stream, me.cid, me.sseq, me.gen, SUBMITTED));
  }

  lemma GiveUpAdds(p: Pool, t: nat)
    requires Inv(p) && Enabled(p, GiveUp(t))
    ensures AddsLine(p, GiveUp(t), Apply(p, GiveUp(t)))
  {
    var me := p.subs[t];
    assert Adds(p, Apply(p, GiveUp(t)), Call(CHECKPOINT, me.stream, me.cid, me.sseq, 0, POOL_FULL));
  }

  lemma HostAdds(p: Pool, c: Call)
    requires Inv(p) && Enabled(p, HostRecords(c))
    ensures AddsLine(p, HostRecords(c), Apply(p, HostRecords(c)))
  {
    assert Adds(p, Apply(p, HostRecords(c)), c);
  }

  /** The slot a poller asks about is in flight, and its latest recording is the submission it holds. */
  lemma AskedIsCurrent(p: Pool, q: nat)
    requires Inv(p) && Enabled(p, Report(q))
    ensures HasAnswer(p, q) && p.polls[q].at.gen == p.slots[p.polls[q].at.id].generation
    ensures var s := p.slots[p.polls[q].at.id];
      s.phase == QUERYING && AskedKey(p, q) == Key(p.polls[q].at.id.stream, s.checkpointId, s.submittedSeq, s.generation)
    ensures AskedKey(p, q).arg1 >= 1
  {
    var id := p.polls[q].at.id;
    assert PollOk(p, q) && SlotOk(p, id) && InFlight(p, id);
    assert RecOk(p, id.stream, p.slots[id].rec);
  }

  /** Whether the answer has been reported before for this generation. */
  predicate Repeated(p: Pool, q: nat)
    requires HasAnswer(p, q)
  {
    var s := p.slots[p.polls[q].at.id];
    (Answer(p, q) == 0 && s.notReadyGen == s.generation) || (Answer(p, q) !in {0, 1} && s.errorGen == s.generation)
  }

  lemma ConfirmAdds(p: Pool, q: nat)
    requires Inv(p) && Enabled(p, Report(q)) && p.polls[q].at.rc == 1
    ensures AddsLine(p, Report(q), Apply(p, Report(q)))
  {
    AskedIsCurrent(p, q);
    var key := AskedKey(p, q);
    assert Adds(p, Apply(p, Report(q)), Call(DEVICE_CONFIRMED, key.stream, key.corr, key.arg0, key.arg1, 0));
  }

  lemma OtherAdds(p: Pool, q: nat)
    requires Inv(p) && Enabled(p, Report(q)) && p.polls[q].at.rc != 1
    ensures HasAnswer(p, q)
    ensures Repeated(p, q) ==> Apply(p, Report(q)).log == p.log
    ensures !Repeated(p, q) ==> AddsLine(p, Report(q), Apply(p, Report(q)))
  {
    AskedIsCurrent(p, q);
    var key, flag := AskedKey(p, q), if Answer(p, q) == 0 then NOT_READY else QUERY_ERROR;
    if !Repeated(p, q) {
      assert Adds(p, Apply(p, Report(q)), Call(CHECKPOINT, key.stream, key.corr, key.arg0, key.arg1, flag));
    }
  }

  predicate Writes(a: Action) {
    a.LogSubmitted? || a.GiveUp? || a.Report? || a.HostRecords?
  }

  lemma OthersAddNothing(p: Pool, a: Action)
    requires Shape(p) && Enabled(p, a) && !Writes(a)
    ensures Apply(p, a).log == p.log
  {
    if OfSubmitter(a) { SubmitterAddsNothing(p, a); } else { PollerAddsNothing(p, a); }
  }

  lemma SubmitterAddsNothing(p: Pool, a: Action)
    requires Shape(p) && Enabled(p, a) && OfSubmitter(a) && !Writes(a)
    ensures Apply(p, a).log == p.log
  {}

  lemma PollerAddsNothing(p: Pool, a: Action)
    requires Shape(p) && Enabled(p, a) && !OfSubmitter(a) && !Writes(a)
    ensures Apply(p, a).log == p.log
  {}

  /** Every step adds at most one line, and explains it. */
  lemma StepWrites(p: Pool, a: Action)
    requires Inv(p) && Enabled(p, a)
    ensures Apply(p, a).log == p.log || AddsLine(p, a, Apply(p, a))
  {
    if a.LogSubmitted? { SubmittedAdds(p, a.t); }
    else if a.GiveUp? { GiveUpAdds(p, a.t); }
    else if a.HostRecords? { HostAdds(p, a.call); }
    else if a.Report? { ReportAdds(p, a.q); }
    else { OthersAddNothing(p, a); }
  }

  lemma ReportAdds(p: Pool, q: nat)
    requires Inv(p) && Enabled(p, Report(q))
    ensures Apply(p, Report(q)).log == p.log || AddsLine(p, Report(q), Apply(p, Report(q)))
  {
    if p.polls[q].at.rc == 1 { ConfirmAdds(p, q); } else { OtherAdds(p, q); }
  }

  /** Line `i` was added by step `n` of the run, which explains it. */
  ghost predicate Explains(p0: Pool, acts: seq<Action>, n: nat, i: nat, c: Call)
    requires IsRun(p0, acts)
  {
    n < |acts| && var p := StateAt(p0, acts, n); |p.log| == i && WrittenBy(p, acts[n], c)
  }

  lemma LineAt(p0: Pool, acts: seq<Action>, n: nat)
    requires Inv(p0) && IsRun(p0, acts) && n < |acts|
    ensures var p, p' := StateAt(p0, acts, n), StateAt(p0, acts, n + 1); p'.log == p.log || AddsLine(p, acts[n], p')
  {
    StepAt(p0, acts, n);
    StepWrites(StateAt(p0, acts, n), acts[n]);
  }

  lemma {:induction false} LineOfState(p0: Pool, acts: seq<Action>, k: nat, i: nat) returns (n: nat)
    requires Inv(p0) && IsRun(p0, acts) && k <= |acts| && |p0.log| <= i < |StateAt(p0, acts, k).log|
    ensures n < k && Explains(p0, acts, n, i, StateAt(p0, acts, k).log[i])
    decreases k
  {
    var p, p' := StateAt(p0, acts, k - 1), StateAt(p0, acts, k);
    LineAt(p0, acts, k - 1);
    if i < |p.log| {
      n := LineOfState(p0, acts, k - 1, i);
    } else {
      n := k - 1;
    }
  }

  /** Every line of the log is explained by the step of the run that added it. */
  lemma LineTellsStep(p0: Pool, acts: seq<Action>, i: nat) returns (n: nat)
    requires Init(p0) && IsRun(p0, acts) && i < |Exec(p0, acts).log|
    ensures Explains(p0, acts, n, i, Exec(p0, acts).log[i])
  {
    InitInv(p0);
    StateAtEnd(p0, acts);
    n := LineOfState(p0, acts, |acts|, i);
  }

  // ---- Answers and their lines ----

  /** A line on the log reports an answer like `rc` for this tuple. */
  ghost predicate Told(p: Pool, key: Key, rc: int) {
    exists i :: 0 <= i < |p.log| && Tells(p.log[i], rc) && TupleOf(p.log[i]) == key
  }

  function SlotKey(p: Pool, id: SlotId): Key
    requires id in p.slots
  {
    Key(id.stream, p.slots[id].checkpointId, p.slots[id].submittedSeq, p.slots[id].generation)
  }

  /** What a slot remembers as reported stands on the log. */
  ghost predicate Remembered(p: Pool, id: SlotId) {
    id in p.slots ==>
      var s := p.slots[id];
      && s.notReadyGen <= s.generation && s.errorGen <= s.generation
      && (s.notReadyGen == s.generation >= 1 ==> Told(p, SlotKey(p, id), 0))
      && (s.errorGen == s.generation >= 1 ==> Told(p, SlotKey(p, id), 2))
  }

  /** While the owner of a slot stores its numbers, nothing is remembered of the new generation. */
  predicate StoresNew(p: Pool, t: nat) {
    InStage(p, t, Numbered) || InStage(p, t, SeqStored) ==>
      var id := OwnId(p.subs[t]);
      id in p.slots && p.slots[id].notReadyGen < p.slots[id].generation && p.slots[id].errorGen < p.slots[id].generation
  }

  ghost predicate Memory(p: Pool) {
    (forall id :: Remembered(p, id)) && forall t :: StoresNew(p, t)
  }

  lemma ToldStays(p: Pool, p': Pool, key: Key, rc: int)
    requires p.log <= p'.log && Told(p, key, rc)
    ensures Told(p', key, rc)
  {
    var i :| 0 <= i < |p.log| && Tells(p.log[i], rc) && TupleOf(p.log[i]) == key;
    assert p'.log[i] == p.log[i];
  }

  /** A slot whose numbers and memory are as before. */
  predicate SameMemory(s: Slot, s': Slot) {
    && s'.generation == s.generation && s'.submittedSeq == s.submittedSeq && s'.checkpointId == s.checkpointId
    && s'.notReadyGen == s.notReadyGen && s'.errorGen == s.errorGen
  }

  lemma SameMemoryRemembered(p: Pool, p': Pool, id: SlotId)
    requires Remembered(p, id) && p.log <= p'.log
    requires id in p'.slots ==> id in p.slots && SameMemory(p.slots[id], p'.slots[id])
    ensures Remembered(p', id)
  {
    if id in p'.slots {
      var s, key := p.slots[id], SlotKey(p, id);
      if s.notReadyGen == s.generation >= 1 { ToldStays(p, p', key, 0); }
      if s.errorGen == s.generation >= 1 { ToldStays(p, p', key, 2); }
    }
  }

  lemma LogGrows(p: Pool, a: Action)
    requires Shape(p) && Enabled(p, a)
    ensures p.log <= Apply(p, a).log
  {
    StepLogs(p, a);
  }

  /** Steps that neither number a reservation, nor store its ids, nor report another answer than 1. */
  predicate KeepsMemory(p: Pool, a: Action) {
    !a.TakeNumber? && !a.StoreSeq? && !a.StoreId? && (a.Report? ==> a.q < |p.polls| && p.polls[a.q].at.Answered? && p.polls[a.q].at.rc == 1)
  }

  ghost predicate SameMemories(p: Pool, p': Pool) {
    && p'.slots.Keys == p.slots.Keys && (forall id :: id in p.slots ==> SameMemory(p.slots[id], p'.slots[id]))
    && |p'.subs| == |p.subs|
    && (forall t: nat :: InStage(p', t, Numbered) || InStage(p', t, SeqStored) ==> p'.subs[t] == p.subs[t])
  }

  lemma SubmitterSameMemories(p: Pool, a: Action)
    requires Inv(p) && Enabled(p, a) && OfSubmitter(a) && KeepsMemory(p, a)
    ensures SameMemories(p, Apply(p, a))
  {
    if a.Begin? || a.Try? || a.GiveUp? { SearchSameMemories(p, a); } else { OwnerSameMemories(p, a); }
  }

  lemma SearchSameMemories(p: Pool, a: Action)
    requires Shape(p) && Enabled(p, a) && (a.Begin? || a.Try? || a.GiveUp?)
    ensures SameMemories(p, Apply(p, a))
  {
    if a.Try? { TrySameMemories(p, a.t); }
  }

  lemma TrySameMemories(p: Pool, t: nat)
    requires Shape(p) && Enabled(p, Try(t))
    ensures SameMemories(p, DoTry(p, t))
  {}

  lemma OwnerSameMemories(p: Pool, a: Action)
    requires Inv(p) && Enabled(p, a) && (a.RecordOk? || a.RecordFails? || a.LogSubmitted? || a.Publish?)
    ensures SameMemories(p, Apply(p, a))
  {
    assert SubOk(p, a.t);
    if a.RecordOk? { RecordSameMemories(p, a.t); }
    else if a.LogSubmitted? { LogSameMemories(p, a.t); }
    else { FreeSameMemories(p, a); }
  }

  lemma RecordSameMemories(p: Pool, t: nat)
    requires Shape(p) && Enabled(p, RecordOk(t))
    ensures SameMemories(p, DoRecordOk(p, t))
  {}

  lemma LogSameMemories(p: Pool, t: nat)
    requires Shape(p) && Enabled(p, LogSubmitted(t))
    ensures SameMemories(p, DoLogSubmitted(p, t))
  {}

  lemma FreeSameMemories(p: Pool, a: Action)
    requires Shape(p) && Enabled(p, a) && (a.RecordFails? || a.Publish?)
    ensures SameMemories(p, Apply(p, a))
  {}

  lemma OtherSameMemories(p: Pool, a: Action)
    requires Inv(p) && Enabled(p, a) && !OfSubmitter(a) && KeepsMemory(p, a)
    ensures SameMemories(p, Apply(p, a))
  {
    if a.Examine? || a.Report? || a.Release? {
      PollerSameMemories(p, a);
    } else {
      RestLeavesSlots(p, a);
      if OfPoller(a) { PollerFrame(p, a); } else { WorldFrame(p, a); }
    }
  }

  lemma PollerSameMemories(p: Pool, a: Action)
    requires Inv(p) && Enabled(p, a) && (a.Examine? || a.Report? || a.Release?) && KeepsMemory(p, a)
    ensures SameMemories(p, Apply(p, a))
  {
    assert PollOk(p, a.q);
  }

  lemma SameMemoriesKeep(p: Pool, p': Pool)
    requires Memory(p) && SameMemories(p, p') && p.log <= p'.log
    ensures Memory(p')
  {
    forall id ensures Remembered(p', id) { SameMemoryRemembered(p, p', id); }
    forall t: nat ensures StoresNew(p', t) { assert StoresNew(p, t); }
  }

  lemma NumberKeepsMemory(p: Pool, t: nat)
    requires Inv(p) && Memory(p) && Enabled(p, TakeNumber(t))
    ensures Memory(DoTakeNumber(p, t))
  {
    var p' := DoTakeNumber(p, t);
    assert Remembered(p, OwnId(p.subs[t]));
    forall id ensures Remembered(p', id) {
      assert Remembered(p, id);
      if id != OwnId(p.subs[t]) { SameMemoryRemembered(p, p', id); }
    }
    forall u: nat ensures StoresNew(p', u) { assert StoresNew(p, u) && SubOk(p, u) && SubOk(p, t); }
  }

  lemma StoreKeepsMemory(p: Pool, a: Action)
    requires Inv(p) && Memory(p) && Enabled(p, a) && (a.StoreSeq? || a.StoreId?)
    ensures Memory(Apply(p, a))
  {
    var p', id := Apply(p, a), OwnId(p.subs[a.t]);
    assert StoresNew(p, a.t);
    forall d ensures Remembered(p', d) {
      assert Remembered(p, d);
      if d != id { SameMemoryRemembered(p, p', d); }
    }
    forall u: nat ensures StoresNew(p', u) { assert StoresNew(p, u) && SubOk(p, u) && SubOk(p, a.t); }
  }

  /** After a report the log tells the answer, whether the step added the line or an earlier one did. */
  lemma ReportTells(p: Pool, q: nat)
    requires Inv(p) && Memory(p) && Enabled(p, Report(q))
    ensures HasAnswer(p, q) && Told(Apply(p, Report(q)), AskedKey(p, q), Answer(p, q))
  {
    AskedIsCurrent(p, q);
    var p', rc := Apply(p, Report(q)), Answer(p, q);
    if rc == 1 {
      ConfirmAdds(p, q);
    } else {
      OtherAdds(p, q);
      if Repeated(p, q) { assert Remembered(p, p.polls[q].at.id); }
    }
    if p'.log != p.log {
      var c :| Adds(p, p', c) && WrittenBy(p, Report(q), c);
      assert p'.log[|p.log|] == c && Tells(c, rc);
    }
  }

  lemma ReportTellsKind(p: Pool, q: nat, rc: int)
    requires Inv(p) && Memory(p) && Enabled(p, Report(q)) && HasAnswer(p, q) && SameKind(Answer(p, q), rc)
    ensures Told(Apply(p, Report(q)), AskedKey(p, q), rc)
  {
    ReportTells(p, q);
    var p', key := Apply(p, Report(q)), AskedKey(p, q);
    var i :| 0 <= i < |p'.log| && Tells(p'.log[i], Answer(p, q)) && TupleOf(p'.log[i]) == key;
    assert Tells(p'.log[i], rc);
  }

  lemma ReportKeepsMemory(p: Pool, q: nat)
    requires Inv(p) && Memory(p) && Enabled(p, Report(q)) && p.polls[q].at.rc != 1
    ensures Memory(DoReportOther(p, q))
  {
    var p', id := DoReportOther(p, q), p.polls[q].at.id;
    AskedIsCurrent(p, q);
    assert p.log <= p'.log by { LogGrows(p, Report(q)); }
    assert Remembered(p', id) by { ReportTells(p, q); ReportedRemembered(p, q); }
    forall d ensures Remembered(p', d) {
      if d != id { SameMemoryRemembered(p, p', d); }
    }
    forall u: nat ensures StoresNew(p', u) { ReportLeavesOwners(p, q, u); }
  }

  lemma ReportLeavesOwners(p: Pool, q: nat, u: nat)
    requires Inv(p) && Memory(p) && Enabled(p, Report(q)) && p.polls[q].at.rc != 1
    ensures StoresNew(DoReportOther(p, q), u)
  {
    assert PollOk(p, q) && StoresNew(p, u) && SubOk(p, u);
  }

  lemma ReportedRemembered(p: Pool, q: nat)
    requires Inv(p) && Enabled(p, Report(q)) && p.polls[q].at.rc != 1 && Remembered(p, p.polls[q].at.id)
    requires p.log <= DoReportOther(p, q).log
    requires HasAnswer(p, q) && Told(DoReportOther(p, q), AskedKey(p, q), Answer(p, q))
    ensures Remembered(DoReportOther(p, q), p.polls[q].at.id)
  {
    AskedIsCurrent(p, q);
    var p', id := DoReportOther(p, q), p.polls[q].at.id;
    var s, key := p.slots[id], SlotKey(p, id);
    if s.notReadyGen == s.generation { ToldStays(p, p', key, 0); }
    if s.errorGen == s.generation { ToldStays(p, p', key, 2); }
  }

  lemma StepKeepsMemory(p: Pool, a: Action)
    requires Inv(p) && Memory(p) && Enabled(p, a)
    ensures Memory(Apply(p, a))
  {
    if KeepsMemory(p, a) {
      if OfSubmitter(a) { SubmitterSameMemories(p, a); } else { OtherSameMemories(p, a); }
      LogGrows(p, a);
      SameMemoriesKeep(p, Apply(p, a));
    } else if a.TakeNumber? {
      NumberKeepsMemory(p, a.t);
    } else if a.Report? {
      ReportKeepsMemory(p, a.q);
    } else {
      StoreKeepsMemory(p, a);
    }
  }

  lemma InitMemory(p: Pool)
    requires Init(p)
    ensures Inv(p) && Memory(p)
  {
    InitInv(p);
  }

  lemma {:induction false} MemoryAt(p0: Pool, acts: seq<Action>, n: nat)
    requires Inv(p0) && Memory(p0) && IsRun(p0, acts) && n <= |acts|
    ensures Inv(StateAt(p0, acts, n)) && Memory(StateAt(p0, acts, n))
    decreases n
  {
    assert Inv(StateAt(p0, acts, n)) by { StepAt(p0, acts, n); }
    if n > 0 {
      MemoryAt(p0, acts, n - 1);
      assert Memory(StateAt(p0, acts, n)) by {
        StepAt(p0, acts, n - 1);
        StepKeepsMemory(StateAt(p0, acts, n - 1), acts[n - 1]);
      }
    }
  }

  lemma {:induction false} LogGrowsTo(p0: Pool, acts: seq<Action>, m: nat, n: nat)
    requires Inv(p0) && IsRun(p0, acts) && m <= n <= |acts|
    ensures StateAt(p0, acts, m).log <= StateAt(p0, acts, n).log
    decreases n
  {
    if m < n {
      LogGrowsTo(p0, acts, m, n - 1);
      LogGrowsAt(p0, acts, n - 1);
    }
  }

  lemma LogGrowsAt(p0: Pool, acts: seq<Action>, n: nat)
    requires Inv(p0) && IsRun(p0, acts) && n < |acts|
    ensures StateAt(p0, acts, n).log <= StateAt(p0, acts, n + 1).log
  {
    StepAt(p0, acts, n);
    LogGrows(StateAt(p0, acts, n), acts[n]);
  }

  /** Step `n` of the run reports an answer of the kind of `rc`, about a recording with this tuple. */
  ghost predicate Reports(p0: Pool, acts: seq<Action>, n: nat, key: Key, rc: int)
    requires IsRun(p0, acts)
  {
    n < |acts| && acts[n].Report? &&
    var p := StateAt(p0, acts, n);
    HasAnswer(p, acts[n].q) && AskedKey(p, acts[n].q) == key && SameKind(Answer(p, acts[n].q), rc)
  }

  lemma ReportIsLogged(p0: Pool, acts: seq<Action>, n: nat, key: Key, rc: int)
    requires Init(p0) && IsRun(p0, acts) && Reports(p0, acts, n, key, rc)
    ensures Told(Exec(p0, acts), key, rc)
  {
    assert Told(StateAt(p0, acts, n + 1), key, rc) by {
      InitMemory(p0);
      MemoryAt(p0, acts, n);
      StepAt(p0, acts, n);
      ReportTellsKind(StateAt(p0, acts, n), acts[n].q, rc);
    }
    assert StateAt(p0, acts, n + 1).log <= Exec(p0, acts).log by {
      InitInv(p0);
      LogGrowsTo(p0, acts, n + 1, |acts|);
      StateAtEnd(p0, acts);
    }
    ToldStays(StateAt(p0, acts, n + 1), Exec(p0, acts), key, rc);
  }

  lemma LoggedIsReported(p0: Pool, acts: seq<Action>, i: nat, rc: int) returns (n: nat)
    requires Init(p0) && IsRun(p0, acts) && i < |Exec(p0, acts).log| && Tells(Exec(p0, acts).log[i], rc)
    ensures Reports(p0, acts, n, TupleOf(Exec(p0, acts).log[i]), rc)
  {
    n := LineTellsStep(p0, acts, i);
  }

  /** Over every run, the log has a line that reports complete, not ready or an error for a tuple if and
      only if such an answer was reported for a recording with that tuple. */
  lemma AnswersAreLogged(p0: Pool, acts: seq<Action>, key: Key, rc: int)
    requires Init(p0) && IsRun(p0, acts)
    ensures Told(Exec(p0, acts), key, rc) <==> exists n: nat :: Reports(p0, acts, n, key, rc)
  {
    forall n: nat | Reports(p0, acts, n, key, rc) ensures Told(Exec(p0, acts), key, rc) {
      ReportIsLogged(p0, acts, n, key, rc);
    }
    if Told(Exec(p0, acts), key, rc) {
      var i :| 0 <= i < |Exec(p0, acts).log| && Tells(Exec(p0, acts).log[i], rc) && TupleOf(Exec(p0, acts).log[i]) == key;
      var n := LoggedIsReported(p0, acts, i, rc);
    }
  }

  // ---- Where an answer comes from ----

  /** The step leaves the answer of poller `q` alone, or is the query that gave it. */
  predicate AnswerStep(p: Pool, a: Action, p': Pool, q: nat) {
    q < |p'.polls| && p'.polls[q].at.Answered? ==>
      q < |p.polls| &&
      var x := p'.polls[q].at;
      p.polls[q].at == x || (a == Query(q, x.rc) && p.polls[q].at == Loaded(x.id, x.gen))
  }

  lemma PollerAnswerStep(p: Pool, a: Action, q: nat)
    requires Shape(p) && Enabled(p, a) && OfPoller(a)
    ensures AnswerStep(p, a, Apply(p, a), q)
  {
    if a.Report? { ReportAnswerStep(p, a.q, q); } else { OtherAnswerStep(p, a, q); }
  }

  lemma ReportAnswerStep(p: Pool, r: nat, q: nat)
    requires Shape(p) && Enabled(p, Report(r))
    ensures AnswerStep(p, Report(r), Apply(p, Report(r)), q)
  {}

  lemma OtherAnswerStep(p: Pool, a: Action, q: nat)
    requires Shape(p) && Enabled(p, a) && OfPoller(a) && !a.Report?
    ensures AnswerStep(p, a, Apply(p, a), q)
  {
    if a.Enter? || a.Advance? || a.Leave? { FlagAnswerStep(p, a, q); }
    else if a.Examine? || a.Release? { SlotAnswerStep(p, a, q); }
    else { AskingAnswerStep(p, a, q); }
  }

  lemma FlagAnswerStep(p: Pool, a: Action, q: nat)
    requires Shape(p) && Enabled(p, a) && (a.Enter? || a.Advance? || a.Leave?)
    ensures AnswerStep(p, a, Apply(p, a), q)
  {}

  lemma SlotAnswerStep(p: Pool, a: Action, q: nat)
    requires Shape(p) && Enabled(p, a) && (a.Examine? || a.Release?)
    ensures AnswerStep(p, a, Apply(p, a), q)
  {}

  lemma AskingAnswerStep(p: Pool, a: Action, q: nat)
    requires Shape(p) && Enabled(p, a) && (a.LoadGen? || a.Query?)
    ensures AnswerStep(p, a, Apply(p, a), q)
  {}

  lemma AnyAnswerStep(p: Pool, a: Action, q: nat)
    requires Shape(p) && Enabled(p, a)
    ensures AnswerStep(p, a, Apply(p, a), q)
  {
    if OfPoller(a) { PollerAnswerStep(p, a, q); }
    else if OfSubmitter(a) { SubmitterFrame(p, a); }
    else { WorldPolls(p, a); }
  }

  lemma WorldPolls(p: Pool, a: Action)
    requires Shape(p) && Enabled(p, a) && (a.DeviceCompletes? || a.HostRecords?)
    ensures Apply(p, a).polls == p.polls
  {}

  lemma AnswerAt(p0: Pool, acts: seq<Action>, n: nat, q: nat)
    requires Inv(p0) && IsRun(p0, acts) && n < |acts|
    ensures AnswerStep(StateAt(p0, acts, n), acts[n], StateAt(p0, acts, n + 1), q)
  {
    StepAt(p0, acts, n);
    AnyAnswerStep(StateAt(p0, acts, n), acts[n], q);
  }

  /** An answer is what the backend said to the poller's query of that slot and generation. */
  lemma {:induction false} AnswerWasGiven(p0: Pool, acts: seq<Action>, n: nat, q: nat, x: PollStage) returns (m: nat)
    requires Inv(p0) && (q < |p0.polls| ==> !p0.polls[q].at.Answered?) && IsRun(p0, acts) && n <= |acts|
    requires x.Answered? && StandsAt(StateAt(p0, acts, n), q, x)
    ensures m < n && acts[m] == Query(q, x.rc) && StandsAt(StateAt(p0, acts, m), q, Loaded(x.id, x.gen))
    decreases n
  {
    AnswerAt(p0, acts, n - 1, q);
    if StandsAt(StateAt(p0, acts, n - 1), q, x) {
      m := AnswerWasGiven(p0, acts, n - 1, q, x);
    } else {
      m := n - 1;
    }
  }

  predicate StandsAt(p: Pool, q: nat, x: PollStage) {
    q < |p.polls| && p.polls[q].at == x
  }

  // ---- Not ready, as the report counts it ----

  /** On a complete log the analyzer sees a checkpoint as not ready if and only if an answer of 0 was
      reported for a recording with its tuple. */
  lemma NotReadySeenExact(p0: Pool, acts: seq<Action>, evs: seq<Event>, key: Key)
    requires Init(p0) && IsRun(p0, acts) && Watermark.WholeLog(Exec(p0, acts), evs)
    ensures NotReadySeen(evs, key) <==> exists n: nat :: Reports(p0, acts, n, key, 0)
  {
    var log := Exec(p0, acts).log;
    AnswersAreLogged(p0, acts, key, 0);
    forall i | 0 <= i < |evs| ensures IsNotReady(evs[i].body.call) && KeyOf(evs[i]) == key <==> Tells(log[i], 0) && TupleOf(log[i]) == key {}
  }

  /** A recording keeps its place and its tuple. */
  predicate SameTuples(p: Pool, p': Pool, st: nat, j: nat) {
    st in p.queue && j < |p.queue[st]| ==>
      st in p'.queue && j < |p'.queue[st]| && Watermark.SameTuple(p.queue[st][j], p'.queue[st][j])
  }

  lemma StepKeepsTuples(p: Pool, a: Action, st: nat, j: nat)
    requires Shape(p) && Enabled(p, a)
    ensures SameTuples(p, Apply(p, a), st, j)
  {
    if a.RecordOk? || a.LogSubmitted? { RecordKeepsTuples(p, a, st, j); } else { OthersKeepTuples(p, a, st, j); }
  }

  lemma RecordKeepsTuples(p: Pool, a: Action, st: nat, j: nat)
    requires Shape(p) && Enabled(p, a) && (a.RecordOk? || a.LogSubmitted?)
    ensures SameTuples(p, Apply(p, a), st, j)
  {}

  lemma OthersKeepTuples(p: Pool, a: Action, st: nat, j: nat)
    requires Shape(p) && Enabled(p, a) && !a.RecordOk? && !a.LogSubmitted?
    ensures SameTuples(p, Apply(p, a), st, j)
  {
    OtherSteps(p, a);
    var p' := Apply(p, a);
    if st in p.queue && j < |p.queue[st]| { assert SameRecording(p.queue[st][j], p'.queue[st][j]); }
  }

  lemma {:induction false} TuplesStay(p0: Pool, acts: seq<Action>, m: nat, n: nat, st: nat, j: nat)
    requires Inv(p0) && IsRun(p0, acts) && m <= n <= |acts|
    ensures SameTuples(StateAt(p0, acts, m), StateAt(p0, acts, n), st, j)
    decreases n
  {
    if m < n {
      TuplesStay(p0, acts, m, n - 1, st, j);
      TuplesStayAt(p0, acts, n - 1, st, j);
    }
  }

  lemma TuplesStayAt(p0: Pool, acts: seq<Action>, n: nat, st: nat, j: nat)
    requires Inv(p0) && IsRun(p0, acts) && n < |acts|
    ensures SameTuples(StateAt(p0, acts, n), StateAt(p0, acts, n + 1), st, j)
  {
    StepAt(p0, acts, n);
    StepKeepsTuples(StateAt(p0, acts, n), acts[n], st, j);
  }

  /** Step `n` of the run reports an answer of 0 about the recording at place `j` of stream `st`. */
  ghost predicate ReportsNotReady(p0: Pool, acts: seq<Action>, n: nat, st: nat, j: nat)
    requires IsRun(p0, acts)
  {
    n < |acts| && acts[n].Report? &&
    var p := StateAt(p0, acts, n);
    HasAnswer(p, acts[n].q) && Answer(p, acts[n].q) == 0
    && p.polls[acts[n].q].at.id.stream == st && p.slots[p.polls[acts[n].q].at.id].rec == j
  }

  /** In a guarded run a report about a tuple is about the one recording that carries it. */
  lemma ReportIsAboutPlace(p0: Pool, acts: seq<Action>, n: nat, st: nat, j: nat)
    requires Init(p0) && Watermark.IsGuardedRun(p0, acts) && IsRun(p0, acts)
    requires st in Exec(p0, acts).queue && j < |Exec(p0, acts).queue[st]|
    ensures var r := Exec(p0, acts).queue[st][j];
      Reports(p0, acts, n, Key(st, r.cid, r.sseq, r.gen), 0) <==> ReportsNotReady(p0, acts, n, st, j)
  {
    var p' := Exec(p0, acts);
    if n < |acts| && acts[n].Report? && HasAnswer(StateAt(p0, acts, n), acts[n].q) {
      var p := StateAt(p0, acts, n);
      var id := p.polls[acts[n].q].at.id;
      var i := p.slots[id].rec;
      assert SameTuples(p, p', id.stream, i) by {
        InitInv(p0);
        StateAtEnd(p0, acts);
        TuplesStay(p0, acts, n, |acts|, id.stream, i);
      }
      assert Watermark.InOrder(p', st, i, j) && Watermark.InOrder(p', st, j, i) by {
        InitInv(p0);
        Watermark.GuardedKeeps(p0, acts);
      }
    }
  }

  /** With the recording guard: a submission is seen as not ready if and only if an answer of 0 was
      reported for its very recording. */
  lemma NotReadyMeansAnswered(p0: Pool, acts: seq<Action>, evs: seq<Event>, e: Event, st: nat)
    requires Init(p0) && Watermark.IsGuardedRun(p0, acts) && IsRun(p0, acts)
    requires Watermark.WholeLog(Exec(p0, acts), evs) && e in evs && SubmittedOn(e, st)
    ensures 1 <= e.seqno <= |Exec(p0, acts).log| && Describes(Exec(p0, acts), e.seqno - 1)
    ensures var j := Exec(p0, acts).prov[e.seqno - 1];
      NotReadySeen(evs, KeyOf(e)) <==> exists n: nat :: ReportsNotReady(p0, acts, n, st, j)
  {
    var p' := Exec(p0, acts);
    assert LineOk(p', e.seqno - 1) by { InitInv(p0); RunKeepsInv(p0, acts); }
    var j := p'.prov[e.seqno - 1];
    var r := p'.queue[st][j];
    assert KeyOf(e) == Key(st, r.cid, r.sseq, r.gen);
    NotReadySeenExact(p0, acts, evs, KeyOf(e));
    forall n: nat ensures Reports(p0, acts, n, KeyOf(e), 0) <==> ReportsNotReady(p0, acts, n, st, j) {
      ReportIsAboutPlace(p0, acts, n, st, j);
    }
  }
}
