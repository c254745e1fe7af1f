/** What the checkpoint pool promises over whole runs, for every interleaving. */
module PoolTheorems {
  import opened FiniteSets
  import opened FlightEvents
  import opened CheckpointPool
  import opened PoolFrames
  import opened PoolInvariant

  ghost predicate IsRun(p: Pool, acts: seq<Action>)
    decreases |acts|
  {
    acts == [] || (Shape(p) && Enabled(p, acts[0]) && IsRun(Apply(p, acts[0]), acts[1..]))
  }

  function Exec(p: Pool, acts: seq<Action>): Pool
    requires IsRun(p, acts)
    decreases |acts|
  {
    if acts == [] then p else Exec(Apply(p, acts[0]), acts[1..])
  }

  lemma {:induction false} RunKeepsInv(p: Pool, acts: seq<Action>)
    requires Inv(p) && IsRun(p, acts)
    ensures Inv(Exec(p, acts))
    decreases |acts|
  {
    if acts != [] {
      StepKeepsInv(p, acts[0]);
      RunKeepsInv(Apply(p, acts[0]), acts[1..]);
    }
  }

  ghost predicate Reachable(p: Pool) {
    exists p0, acts :: Init(p0) && IsRun(p0, acts) && Exec(p0, acts) == p
  }

  lemma ReachableInv(p: Pool)
    requires Reachable(p)
    ensures Inv(p)
  {
    var p0, acts :| Init(p0) && IsRun(p0, acts) && Exec(p0, acts) == p;
    InitInv(p0);
    RunKeepsInv(p0, acts);
  }

  lemma {:induction false} StreamsStay(p: Pool, acts: seq<Action>)
    requires IsRun(p, acts)
    ensures Exec(p, acts).ids == p.ids && Exec(p, acts).k == p.k
    decreases |acts|
  {
    if acts != [] {
      SameStreams(p, acts[0]);
      StreamsStay(Apply(p, acts[0]), acts[1..]);
    }
  }

  // ---- Ownership ----

  predicate Owns(p: Pool, t: nat, id: SlotId) {
    t < |p.subs| && p.subs[t].Owning? && OwnId(p.subs[t]) == id
  }

  /** A reserved slot has exactly one owning submitter, an owned slot is reserved, and at most one slot
      in the whole pool is being queried. */
  lemma SlotProtocol(p: Pool)
    requires Reachable(p)
    ensures forall id :: id in p.slots && p.slots[id].phase == RESERVED ==> exists t: nat :: Owns(p, t, id)
    ensures forall t: nat, id :: Owns(p, t, id) ==> id in p.slots && p.slots[id].phase == RESERVED
    ensures forall t: nat, u: nat, id :: Owns(p, t, id) && Owns(p, u, id) ==> t == u
    ensures forall d, e :: d in p.slots && e in p.slots && p.slots[d].phase == QUERYING && p.slots[e].phase == QUERYING ==> d == e
  {
    ReachableInv(p);
    forall id | id in p.slots && p.slots[id].phase == RESERVED ensures exists t: nat :: Owns(p, t, id) {
      assert SlotOk(p, id);
      assert Owns(p, p.slots[id].holder, id);
    }
    forall t: nat, id | Owns(p, t, id) ensures id in p.slots && p.slots[id].phase == RESERVED && p.slots[id].holder == t {
      assert SubOk(p, t);
    }
    forall d, e | d in p.slots && e in p.slots && p.slots[d].phase == QUERYING && p.slots[e].phase == QUERYING ensures d == e {
      assert SlotOk(p, d) && SlotOk(p, e);
    }
  }

  /** An event is recorded again only by the owner of its reserved slot, and only when the device has
      completed every earlier recording of it; in particular never while it is pending or queried. */
  lemma EventReusedOnlyWhenComplete(p: Pool, t: nat)
    requires Reachable(p) && Shape(p) && Enabled(p, RecordOk(t))
    ensures var id := OwnId(p.subs[t]); p.slots[id].phase == RESERVED && AllComplete(p, id)
  {
    ReachableInv(p);
    var id := OwnId(p.subs[t]);
    assert SubOk(p, t);
    forall j | 0 <= j < |p.queue[id.stream]| && p.queue[id.stream][j].index == id.index ensures j < p.done[id.stream] {
      assert RecOk(p, id.stream, j);
    }
  }

  /** A step leaves every generation alone, except that the owner of a newly reserved slot raises that
      slot's by one, once per reservation. */
  lemma GenerationsRiseByOne(p: Pool, a: Action, id: SlotId)
    requires Inv(p) && Enabled(p, a) && id in p.slots
    ensures id in Apply(p, a).slots
    ensures Apply(p, a).slots[id].generation ==
            p.slots[id].generation + (if a.TakeNumber? && Owns(p, a.t, id) then 1 else 0)
    ensures a.TakeNumber? ==> InStage(p, a.t, Reserved) && InStage(Apply(p, a), a.t, Numbered)
  {
    if OfSubmitter(a) { SubmitterGeneration(p, a, id); } else { OtherGeneration(p, a, id); }
  }

  lemma SubmitterGeneration(p: Pool, a: Action, id: SlotId)
    requires Inv(p) && Enabled(p, a) && OfSubmitter(a) && id in p.slots
    ensures id in Apply(p, a).slots && Apply(p, a).slots[id].generation ==
            p.slots[id].generation + (if a.TakeNumber? && Owns(p, a.t, id) then 1 else 0)
  {
    if a.Begin? || a.Try? || a.GiveUp? || a.LogSubmitted? { SearchLeavesGenerations(p, a, id); } else { OwnerGeneration(p, a, id); }
  }

  lemma SearchLeavesGenerations(p: Pool, a: Action, id: SlotId)
    requires Shape(p) && Enabled(p, a) && (a.Begin? || a.Try? || a.GiveUp? || a.LogSubmitted?) && id in p.slots
    ensures id in Apply(p, a).slots && Apply(p, a).slots[id].generation == p.slots[id].generation
  {}

  lemma OwnerGeneration(p: Pool, a: Action, id: SlotId)
    requires Shape(p) && Enabled(p, a) && id in p.slots
    requires a.TakeNumber? || a.StoreSeq? || a.StoreId? || a.RecordOk? || a.RecordFails? || a.Publish?
    ensures id in Apply(p, a).slots && Apply(p, a).slots[id].generation ==
            p.slots[id].generation + (if a.TakeNumber? && Owns(p, a.t, id) then 1 else 0)
  {}

  lemma OtherGeneration(p: Pool, a: Action, id: SlotId)
    requires Inv(p) && Enabled(p, a) && !OfSubmitter(a) && id in p.slots
    ensures id in Apply(p, a).slots && Apply(p, a).slots[id].generation == p.slots[id].generation
  {
    if a.Examine? || a.Report? || a.Release? { PollerGeneration(p, a, id); } else { RestLeavesSlots(p, a); }
  }

  lemma PollerGeneration(p: Pool, a: Action, id: SlotId)
    requires Inv(p) && Enabled(p, a) && (a.Examine? || a.Report? || a.Release?) && id in p.slots
    ensures id in Apply(p, a).slots && Apply(p, a).slots[id].generation == p.slots[id].generation
  {
    assert PollOk(p, a.q);
  }

  /** Steps that touch no slot. */
  lemma RestLeavesSlots(p: Pool, a: Action)
    requires Shape(p) && Enabled(p, a) && !OfSubmitter(a) && !a.Examine? && !a.Report? && !a.Release?
    ensures Apply(p, a).slots == p.slots
  {
    if a.Enter? || a.Advance? || a.Leave? { FlagSteps(p, a, a.q); }
    else if a.LoadGen? || a.Query? { AskingLeavesSlots(p, a); }
    else { WorldLeavesSlots(p, a); }
  }

  lemma AskingLeavesSlots(p: Pool, a: Action)
    requires Shape(p) && Enabled(p, a) && (a.LoadGen? || a.Query?)
    ensures Apply(p, a).slots == p.slots
  {}

  lemma WorldLeavesSlots(p: Pool, a: Action)
    requires Shape(p) && Enabled(p, a) && (a.DeviceCompletes? || a.HostRecords?)
    ensures Apply(p, a).slots == p.slots
  {}

  /** The generations that a run hands to submitters of slot `id`, in order. */
  ghost function GivenOut(p: Pool, acts: seq<Action>, id: SlotId): (gens: seq<nat>)
    requires IsRun(p, acts)
    decreases |acts|
  {
    if acts == [] then []
    else
      var p1 := Apply(p, acts[0]);
      Gives(p, acts[0], id) + GivenOut(p1, acts[1..], id)
  }

  /** What one step gives to the owner of the slot. */
  ghost function Gives(p: Pool, a: Action, id: SlotId): seq<nat>
    requires Shape(p) && Enabled(p, a)
  {
    if a.TakeNumber? && Owns(p, a.t, id) then [DoTakeNumber(p, a.t).subs[a.t].gen] else []
  }

  lemma StepGivesOut(p: Pool, a: Action, id: SlotId)
    requires Inv(p) && Enabled(p, a) && id in p.slots
    ensures id in Apply(p, a).slots
    ensures Apply(p, a).slots[id].generation == p.slots[id].generation + |Gives(p, a, id)|
    ensures Gives(p, a, id) != [] ==> Gives(p, a, id) == [p.slots[id].generation + 1]
  {
    GenerationsRiseByOne(p, a, id);
  }

  lemma {:induction false} GivenOutFrom(p: Pool, acts: seq<Action>, id: SlotId)
    requires Inv(p) && IsRun(p, acts) && id in p.slots
    ensures id in Exec(p, acts).slots
    ensures |GivenOut(p, acts, id)| == Exec(p, acts).slots[id].generation - p.slots[id].generation
    ensures forall i :: 0 <= i < |GivenOut(p, acts, id)| ==> GivenOut(p, acts, id)[i] == p.slots[id].generation + i + 1
    decreases |acts|
  {
    if acts != [] {
      StepKeepsInv(p, acts[0]);
      StepGivesOut(p, acts[0], id);
      GivenOutFrom(Apply(p, acts[0]), acts[1..], id);
    }
  }

  /** Over a whole run a slot's submitters get the generations 1, 2, 3, ... in this order, and the slot's
      generation is how many they got: no generation of a slot is given out twice. */
  lemma GenerationsAreFresh(p0: Pool, acts: seq<Action>, id: SlotId)
    requires Init(p0) && IsRun(p0, acts) && id in p0.slots
    ensures id in Exec(p0, acts).slots && |GivenOut(p0, acts, id)| == Exec(p0, acts).slots[id].generation
    ensures forall i :: 0 <= i < |GivenOut(p0, acts, id)| ==> GivenOut(p0, acts, id)[i] == i + 1
    ensures forall i, j :: 0 <= i < j < |GivenOut(p0, acts, id)| ==> GivenOut(p0, acts, id)[i] != GivenOut(p0, acts, id)[j]
  {
    InitInv(p0);
    GivenOutFrom(p0, acts, id);
  }

  // ---- Confirmations ----

  /** Which reservation a SUBMITTED or DEVICE_CONFIRMED line speaks of: stream, slot and generation. */
  ghost predicate SpeaksOf(p: Pool, i: nat, id: SlotId, gen: nat) {
    i < |p.log| && i < |p.prov| && p.log[i].stream == id.stream && p.log[i].arg1 == gen
    && id.stream in p.queue && p.prov[i] < |p.queue[id.stream]| && p.queue[id.stream][p.prov[i]].index == id.index
  }

  /** One reservation has one recording. */
  lemma OnePlace(p: Pool, i: nat, j: nat, id: SlotId, gen: nat)
    requires Inv(p) && SpeaksOf(p, i, id, gen) && SpeaksOf(p, j, id, gen)
    requires IsSubmitted(p.log[i]) || IsConfirmed(p.log[i])
    requires IsSubmitted(p.log[j]) || IsConfirmed(p.log[j])
    ensures p.prov[i] == p.prov[j]
  {
    assert LineOk(p, i) && LineOk(p, j);
    assert GensRise(p, id.stream, p.prov[i], p.prov[j]) && GensRise(p, id.stream, p.prov[j], p.prov[i]);
  }

  /** Lines `s` and `c` are the one SUBMITTED and the one DEVICE_CONFIRMED line of a reservation. */
  ghost predicate OnlyPair(p: Pool, s: nat, c: nat, id: SlotId) {
    && s < c < |p.log| && IsSubmitted(p.log[s]) && IsConfirmed(p.log[c])
    && p.log[s].corr == p.log[c].corr && p.log[s].arg0 == p.log[c].arg0
    && SpeaksOf(p, c, id, p.log[c].arg1) && SpeaksOf(p, s, id, p.log[c].arg1)
    && (forall s': nat :: SpeaksOf(p, s', id, p.log[c].arg1) && IsSubmitted(p.log[s']) ==> s' == s)
    && (forall c': nat :: SpeaksOf(p, c', id, p.log[c].arg1) && IsConfirmed(p.log[c']) ==> c' == c)
  }

  /** Every DEVICE_CONFIRMED line speaks of one reservation; exactly one SUBMITTED line speaks of the
      same one, it comes earlier and carries the same ids, and no other line confirms it. */
  lemma ConfirmedOnce(p: Pool, c: nat)
    requires Reachable(p) && c < |p.log| && IsConfirmed(p.log[c])
    ensures exists s: nat, id :: OnlyPair(p, s, c, id)
  {
    ReachableInv(p);
    assert LineOk(p, c);
    var st := p.log[c].stream;
    var place := p.prov[c];
    assert RecOk(p, st, place);
    var s := p.queue[st][place].line;
    var id := SlotId(st, p.queue[st][place].index);
    assert LineOk(p, s) && SpeaksOf(p, c, id, p.log[c].arg1) && SpeaksOf(p, s, id, p.log[c].arg1);
    forall s': nat | SpeaksOf(p, s', id, p.log[c].arg1) && IsSubmitted(p.log[s']) ensures s' == s {
      OnePlace(p, s', c, id, p.log[c].arg1);
      assert LineOk(p, s');
    }
    forall c': nat | SpeaksOf(p, c', id, p.log[c].arg1) && IsConfirmed(p.log[c']) ensures c' == c {
      OnePlace(p, c', c, id, p.log[c].arg1);
      assert LineOk(p, c');
    }
    assert OnlyPair(p, s, c, id);
  }

  // ---- Pool accounting ----

  ghost function SubmittedLines(p: Pool, st: nat): set<nat> {
    set i: nat | i < |p.log| && IsSubmitted(p.log[i]) && p.log[i].stream == st
  }

  ghost function ConfirmedLines(p: Pool, st: nat): set<nat> {
    set i: nat | i < |p.log| && IsConfirmed(p.log[i]) && p.log[i].stream == st
  }

  /** The submissions whose recording has no confirmation line. */
  ghost function OpenLines(p: Pool, st: nat): set<nat> {
    set i: nat | i < |p.log| && IsSubmitted(p.log[i]) && p.log[i].stream == st && !Answered(p, i)
  }

  predicate Answered(p: Pool, i: nat)
    requires i < |p.log|
  {
    Describes(p, i) && p.queue[p.log[i].stream][p.prov[i]].conf >= 0
  }

  lemma OpenFitsPool(p: Pool, st: nat)
    requires Inv(p)
    ensures |OpenLines(p, st)| <= p.k
  {
    var f: nat -> nat := (i: nat) =>
      if i < |p.log| && Describes(p, i) then p.queue[p.log[i].stream][p.prov[i]].index else 0;
    var a := OpenLines(p, st);
    forall i: nat | i in a ensures f(i) < p.k && SlotOfLine(p, i) == p.prov[i] {
      assert LineOk(p, i) && RecOk(p, st, p.prov[i]);
    }
    forall i: nat, j: nat | i in a && j in a && f(i) == f(j) ensures i == j {
      assert LineOk(p, i) && LineOk(p, j);
      assert SlotOfLine(p, i) == p.prov[i] && SlotOfLine(p, j) == p.prov[j];
    }
    InjectionBound(a, Below(p.k), f);
  }

  /** The latest recording of the slot that line `i` speaks of. */
  function SlotOfLine(p: Pool, i: nat): int
    requires i < |p.log|
  {
    if Describes(p, i) then
      var id := SlotId(p.log[i].stream, p.queue[p.log[i].stream][p.prov[i]].index);
      if id in p.slots then p.slots[id].rec else -1
    else -1
  }

  lemma AnsweredHaveConfirmations(p: Pool, st: nat)
    requires Inv(p)
    ensures |SubmittedLines(p, st) - OpenLines(p, st)| <= |ConfirmedLines(p, st)|
  {
    var a, b := SubmittedLines(p, st) - OpenLines(p, st), ConfirmedLines(p, st);
    var f: nat -> nat := (i: nat) =>
      if i < |p.log| && Answered(p, i) then p.queue[p.log[i].stream][p.prov[i]].conf else 0;
    forall i: nat | i in a ensures f(i) in b && p.prov[f(i)] == p.prov[i] {
      assert RecOk(p, st, p.prov[i]);
    }
    forall i: nat, j: nat | i in a && j in a && f(i) == f(j) ensures i == j {
      assert LineOk(p, i) && LineOk(p, j);
    }
    InjectionBound(a, b, f);
  }

  /** The SUBMITTED line of the recording that line `c` confirms. */
  function LineOf(p: Pool, c: nat): nat {
    if c < |p.log| && Describes(p, c) && p.queue[p.log[c].stream][p.prov[c]].line >= 0
    then p.queue[p.log[c].stream][p.prov[c]].line else 0
  }

  lemma LineOfConfirmation(p: Pool, st: nat, c: nat)
    requires Inv(p) && c in ConfirmedLines(p, st)
    ensures LineOf(p, c) in SubmittedLines(p, st) - OpenLines(p, st)
    ensures LineOf(p, c) < |p.prov| && c < |p.prov| && p.prov[LineOf(p, c)] == p.prov[c]
  {
    assert LineOk(p, c) && RecOk(p, st, p.prov[c]);
  }

  lemma ConfirmationsAnswer(p: Pool, st: nat)
    requires Inv(p)
    ensures |ConfirmedLines(p, st)| <= |SubmittedLines(p, st) - OpenLines(p, st)|
  {
    var a, b := SubmittedLines(p, st) - OpenLines(p, st), ConfirmedLines(p, st);
    var g: nat -> nat := (c: nat) => LineOf(p, c);
    forall c: nat | c in b ensures g(c) in a && c < |p.prov| && g(c) < |p.prov| && p.prov[g(c)] == p.prov[c] {
      LineOfConfirmation(p, st, c);
    }
    forall c: nat, d: nat | c in b && d in b && g(c) == g(d) ensures c == d {
      assert LineOk(p, c) && LineOk(p, d);
    }
    InjectionBound(b, a, g);
  }

  /** Pool accounting: at every moment and on every stream, the submitted records outnumber the
      confirmed ones by exactly the open submissions, and these never exceed slots_per_stream. */
  lemma PoolAccounting(p: Pool, st: nat)
    requires Reachable(p)
    ensures |SubmittedLines(p, st)| == |ConfirmedLines(p, st)| + |OpenLines(p, st)|
    ensures |SubmittedLines(p, st)| - |ConfirmedLines(p, st)| <= p.k
  {
    ReachableInv(p);
    OpenFitsPool(p, st);
    AnsweredHaveConfirmations(p, st);
    ConfirmationsAnswer(p, st);
    assert OpenLines(p, st) <= SubmittedLines(p, st);
    assert SubmittedLines(p, st) == (SubmittedLines(p, st) - OpenLines(p, st)) + OpenLines(p, st);
  }

  // ---- Quiet polling ----

  /** Pollers and the device move, and the backend never answers complete. */
  predicate Quiet(a: Action) {
    (OfPoller(a) && (a.Query? ==> a.rc != 1)) || a.DeviceCompletes?
  }

  ghost predicate AllQuiet(acts: seq<Action>) {
    forall i :: 0 <= i < |acts| ==> Quiet(acts[i])
  }

  predicate NotAnswered(x: Poller) {
    (x.at.Answered? || x.at.Told?) ==> x.at.rc != 1
  }

  /** No poller is on its way to report a completion. */
  ghost predicate NoAnswerUnderway(p: Pool) {
    forall q :: 0 <= q < |p.polls| ==> NotAnswered(p.polls[q])
  }

  predicate OnDevice(s: Slot) {
    s.phase == PENDING || s.phase == QUERYING
  }

  /** Slots whose current generation has not been reported not-ready (in error) yet. */
  ghost function NotReadyOwed(slots: map<SlotId, Slot>): set<SlotId> {
    set id | id in slots && OnDevice(slots[id]) && slots[id].notReadyGen != slots[id].generation
  }

  ghost function ErrorOwed(slots: map<SlotId, Slot>): set<SlotId> {
    set id | id in slots && OnDevice(slots[id]) && slots[id].errorGen != slots[id].generation
  }

  ghost function PendingSlots(slots: map<SlotId, Slot>): set<SlotId> {
    set id | id in slots && OnDevice(slots[id])
  }

  /** The log plus what may still be reported once: constant while quiet. */
  ghost function Budget(p: Pool): nat {
    |p.log| + |NotReadyOwed(p.slots)| + |ErrorOwed(p.slots)|
  }

  lemma OwedAfterReport(p: Pool, p': Pool, id: SlotId, notReady: bool)
    requires id in p.slots && p.slots[id].phase == QUERYING
    requires var s := p.slots[id];
      && p'.slots == p.slots[id := if notReady then s.(notReadyGen := s.generation) else s.(errorGen := s.generation)]
      && |p'.log| == |p.log| + (if (if notReady then s.notReadyGen else s.errorGen) != s.generation then 1 else 0)
    ensures PendingSlots(p'.slots) == PendingSlots(p.slots) && Budget(p') == Budget(p)
  {
    if notReady {
      assert NotReadyOwed(p'.slots) == NotReadyOwed(p.slots) - {id};
      assert ErrorOwed(p'.slots) == ErrorOwed(p.slots);
    } else {
      assert ErrorOwed(p'.slots) == ErrorOwed(p.slots) - {id};
      assert NotReadyOwed(p'.slots) == NotReadyOwed(p.slots);
    }
  }

  lemma QuietReport(p: Pool, q: nat)
    requires Inv(p) && Enabled(p, Report(q)) && NoAnswerUnderway(p)
    ensures NoAnswerUnderway(DoReportOther(p, q)) && PendingSlots(DoReportOther(p, q).slots) == PendingSlots(p.slots)
    ensures Budget(DoReportOther(p, q)) == Budget(p) && |DoReportOther(p, q).log| >= |p.log|
  {
    assert PollOk(p, q);
    OwedAfterReport(p, DoReportOther(p, q), p.polls[q].at.id, p.polls[q].at.rc == 0);
  }

  /** A slot taken for a query or returned to pending stays on the device. */
  lemma OwedUnmoved(p: Pool, p': Pool, id: SlotId, phase: Phase)
    requires id in p.slots && OnDevice(p.slots[id]) && (phase == PENDING || phase == QUERYING)
    requires p'.slots == p.slots || p'.slots == p.slots[id := p.slots[id].(phase := phase)]
    requires p'.log == p.log
    ensures PendingSlots(p'.slots) == PendingSlots(p.slots) && Budget(p') == Budget(p)
  {
    assert NotReadyOwed(p'.slots) == NotReadyOwed(p.slots) && ErrorOwed(p'.slots) == ErrorOwed(p.slots);
  }

  lemma QuietExamine(p: Pool, q: nat)
    requires Inv(p) && Enabled(p, Examine(q)) && NoAnswerUnderway(p)
    ensures NoAnswerUnderway(DoExamine(p, q)) && PendingSlots(DoExamine(p, q).slots) == PendingSlots(p.slots)
    ensures Budget(DoExamine(p, q)) == Budget(p) && DoExamine(p, q).log == p.log
  {
    if p.slots[Target(p, q)].phase == PENDING { OwedUnmoved(p, DoExamine(p, q), Target(p, q), QUERYING); }
  }

  lemma QuietRelease(p: Pool, q: nat)
    requires Inv(p) && Enabled(p, Release(q)) && NoAnswerUnderway(p)
    ensures NoAnswerUnderway(DoRelease(p, q)) && PendingSlots(DoRelease(p, q).slots) == PendingSlots(p.slots)
    ensures Budget(DoRelease(p, q)) == Budget(p) && DoRelease(p, q).log == p.log
  {
    assert PollOk(p, q);
    OwedUnmoved(p, DoRelease(p, q), p.polls[q].at.id, PENDING);
  }

  /** A step that leaves slots and log alone and moves at most poller `q`, not to a completion. */
  predicate Harmless(p: Pool, p': Pool, q: nat) {
    && p'.slots == p.slots && p'.log == p.log && |p'.polls| == |p.polls|
    && (p'.polls == p.polls || (q < |p.polls| && NotAnswered(p'.polls[q]) && p'.polls == p.polls[q := p'.polls[q]]))
  }

  lemma HarmlessIsQuiet(p: Pool, p': Pool, q: nat)
    requires NoAnswerUnderway(p) && Harmless(p, p', q)
    ensures NoAnswerUnderway(p') && PendingSlots(p'.slots) == PendingSlots(p.slots)
    ensures Budget(p') == Budget(p) && |p'.log| >= |p.log|
  {}

  lemma EntersHarmless(p: Pool, q: nat, budget: nat)
    requires Shape(p) && Enabled(p, Enter(q, budget))
    ensures Harmless(p, DoEnter(p, q, budget), q)
  {}

  lemma AdvanceHarmless(p: Pool, q: nat)
    requires Shape(p) && Enabled(p, Advance(q))
    ensures Harmless(p, DoAdvance(p, q), q)
  {
    AdvanceWalks(p, q);
  }

  lemma LeaveHarmless(p: Pool, q: nat)
    requires Shape(p) && Enabled(p, Leave(q))
    ensures Harmless(p, DoLeave(p, q), q)
  {}

  lemma FlagSteps(p: Pool, a: Action, q: nat)
    requires Shape(p) && Enabled(p, a) && (a.Enter? || a.Advance? || a.Leave?) && a.q == q
    ensures Harmless(p, Apply(p, a), q)
  {
    if a.Enter? { EntersHarmless(p, q, a.budget); } else if a.Advance? { AdvanceHarmless(p, q); } else { LeaveHarmless(p, q); }
  }

  lemma QuerySteps(p: Pool, a: Action, q: nat)
    requires Shape(p) && Enabled(p, a) && (a.LoadGen? || (a.Query? && a.rc != 1)) && a.q == q
    ensures Harmless(p, Apply(p, a), q)
  {}

  lemma QuietStep(p: Pool, a: Action)
    requires Inv(p) && Enabled(p, a) && Quiet(a) && NoAnswerUnderway(p)
    ensures var p' := Apply(p, a);
      NoAnswerUnderway(p') && PendingSlots(p'.slots) == PendingSlots(p.slots)
      && Budget(p') == Budget(p) && |p'.log| >= |p.log|
  {
    match a
    case Report(q) => QuietReport(p, q);
    case Examine(q) => QuietExamine(p, q);
    case Release(q) => QuietRelease(p, q);
    case DeviceCompletes(st) => HarmlessIsQuiet(p, DoDevice(p, st), 0);
    case LoadGen(q) => QuerySteps(p, a, q); HarmlessIsQuiet(p, Apply(p, a), q);
    case Query(q, _) => QuerySteps(p, a, q); HarmlessIsQuiet(p, Apply(p, a), q);
    case Enter(q, _) => FlagSteps(p, a, q); HarmlessIsQuiet(p, Apply(p, a), q);
    case Advance(q) => FlagSteps(p, a, q); HarmlessIsQuiet(p, Apply(p, a), q);
    case Leave(q) => FlagSteps(p, a, q); HarmlessIsQuiet(p, Apply(p, a), q);
  }

  lemma {:induction false} QuietRun(p: Pool, acts: seq<Action>)
    requires Inv(p) && NoAnswerUnderway(p) && IsRun(p, acts) && AllQuiet(acts)
    ensures Inv(Exec(p, acts)) && Budget(Exec(p, acts)) == Budget(p)
    ensures PendingSlots(Exec(p, acts).slots) == PendingSlots(p.slots) && |Exec(p, acts).log| >= |p.log|
    decreases |acts|
  {
    if acts != [] {
      StepKeepsInv(p, acts[0]);
      assert Quiet(acts[0]);
      QuietStep(p, acts[0]);
      QuietRun(Apply(p, acts[0]), acts[1..]);
    }
  }

  /** During a hang, polling goes quiet: however many polls run while nothing is submitted and the
      backend never answers complete, they append exactly the reports that are no longer owed, so at
      most two lines per slot on the device, and nothing once none is owed. */
  lemma QuietPolling(p: Pool, acts: seq<Action>)
    requires Reachable(p) && NoAnswerUnderway(p) && IsRun(p, acts) && AllQuiet(acts)
    ensures var p' := Exec(p, acts);
      && |p'.log| + |NotReadyOwed(p'.slots)| + |ErrorOwed(p'.slots)| == |p.log| + |NotReadyOwed(p.slots)| + |ErrorOwed(p.slots)|
      && |p'.log| - |p.log| <= 2 * |PendingSlots(p.slots)|
      && (NotReadyOwed(p.slots) == {} && ErrorOwed(p.slots) == {} ==> |p'.log| == |p.log|)
  {
    ReachableInv(p);
    QuietRun(p, acts);
    SubsetCard(NotReadyOwed(p.slots), PendingSlots(p.slots));
    SubsetCard(ErrorOwed(p.slots), PendingSlots(p.slots));
  }
}
