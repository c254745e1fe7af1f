/** Two ways for callers to meet the recording guard without looking at the pool: take turns on a stream
    and do not reuse a number under the same id, or use one slot per stream. */
module Discipline {
  import opened CheckpointPool
  import opened PoolInvariant
  import opened PoolFrames
  import opened PoolTheorems
  import opened Watermark

  predicate ActiveOn(p: Pool, t: nat, st: nat) {
    t < |p.subs| && !p.subs[t].Idle? && p.subs[t].stream == st
  }

  predicate NewPair(q: seq<Recording>, sseq: nat, cid: nat) {
    forall j :: 0 <= j < |q| ==> !(q[j].sseq == sseq && q[j].cid == cid)
  }

  /** Submissions on one stream do not overlap, and a submitted_seq already recorded on the stream is not
      submitted there again under the same checkpoint_id. A submission that failed or met a full pool may
      be retried. */
  ghost predicate Disciplined(p: Pool, a: Action)
    requires Shape(p) && Enabled(p, a)
  {
    a.Begin? ==> (forall t :: !ActiveOn(p, t, a.stream)) && NewPair(p.queue[a.stream], a.sseq, a.cid)
  }

  ghost predicate IsDisciplinedRun(p: Pool, acts: seq<Action>)
    decreases |acts|
  {
    acts == [] ||
    (Shape(p) && Enabled(p, acts[0]) && Disciplined(p, acts[0]) && IsDisciplinedRun(Apply(p, acts[0]), acts[1..]))
  }

  // ---- What disciplined steps keep ----

  predicate OneActive(p: Pool, t: nat, u: nat) {
    t < |p.subs| && u < |p.subs| && !p.subs[t].Idle? && !p.subs[u].Idle? && p.subs[t].stream == p.subs[u].stream ==>
      t == u
  }

  predicate PastRecord(s: Submitter) {
    s.Owning? && (s.stage == Recorded || s.stage == Logged)
  }

  /** Until its event is recorded, a submission's pair is new to its stream. */
  predicate Unused(p: Pool, t: nat) {
    t < |p.subs| && !p.subs[t].Idle? && !PastRecord(p.subs[t]) ==>
      p.subs[t].stream in p.queue && NewPair(p.queue[p.subs[t].stream], p.subs[t].sseq, p.subs[t].cid)
  }

  ghost predicate InTurn(p: Pool) {
    (forall t, u :: OneActive(p, t, u)) && (forall t :: Unused(p, t))
  }

  predicate SamePairs(q: seq<Recording>, q': seq<Recording>) {
    |q'| == |q| && forall j :: 0 <= j < |q| ==> q'[j].sseq == q[j].sseq && q'[j].cid == q[j].cid
  }

  /** The submitter goes on with the submission it had, or has none. */
  predicate SameErrand(s: Submitter, s': Submitter) {
    s'.Idle? ||
    (!s.Idle? && s'.stream == s.stream && s'.sseq == s.sseq && s'.cid == s.cid && (PastRecord(s) ==> PastRecord(s')))
  }

  /** Every submitter goes on with its submission, or ends it. */
  predicate AllGoOn(subs: seq<Submitter>, subs': seq<Submitter>) {
    |subs'| == |subs| && forall t :: 0 <= t < |subs| ==> SameErrand(subs[t], subs'[t])
  }

  lemma GoesOn(p: Pool, p': Pool)
    requires InTurn(p) && AllGoOn(p.subs, p'.subs)
    requires forall st :: st in p.queue ==> st in p'.queue && SamePairs(p.queue[st], p'.queue[st])
    ensures InTurn(p')
  {
    forall t: nat, u: nat ensures OneActive(p', t, u) { assert OneActive(p, t, u); }
    forall t: nat ensures Unused(p', t) { assert Unused(p, t); }
  }

  lemma BeginInTurn(p: Pool, t: nat, st: nat, sseq: nat, cid: nat)
    requires Shape(p) && InTurn(p) && Enabled(p, Begin(t, st, sseq, cid)) && Disciplined(p, Begin(t, st, sseq, cid))
    ensures InTurn(DoBegin(p, t, st, sseq, cid))
  {
    var p' := DoBegin(p, t, st, sseq, cid);
    forall u: nat, v: nat ensures OneActive(p', u, v) {
      assert OneActive(p, u, v) && !ActiveOn(p, u, st) && !ActiveOn(p, v, st);
    }
    forall u: nat ensures Unused(p', u) { assert Unused(p, u); }
  }

  lemma RecordInTurn(p: Pool, t: nat)
    requires Shape(p) && InTurn(p) && Enabled(p, RecordOk(t))
    ensures InTurn(DoRecordOk(p, t))
  {
    var p' := DoRecordOk(p, t);
    forall u: nat, v: nat ensures OneActive(p', u, v) { assert OneActive(p, u, v); }
    forall u: nat ensures Unused(p', u) { assert Unused(p, u) && OneActive(p, t, u); }
  }

  lemma ScanErrand(p: Pool, a: Action)
    requires Shape(p) && Enabled(p, a) && (a.Try? || a.GiveUp?)
    ensures AllGoOn(p.subs, Apply(p, a).subs)
  {}

  lemma StoreErrand(p: Pool, a: Action)
    requires Shape(p) && Enabled(p, a) && (a.TakeNumber? || a.StoreSeq? || a.StoreId?)
    ensures AllGoOn(p.subs, Apply(p, a).subs)
  {}

  lemma LastErrand(p: Pool, a: Action)
    requires Shape(p) && Enabled(p, a) && (a.RecordFails? || a.LogSubmitted? || a.Publish?)
    ensures AllGoOn(p.subs, Apply(p, a).subs)
  {}

  lemma EachErrand(p: Pool, a: Action)
    requires Shape(p) && Enabled(p, a) && !a.Begin? && !a.RecordOk?
    ensures AllGoOn(p.subs, Apply(p, a).subs)
  {
    if a.Try? || a.GiveUp? { ScanErrand(p, a); }
    else if a.TakeNumber? || a.StoreSeq? || a.StoreId? { StoreErrand(p, a); }
    else if a.RecordFails? || a.LogSubmitted? || a.Publish? { LastErrand(p, a); }
    else if OfPoller(a) { PollerFrame(p, a); }
    else { WorldFrame(p, a); }
  }

  lemma LogKeepsPairs(p: Pool, t: nat)
    requires Shape(p) && Enabled(p, LogSubmitted(t))
    ensures var p' := DoLogSubmitted(p, t);
      forall st :: st in p.queue ==> st in p'.queue && SamePairs(p.queue[st], p'.queue[st])
  {}

  lemma RecordingsKeepPairs(p: Pool, p': Pool)
    requires SameRecordings(p, p')
    ensures forall st :: st in p.queue ==> st in p'.queue && SamePairs(p.queue[st], p'.queue[st])
  {
    forall st | st in p.queue ensures st in p'.queue && SamePairs(p.queue[st], p'.queue[st]) {
      forall j | 0 <= j < |p.queue[st]|
        ensures p'.queue[st][j].sseq == p.queue[st][j].sseq && p'.queue[st][j].cid == p.queue[st][j].cid
      {
        assert SameRecording(p.queue[st][j], p'.queue[st][j]);
      }
    }
  }

  lemma StepInTurn(p: Pool, a: Action)
    requires Shape(p) && InTurn(p) && Enabled(p, a) && Disciplined(p, a)
    ensures InTurn(Apply(p, a))
  {
    if a.Begin? {
      BeginInTurn(p, a.t, a.stream, a.sseq, a.cid);
    } else if a.RecordOk? {
      RecordInTurn(p, a.t);
    } else {
      EachErrand(p, a);
      if a.LogSubmitted? {
        LogKeepsPairs(p, a.t);
      } else {
        OtherSteps(p, a);
        RecordingsKeepPairs(p, Apply(p, a));
      }
      GoesOn(p, Apply(p, a));
    }
  }

  /** A submitter that records in its turn finds every earlier recording of its stream logged. */
  lemma InTurnGuard(p: Pool, t: nat)
    requires Inv(p) && InTurn(p) && Enabled(p, RecordOk(t))
    ensures RecordGuard(p, t)
  {
    var me := p.subs[t];
    assert Unused(p, t);
    forall j | 0 <= j < |p.queue[me.stream]| ensures Behind(me, p.queue[me.stream][j]) {
      assert RecOk(p, me.stream, j);
      var id := SlotId(me.stream, p.queue[me.stream][j].index);
      assert SlotOk(p, id) && OneActive(p, t, p.slots[id].holder);
    }
  }

  lemma {:induction false} DisciplinedIsGuarded(p: Pool, acts: seq<Action>)
    requires Inv(p) && InTurn(p) && IsDisciplinedRun(p, acts)
    ensures IsGuardedRun(p, acts)
    decreases |acts|
  {
    if acts != [] {
      if acts[0].RecordOk? { InTurnGuard(p, acts[0].t); }
      StepKeepsInv(p, acts[0]);
      StepInTurn(p, acts[0]);
      DisciplinedIsGuarded(Apply(p, acts[0]), acts[1..]);
    }
  }

  /** Callers that take turns on each stream and do not reuse a pair always have truthful reports. */
  lemma DisciplinedIsTruthful(p0: Pool, acts: seq<Action>)
    requires Init(p0) && IsDisciplinedRun(p0, acts)
    ensures IsGuardedRun(p0, acts) && IsRun(p0, acts) && Truthful(Exec(p0, acts))
  {
    InitInv(p0);
    assert InTurn(p0);
    DisciplinedIsGuarded(p0, acts);
    WatermarkSound(p0, acts);
  }

  // ---- One slot per stream ----

  /** With one event per stream, each recording has been confirmed before the next is made. */
  lemma OneSlotGuard(p: Pool, t: nat)
    requires Inv(p) && p.k == 1 && Enabled(p, RecordOk(t))
    ensures RecordGuard(p, t)
  {
    var me := p.subs[t];
    assert SubOk(p, t);
    forall j | 0 <= j < |p.queue[me.stream]| ensures Behind(me, p.queue[me.stream][j]) {
      assert RecOk(p, me.stream, j);
      assert HasId(p, SlotId(me.stream, p.queue[me.stream][j].index));
    }
  }

  lemma {:induction false} OneSlotIsGuarded(p: Pool, acts: seq<Action>)
    requires Inv(p) && p.k == 1 && IsRun(p, acts)
    ensures IsGuardedRun(p, acts)
    decreases |acts|
  {
    if acts != [] {
      if acts[0].RecordOk? { OneSlotGuard(p, acts[0].t); }
      StepKeepsInv(p, acts[0]);
      SameStreams(p, acts[0]);
      OneSlotIsGuarded(Apply(p, acts[0]), acts[1..]);
    }
  }

  /** One slot per stream needs no discipline at all. */
  lemma OneSlotIsTruthful(p0: Pool, acts: seq<Action>)
    requires Init(p0) && p0.k == 1 && IsRun(p0, acts)
    ensures IsGuardedRun(p0, acts) && Truthful(Exec(p0, acts))
  {
    InitInv(p0);
    OneSlotIsGuarded(p0, acts);
    WatermarkSound(p0, acts);
  }
}
