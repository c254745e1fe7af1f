/** From the pool to the report: when does a checkpoint the analyzer calls confirmed really lie behind
    the device's progress? */
module Watermark {
  import opened Records
  import opened FlightEvents
  import opened CheckpointPool
  import opened PoolInvariant
  import opened PoolFrames
  import opened PoolTheorems
  import opened Progress

  // ---- The guard ----

  /** Two recordings that one confirmation tuple would match. */
  predicate SameTuple(a: Recording, b: Recording) {
    a.sseq == b.sseq && a.cid == b.cid && a.gen == b.gen
  }

  /** Submitter `t`, about to record, records behind logged recordings only, and none of them carries its
      submitted_seq, checkpoint_id and generation. */
  ghost predicate RecordGuard(p: Pool, t: nat)
    requires Shape(p) && Enabled(p, RecordOk(t))
  {
    var me := p.subs[t];
    forall j :: 0 <= j < |p.queue[me.stream]| ==> Behind(me, p.queue[me.stream][j])
  }

  predicate Behind(me: Submitter, r: Recording)
    requires me.Owning?
  {
    r.line >= 0 && !(r.sseq == me.sseq && r.cid == me.cid && r.gen == me.gen)
  }

  ghost predicate Guarded(p: Pool, a: Action)
    requires Shape(p) && Enabled(p, a)
  {
    a.RecordOk? ==> RecordGuard(p, a.t)
  }

  ghost predicate IsGuardedRun(p: Pool, acts: seq<Action>)
    decreases |acts|
  {
    acts == [] ||
    (Shape(p) && Enabled(p, acts[0]) && Guarded(p, acts[0]) && IsGuardedRun(Apply(p, acts[0]), acts[1..]))
  }

  // ---- What guarded steps keep ----

  /** Recordings of one stream carry different tuples and are logged in queue order. */
  predicate InOrder(p: Pool, st: nat, i: nat, j: nat) {
    st in p.queue && i < j < |p.queue[st]| ==>
      && p.queue[st][i].line >= 0
      && (p.queue[st][j].line >= 0 ==> p.queue[st][i].line < p.queue[st][j].line)
      && !SameTuple(p.queue[st][i], p.queue[st][j])
  }

  ghost predicate Ordered(p: Pool) {
    forall st, i, j :: InOrder(p, st, i, j)
  }

  lemma RecordKeepsOrder(p: Pool, t: nat)
    requires Inv(p) && Ordered(p) && Enabled(p, RecordOk(t)) && RecordGuard(p, t)
    ensures Ordered(DoRecordOk(p, t))
  {
    var p', me := DoRecordOk(p, t), p.subs[t];
    forall st, i: nat, j: nat ensures InOrder(p', st, i, j) {
      assert InOrder(p, st, i, j);
      if st == me.stream && i < |p.queue[st]| { assert Behind(me, p.queue[st][i]); }
    }
  }

  lemma LogKeepsOrder(p: Pool, t: nat)
    requires Inv(p) && Ordered(p) && Enabled(p, LogSubmitted(t))
    ensures Ordered(DoLogSubmitted(p, t))
  {
    var p' := DoLogSubmitted(p, t);
    assert SubOk(p, t) && SlotOk(p, OwnId(p.subs[t]));
    forall st, i: nat, j: nat ensures InOrder(p', st, i, j) {
      assert InOrder(p, st, i, j) && RecOk(p, st, i);
    }
  }

  lemma SameRecordingsKeepOrder(p: Pool, p': Pool)
    requires Ordered(p) && SameRecordings(p, p')
    ensures Ordered(p')
  {
    forall st, i: nat, j: nat ensures InOrder(p', st, i, j) { assert InOrder(p, st, i, j); }
  }

  lemma StepKeepsOrder(p: Pool, a: Action)
    requires Inv(p) && Ordered(p) && Enabled(p, a) && Guarded(p, a)
    ensures Ordered(Apply(p, a))
  {
    if a.RecordOk? {
      RecordKeepsOrder(p, a.t);
    } else if a.LogSubmitted? {
      LogKeepsOrder(p, a.t);
    } else {
      OtherSteps(p, a);
      SameRecordingsKeepOrder(p, Apply(p, a));
    }
  }

  lemma {:induction false} GuardedKeeps(p: Pool, acts: seq<Action>)
    requires Inv(p) && Ordered(p) && IsGuardedRun(p, acts)
    ensures IsRun(p, acts) && Inv(Exec(p, acts)) && Ordered(Exec(p, acts))
    decreases |acts|
  {
    if acts != [] {
      StepKeepsInv(p, acts[0]);
      StepKeepsOrder(p, acts[0]);
      GuardedKeeps(Apply(p, acts[0]), acts[1..]);
    }
  }

  // ---- Reports over retained logs ----

  /** `evs` is what some retained window of the log yields: numbered lines of the log in order, any of
      them missing. */
  ghost predicate Retained(p: Pool, evs: seq<Event>) {
    && Increasing(evs)
    && forall e :: e in evs ==> 1 <= e.seqno <= |p.log| && e.body.call == p.log[e.seqno - 1]
  }

  /** The recording that a SUBMITTED line speaks of has completed on the device. */
  predicate CompletedOnDevice(p: Pool, e: Event)
  {
    1 <= e.seqno <= |p.log| && Describes(p, e.seqno - 1) && p.log[e.seqno - 1].stream in p.done
    && p.prov[e.seqno - 1] < p.done[p.log[e.seqno - 1].stream]
  }

  /** A confirmation that matches a retained submission was answered for that very recording. */
  lemma ExactIsComplete(p: Pool, evs: seq<Event>, e: Event, st: nat)
    requires Inv(p) && Ordered(p) && Retained(p, evs)
    requires e in evs && SubmittedOn(e, st) && Confirmation(evs, KeyOf(e)).Some?
    ensures CompletedOnDevice(p, e)
  {
    ConfirmationMeaning(evs, KeyOf(e));
    var i :| 0 <= i < |evs| && Confirms(evs[i]) && KeyOf(evs[i]) == KeyOf(e);
    assert evs[i] in evs;
    var s, c := e.seqno - 1, evs[i].seqno - 1;
    assert LineOk(p, s) && LineOk(p, c);
    var a, b := p.prov[s], p.prov[c];
    assert InOrder(p, st, a, b) && InOrder(p, st, b, a);
    assert RecOk(p, st, b);
  }

  /** Retained submissions of one stream stand on its queue in the order of their lines. */
  lemma LinesFollowQueue(p: Pool, e: Event, f: Event, st: nat)
    requires Inv(p) && Ordered(p)
    requires 1 <= e.seqno <= f.seqno <= |p.log|
    requires e.body.call == p.log[e.seqno - 1] && f.body.call == p.log[f.seqno - 1]
    requires SubmittedOn(e, st) && SubmittedOn(f, st) && CompletedOnDevice(p, f)
    ensures CompletedOnDevice(p, e)
  {
    var i, j := e.seqno - 1, f.seqno - 1;
    assert LineOk(p, i) && LineOk(p, j);
    assert InOrder(p, st, p.prov[j], p.prov[i]);
  }

  lemma ConfirmedIsComplete(p: Pool, evs: seq<Event>, st: nat, i: nat)
    requires Inv(p) && Ordered(p) && Retained(p, evs)
    requires i < |Checkpoints(evs, st)| && ProgressOf(evs, st).mappings[i].status != Unconfirmed
    ensures CompletedOnDevice(p, Checkpoints(evs, st)[i])
  {
    var e := Checkpoints(evs, st)[i];
    var f := ConfirmedBehindExact(evs, st, i);
    ExactIsComplete(p, evs, f, st);
    LinesFollowQueue(p, e, f, st);
  }

  // ---- Truthful reports ----

  /** What the report says of checkpoint `i` of stream `st` is true of the device. */
  ghost predicate ConfirmedIsTrue(p: Pool, evs: seq<Event>, st: nat, i: nat) {
    i < |Checkpoints(evs, st)| && ProgressOf(evs, st).mappings[i].status != Unconfirmed ==>
      CompletedOnDevice(p, Checkpoints(evs, st)[i])
  }

  /** For every retained window of the log, each checkpoint the report marks confirmed, exactly or by a
      later checkpoint, has completed on the device. */
  ghost predicate Truthful(p: Pool) {
    forall evs, st, i :: Retained(p, evs) ==> ConfirmedIsTrue(p, evs, st, i)
  }

  lemma OrderedIsTruthful(p: Pool)
    requires Inv(p) && Ordered(p)
    ensures Truthful(p)
  {
    forall evs, st, i: nat | Retained(p, evs) ensures ConfirmedIsTrue(p, evs, st, i) {
      if i < |Checkpoints(evs, st)| && ProgressOf(evs, st).mappings[i].status != Unconfirmed {
        ConfirmedIsComplete(p, evs, st, i);
      }
    }
  }

  /** Watermark soundness: whatever the interleaving, a run in which every recording meets the guard has
      truthful reports at every moment. */
  lemma WatermarkSound(p0: Pool, acts: seq<Action>)
    requires Init(p0) && IsGuardedRun(p0, acts)
    ensures IsRun(p0, acts) && Truthful(Exec(p0, acts))
  {
    InitInv(p0);
    GuardedKeeps(p0, acts);
    OrderedIsTruthful(Exec(p0, acts));
  }

  // ---- How much stays unconfirmed ----

  /** Nothing of the log is missing from the parsed events. */
  ghost predicate WholeLog(p: Pool, evs: seq<Event>) {
    |evs| == |p.log| && forall i :: 0 <= i < |evs| ==> evs[i].seqno == i + 1 && evs[i].body.call == p.log[i]
  }

  lemma AnsweredIsConfirmed(p: Pool, evs: seq<Event>, st: nat, e: Event)
    requires Inv(p) && WholeLog(p, evs) && e in evs && SubmittedOn(e, st)
    requires 1 <= e.seqno <= |p.log| && PoolTheorems.Answered(p, e.seqno - 1)
    ensures Confirmation(evs, KeyOf(e)).Some?
  {
    var i := e.seqno - 1;
    assert LineOk(p, i) && RecOk(p, st, p.prov[i]);
    var c := p.queue[st][p.prov[i]].conf;
    assert Confirms(evs[c]) && KeyOf(evs[c]) == KeyOf(e);
    ConfirmationMeaning(evs, KeyOf(e));
  }

  lemma UnconfirmedIsOpen(p: Pool, evs: seq<Event>, st: nat, e: Event)
    requires Inv(p) && WholeLog(p, evs) && e in evs && SubmittedOn(e, st) && Confirmation(evs, KeyOf(e)).None?
    ensures 1 <= e.seqno <= |p.log| && e.seqno - 1 in OpenLines(p, st)
  {
    if PoolTheorems.Answered(p, e.seqno - 1) { AnsweredIsConfirmed(p, evs, st, e); }
  }

  /** A run of `n - from` different members. */
  lemma {:induction false} RangeFits(from: nat, n: nat, line: seq<nat>, b: set<nat>)
    requires from <= n <= |line|
    requires forall i :: from <= i < n ==> line[i] in b
    requires forall i, j :: from <= i < j < n ==> line[i] != line[j]
    ensures n - from <= |b|
    decreases n
  {
    if from < n { RangeFits(from, n - 1, line, b - {line[n - 1]}); }
  }

  lemma UnconfirmedLine(p: Pool, evs: seq<Event>, st: nat, i: nat)
    requires Reachable(p) && WholeLog(p, evs) && ConfirmedIndex(evs, st) < i < |Checkpoints(evs, st)|
    ensures var e := Checkpoints(evs, st)[i]; 1 <= e.seqno && e.seqno - 1 in OpenLines(p, st)
  {
    var cps := Checkpoints(evs, st);
    LastConfirmedBounds(cps, evs, |cps|);
    SortMembers(Submissions(evs, st));
    SubmissionMembers(evs, st);
    assert cps[i] in cps;
    ReachableInv(p);
    UnconfirmedIsOpen(p, evs, st, cps[i]);
  }

  lemma OpenCount(cps: seq<Event>, from: nat, open: set<nat>)
    requires Increasing(cps) && from <= |cps|
    requires forall i :: from <= i < |cps| ==> cps[i].seqno >= 1 && cps[i].seqno - 1 in open
    ensures |cps| - from <= |open|
  {
    var line := seq(|cps|, (i: nat) requires i < |cps| => if cps[i].seqno == 0 then 0 else cps[i].seqno - 1);
    RangeFits(from, |cps|, line, open);
  }

  lemma OpenIsBounded(p: Pool, st: nat)
    requires Reachable(p)
    ensures |OpenLines(p, st)| <= p.k
  {
    ReachableInv(p);
    OpenFitsPool(p, st);
  }

  lemma UnconfirmedAreOpen(p: Pool, evs: seq<Event>, st: nat)
    requires Reachable(p) && WholeLog(p, evs)
    ensures Increasing(Checkpoints(evs, st)) && -1 <= ConfirmedIndex(evs, st) < |Checkpoints(evs, st)|
    ensures forall i :: ConfirmedIndex(evs, st) < i < |Checkpoints(evs, st)| ==>
      Checkpoints(evs, st)[i].seqno >= 1 && Checkpoints(evs, st)[i].seqno - 1 in OpenLines(p, st)
  {
    CheckpointsAreSubmissions(evs, st);
    LastConfirmedBounds(Checkpoints(evs, st), evs, |Checkpoints(evs, st)|);
    forall i | ConfirmedIndex(evs, st) < i < |Checkpoints(evs, st)|
      ensures Checkpoints(evs, st)[i].seqno >= 1 && Checkpoints(evs, st)[i].seqno - 1 in OpenLines(p, st)
    {
      UnconfirmedLine(p, evs, st, i);
    }
  }

  lemma FewUnconfirmed(p: Pool, evs: seq<Event>, st: nat)
    requires Reachable(p) && WholeLog(p, evs)
    ensures |Checkpoints(evs, st)| - (ConfirmedIndex(evs, st) + 1) <= p.k
  {
    UnconfirmedAreOpen(p, evs, st);
    OpenCount(Checkpoints(evs, st), ConfirmedIndex(evs, st) + 1, OpenLines(p, st));
    OpenIsBounded(p, st);
  }

  /** On a complete log no stream ever shows more unconfirmed checkpoints than slots_per_stream, whatever
      the interleaving and the callers' numbers. */
  lemma UnconfirmedFitsPool(p: Pool, evs: seq<Event>, st: nat)
    requires Reachable(p) && WholeLog(p, evs) && Checkpoints(evs, st) != []
    ensures ProgressOf(evs, st).unconfirmedCount <= p.k
  {
    StatusesSplit(evs, st);
    FewUnconfirmed(p, evs, st);
  }
}
