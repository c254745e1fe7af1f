/** A submit call that no other step interrupts, as one transition of the pool. */
module SubmitCall {
  import opened FlightEvents
  import opened ScanOrder
  import opened CheckpointPool
  import opened PoolInvariant
  import opened PoolTheorems

  lemma {:induction false} Snoc(p0: Pool, acts: seq<Action>, p: Pool, a: Action)
    requires IsRun(p0, acts) && Exec(p0, acts) == p && Inv(p) && Enabled(p, a)
    ensures IsRun(p0, acts + [a]) && Exec(p0, acts + [a]) == Apply(p, a) && Inv(Apply(p, a))
    decreases |acts|
  {
    StepKeepsInv(p, a);
    if acts == [] {
      assert acts + [a] == [a] && [a][1..] == [];
    } else {
      assert (acts + [a])[1..] == acts[1..] + [a];
      Snoc(Apply(p0, acts[0]), acts[1..], p, a);
    }
  }

  ghost predicate Steps(p: Pool, a: Action, p': Pool) {
    Shape(p) && Enabled(p, a) && Apply(p, a) == p'
  }

  /** One more step at the end of a run. */
  lemma SnocTo(p0: Pool, acts: seq<Action>, p: Pool, a: Action, p': Pool)
    requires IsRun(p0, acts) && Exec(p0, acts) == p && Inv(p) && Steps(p, a, p')
    ensures IsRun(p0, acts + [a]) && Exec(p0, acts + [a]) == p' && Inv(p')
  {
    Snoc(p0, acts, p, a);
  }

  lemma StepsKeep(p: Pool, a: Action, p': Pool)
    requires Inv(p) && Steps(p, a, p')
    ensures Inv(p')
  {
    StepKeepsInv(p, a);
  }

  lemma OneRun(p: Pool, a: Action, p': Pool)
    requires Steps(p, a, p')
    ensures IsRun(p, [a]) && Exec(p, [a]) == p'
  {
    assert [a][1..] == [] && Exec(p', []) == p';
  }

  lemma TwoRun(p: Pool, a: Action, p1: Pool, b: Action, p2: Pool)
    requires Steps(p, a, p1) && Steps(p1, b, p2)
    ensures IsRun(p, [a, b]) && Exec(p, [a, b]) == p2
  {
    OneRun(p1, b, p2);
    assert [a, b][1..] == [b];
  }

  lemma TwoSteps(p: Pool, a: Action, p1: Pool, b: Action, p2: Pool)
    requires Inv(p) && Steps(p, a, p1) && Steps(p1, b, p2)
    ensures IsRun(p, [a, b]) && Exec(p, [a, b]) == p2 && Inv(p2)
  {
    StepsKeep(p, a, p1);
    StepsKeep(p1, b, p2);
    TwoRun(p, a, p1, b, p2);
  }

  lemma {:induction false} RunJoin(p: Pool, a: seq<Action>, b: seq<Action>)
    requires IsRun(p, a) && IsRun(Exec(p, a), b)
    ensures IsRun(p, a + b) && Exec(p, a + b) == Exec(Exec(p, a), b)
    decreases |a|
  {
    if a == [] {
      assert a + b == b;
    } else {
      assert (a + b)[1..] == a[1..] + b;
      RunJoin(Apply(p, a[0]), a[1..], b);
    }
  }

  function ProbedId(p: Pool, st: nat, n: nat): SlotId
    requires p.k >= 1 && st in p.cursors
  {
    SlotId(st, Visit(p.cursors[st], n, p.k, U32))
  }

  /** The call of thread `t` may start: the thread is idle and the arguments pass the checks. */
  ghost predicate MayCall(p: Pool, t: nat, st: nat, sseq: nat) {
    Inv(p) && t < |p.subs| && p.subs[t].Idle? && st in p.ids && sseq != 0
  }

  /** The first `n` probes meet no free slot. */
  ghost predicate NoneFree(p: Pool, st: nat, n: nat)
    requires p.k >= 1 && st in p.cursors
  {
    forall m: nat :: m < n ==> ProbedId(p, st, m) in p.slots && p.slots[ProbedId(p, st, m)].phase != FREE
  }

  function Bumped(p: Pool, st: nat): map<nat, nat>
    requires st in p.cursors
  {
    p.cursors[st := (p.cursors[st] + 1) % U32]
  }

  /** After `n` fruitless probes. */
  function AfterProbes(p: Pool, t: nat, st: nat, sseq: nat, cid: nat, n: nat): Pool
    requires t < |p.subs| && st in p.cursors
  {
    p.(subs := p.subs[t := Scanning(st, sseq, cid, p.cursors[st], n)], cursors := Bumped(p, st))
  }

  /** The steps of one submit call: its beginning, and further steps of the same thread. */
  predicate OneCall(acts: seq<Action>, begin: Action) {
    && acts != [] && acts[0] == begin && begin.Begin?
    && forall i :: 0 < i < |acts| ==> OfSubmitter(acts[i]) && !acts[i].Begin? && acts[i].t == begin.t
  }

  /** `acts` are the steps so far of the call that begins with `begin`, and lead from `p` to `p'`. */
  ghost predicate Calls(p: Pool, acts: seq<Action>, p': Pool, begin: Action) {
    IsRun(p, acts) && Exec(p, acts) == p' && Inv(p') && OneCall(acts, begin)
  }

  lemma BeginGives(p: Pool, t: nat, st: nat, sseq: nat, cid: nat)
    requires Shape(p) && t < |p.subs| && p.subs[t].Idle? && st in p.ids && sseq != 0
    ensures Steps(p, Begin(t, st, sseq, cid), AfterProbes(p, t, st, sseq, cid, 0))
  {}

  lemma ProbeGives(p: Pool, t: nat, st: nat, sseq: nat, cid: nat, n: nat)
    requires t < |p.subs| && st in p.cursors && n < p.k && NoneFree(p, st, n + 1)
    requires Shape(AfterProbes(p, t, st, sseq, cid, n))
    ensures Steps(AfterProbes(p, t, st, sseq, cid, n), Try(t), AfterProbes(p, t, st, sseq, cid, n + 1))
  {
    assert p.slots[ProbedId(p, st, n)].phase != FREE;
  }

  lemma BeginIsRun(p: Pool, t: nat, st: nat, sseq: nat, cid: nat) returns (acts: seq<Action>)
    requires MayCall(p, t, st, sseq)
    ensures Calls(p, acts, AfterProbes(p, t, st, sseq, cid, 0), Begin(t, st, sseq, cid))
  {
    BeginGives(p, t, st, sseq, cid);
    SnocTo(p, [], p, Begin(t, st, sseq, cid), AfterProbes(p, t, st, sseq, cid, 0));
    acts := [] + [Begin(t, st, sseq, cid)];
  }

  lemma ProbeOn(p: Pool, t: nat, st: nat, sseq: nat, cid: nat, n: nat, acts: seq<Action>) returns (all: seq<Action>)
    requires t < |p.subs| && st in p.cursors && n < p.k && NoneFree(p, st, n + 1)
    requires Calls(p, acts, AfterProbes(p, t, st, sseq, cid, n), Begin(t, st, sseq, cid))
    ensures Calls(p, all, AfterProbes(p, t, st, sseq, cid, n + 1), Begin(t, st, sseq, cid))
  {
    ProbeGives(p, t, st, sseq, cid, n);
    all := SnocCall(p, acts, AfterProbes(p, t, st, sseq, cid, n), AfterProbes(p, t, st, sseq, cid, n + 1),
                    Try(t), Begin(t, st, sseq, cid));
  }

  lemma {:induction false} ProbesAreRun(p: Pool, t: nat, st: nat, sseq: nat, cid: nat, n: nat) returns (acts: seq<Action>)
    requires MayCall(p, t, st, sseq) && n <= p.k && NoneFree(p, st, n)
    ensures Calls(p, acts, AfterProbes(p, t, st, sseq, cid, n), Begin(t, st, sseq, cid))
    decreases n
  {
    if n == 0 {
      acts := BeginIsRun(p, t, st, sseq, cid);
    } else {
      acts := ProbesAreRun(p, t, st, sseq, cid, n - 1);
      acts := ProbeOn(p, t, st, sseq, cid, n - 1, acts);
    }
  }

  /** One more step of a call. */
  lemma SnocCall(p: Pool, acts: seq<Action>, p1: Pool, p2: Pool, a: Action, begin: Action) returns (all: seq<Action>)
    requires Calls(p, acts, p1, begin) && Steps(p1, a, p2)
    requires OfSubmitter(a) && !a.Begin? && begin.Begin? && a.t == begin.t
    ensures Calls(p, all, p2, begin)
  {
    all := acts + [a];
    SnocTo(p, acts, p1, a, p2);
    OneCallGrows(acts, a, begin);
  }

  lemma OneCallGrows(acts: seq<Action>, a: Action, begin: Action)
    requires OneCall(acts, begin) && OfSubmitter(a) && !a.Begin? && a.t == begin.t
    ensures OneCall(acts + [a], begin)
  {}

  // ---- A full pool ----

  function AfterFull(p: Pool, st: nat, sseq: nat, cid: nat): Pool
    requires st in p.cursors
  {
    Emit(p, Call(CHECKPOINT, st, cid, sseq, 0, POOL_FULL), 0).(cursors := Bumped(p, st))
  }

  lemma GiveUpGives(p: Pool, t: nat, st: nat, sseq: nat, cid: nat)
    requires t < |p.subs| && p.subs[t].Idle? && st in p.cursors && Shape(AfterProbes(p, t, st, sseq, cid, p.k))
    ensures Steps(AfterProbes(p, t, st, sseq, cid, p.k), GiveUp(t), AfterFull(p, st, sseq, cid))
  {}

  lemma FullIsRun(p: Pool, t: nat, st: nat, sseq: nat, cid: nat) returns (acts: seq<Action>)
    requires MayCall(p, t, st, sseq) && NoneFree(p, st, p.k)
    ensures Calls(p, acts, AfterFull(p, st, sseq, cid), Begin(t, st, sseq, cid))
  {
    acts := ProbesAreRun(p, t, st, sseq, cid, p.k);
    GiveUpGives(p, t, st, sseq, cid);
    acts := SnocCall(p, acts, AfterProbes(p, t, st, sseq, cid, p.k), AfterFull(p, st, sseq, cid),
                     GiveUp(t), Begin(t, st, sseq, cid));
  }

  // ---- A free slot ----

  /** The slot after its owner has stored the submission in it. */
  function Filled(s: Slot, t: nat, sseq: nat, cid: nat): Slot {
    s.(phase := RESERVED, holder := t, generation := s.generation + 1, submittedSeq := sseq, checkpointId := cid)
  }

  /** The pool while thread `t` owns the slot it found at probe `n`. */
  function Owned(p: Pool, t: nat, st: nat, sseq: nat, cid: nat, n: nat, s: Slot, gen: nat, stage: Stage): Pool
    requires t < |p.subs| && p.k >= 1 && st in p.cursors
  {
    var id := ProbedId(p, st, n);
    p.(cursors := Bumped(p, st), slots := p.slots[id := s],
       subs := p.subs[t := Owning(st, sseq, cid, id.index, gen, stage)])
  }

  function AfterStores(p: Pool, t: nat, st: nat, sseq: nat, cid: nat, n: nat): Pool
    requires t < |p.subs| && p.k >= 1 && st in p.cursors && ProbedId(p, st, n) in p.slots
  {
    var s := Filled(p.slots[ProbedId(p, st, n)], t, sseq, cid);
    Owned(p, t, st, sseq, cid, n, s, s.generation, IdStored)
  }

  ghost predicate FoundFree(p: Pool, t: nat, st: nat, sseq: nat, n: nat) {
    MayCall(p, t, st, sseq) && n < p.k && NoneFree(p, st, n)
    && ProbedId(p, st, n) in p.slots && p.slots[ProbedId(p, st, n)].phase == FREE
  }

  /** The pool once thread `t` has won the slot. */
  function AfterTry(p: Pool, t: nat, st: nat, sseq: nat, cid: nat, n: nat): Pool
    requires t < |p.subs| && p.k >= 1 && st in p.cursors && ProbedId(p, st, n) in p.slots
  {
    Owned(p, t, st, sseq, cid, n, p.slots[ProbedId(p, st, n)].(phase := RESERVED, holder := t), 0, Reserved)
  }

  lemma TryGives(p: Pool, t: nat, st: nat, sseq: nat, cid: nat, n: nat)
    requires t < |p.subs| && st in p.cursors && n < p.k && Shape(AfterProbes(p, t, st, sseq, cid, n))
    requires ProbedId(p, st, n) in p.slots && p.slots[ProbedId(p, st, n)].phase == FREE
    ensures Steps(AfterProbes(p, t, st, sseq, cid, n), Try(t), AfterTry(p, t, st, sseq, cid, n))
  {}

  lemma TakenIsRun(p: Pool, t: nat, st: nat, sseq: nat, cid: nat, n: nat) returns (acts: seq<Action>)
    requires FoundFree(p, t, st, sseq, n)
    ensures Calls(p, acts, AfterTry(p, t, st, sseq, cid, n), Begin(t, st, sseq, cid))
  {
    acts := ProbesAreRun(p, t, st, sseq, cid, n);
    TryGives(p, t, st, sseq, cid, n);
    acts := SnocCall(p, acts, AfterProbes(p, t, st, sseq, cid, n), AfterTry(p, t, st, sseq, cid, n),
                     Try(t), Begin(t, st, sseq, cid));
  }

  lemma TakeNumberGives(p: Pool, t: nat, st: nat, sseq: nat, cid: nat, n: nat, s: Slot, gen: nat)
    requires t < |p.subs| && p.k >= 1 && st in p.cursors
    requires Shape(Owned(p, t, st, sseq, cid, n, s, gen, Reserved))
    ensures Steps(Owned(p, t, st, sseq, cid, n, s, gen, Reserved), TakeNumber(t),
                  Owned(p, t, st, sseq, cid, n, s.(generation := s.generation + 1), s.generation + 1, Numbered))
  {}

  lemma StoreSeqGives(p: Pool, t: nat, st: nat, sseq: nat, cid: nat, n: nat, s: Slot, gen: nat)
    requires t < |p.subs| && p.k >= 1 && st in p.cursors
    requires Shape(Owned(p, t, st, sseq, cid, n, s, gen, Numbered))
    ensures Steps(Owned(p, t, st, sseq, cid, n, s, gen, Numbered), StoreSeq(t),
                  Owned(p, t, st, sseq, cid, n, s.(submittedSeq := sseq), gen, SeqStored))
  {}

  lemma StoreIdGives(p: Pool, t: nat, st: nat, sseq: nat, cid: nat, n: nat, s: Slot, gen: nat)
    requires t < |p.subs| && p.k >= 1 && st in p.cursors
    requires Shape(Owned(p, t, st, sseq, cid, n, s, gen, SeqStored))
    ensures Steps(Owned(p, t, st, sseq, cid, n, s, gen, SeqStored), StoreId(t),
                  Owned(p, t, st, sseq, cid, n, s.(checkpointId := cid), gen, IdStored))
  {}

  lemma StoresAreRun(p: Pool, t: nat, st: nat, sseq: nat, cid: nat, n: nat) returns (acts: seq<Action>)
    requires FoundFree(p, t, st, sseq, n)
    ensures Calls(p, acts, AfterStores(p, t, st, sseq, cid, n), Begin(t, st, sseq, cid))
  {
    acts := TakenIsRun(p, t, st, sseq, cid, n);
    acts := StoresFollow(p, t, st, sseq, cid, n, p.slots[ProbedId(p, st, n)].(phase := RESERVED, holder := t), acts);
  }

  /** The three stores of the owner of slot `s`. */
  lemma StoresFollow(p: Pool, t: nat, st: nat, sseq: nat, cid: nat, n: nat, s: Slot, a: seq<Action>) returns (acts: seq<Action>)
    requires t < |p.subs| && p.k >= 1 && st in p.cursors
    requires Calls(p, a, Owned(p, t, st, sseq, cid, n, s, 0, Reserved), Begin(t, st, sseq, cid))
    ensures var s' := s.(generation := s.generation + 1, submittedSeq := sseq, checkpointId := cid);
      Calls(p, acts, Owned(p, t, st, sseq, cid, n, s', s'.generation, IdStored), Begin(t, st, sseq, cid))
  {
    var begin := Begin(t, st, sseq, cid);
    var s1 := s.(generation := s.generation + 1);
    var s2 := s1.(submittedSeq := sseq);
    var g := s1.generation;
    var p1 := Owned(p, t, st, sseq, cid, n, s1, g, Numbered);
    var p2 := Owned(p, t, st, sseq, cid, n, s2, g, SeqStored);
    TakeNumberGives(p, t, st, sseq, cid, n, s, 0);
    acts := SnocCall(p, a, Owned(p, t, st, sseq, cid, n, s, 0, Reserved), p1, TakeNumber(t), begin);
    StoreSeqGives(p, t, st, sseq, cid, n, s1, g);
    acts := SnocCall(p, acts, p1, p2, StoreSeq(t), begin);
    StoreIdGives(p, t, st, sseq, cid, n, s2, g);
    acts := SnocCall(p, acts, p2, Owned(p, t, st, sseq, cid, n, s2.(checkpointId := cid), g, IdStored), StoreId(t), begin);
  }

  /** Recorded on the device, not yet logged. */
  function AfterRecord(p: Pool, t: nat, st: nat, sseq: nat, cid: nat, n: nat): Pool
    requires t < |p.subs| && p.k >= 1 && st in p.cursors && st in p.queue && ProbedId(p, st, n) in p.slots
  {
    var id := ProbedId(p, st, n);
    var q := p.queue[st];
    var s := Filled(p.slots[id], t, sseq, cid).(rec := |q|);
    Owned(p, t, st, sseq, cid, n, s, s.generation, Recorded)
      .(queue := p.queue[st := q + [Recording(id.index, s.generation, sseq, cid, -1, -1)]])
  }

  lemma RecordGives(p: Pool, t: nat, st: nat, sseq: nat, cid: nat, n: nat)
    requires t < |p.subs| && p.k >= 1 && st in p.cursors && st in p.queue && ProbedId(p, st, n) in p.slots
    requires Shape(AfterStores(p, t, st, sseq, cid, n))
    ensures Steps(AfterStores(p, t, st, sseq, cid, n), RecordOk(t), AfterRecord(p, t, st, sseq, cid, n))
  {}

  lemma RecordIsRun(p: Pool, t: nat, st: nat, sseq: nat, cid: nat, n: nat) returns (acts: seq<Action>)
    requires FoundFree(p, t, st, sseq, n)
    ensures Calls(p, acts, AfterRecord(p, t, st, sseq, cid, n), Begin(t, st, sseq, cid))
  {
    acts := StoresAreRun(p, t, st, sseq, cid, n);
    RecordGives(p, t, st, sseq, cid, n);
    acts := SnocCall(p, acts, AfterStores(p, t, st, sseq, cid, n), AfterRecord(p, t, st, sseq, cid, n),
                     RecordOk(t), Begin(t, st, sseq, cid));
  }

  function AfterSubmit(p: Pool, t: nat, st: nat, sseq: nat, cid: nat, n: nat): Pool
    requires p.k >= 1 && st in p.cursors && st in p.queue && ProbedId(p, st, n) in p.slots
  {
    var id := ProbedId(p, st, n);
    var q := p.queue[st];
    var s := Filled(p.slots[id], t, sseq, cid).(phase := PENDING, rec := |q|);
    Emit(p, Call(CHECKPOINT, st, cid, sseq, s.generation, SUBMITTED), |q|)
      .(cursors := Bumped(p, st), slots := p.slots[id := s],
        queue := p.queue[st := q + [Recording(id.index, s.generation, sseq, cid, |p.log|, -1)]])
  }

  /** Logging and publishing what `t` has recorded. */
  lemma LogAndPublishGive(p: Pool, t: nat, st: nat, sseq: nat, cid: nat, n: nat)
    requires t < |p.subs| && p.subs[t].Idle? && p.k >= 1 && st in p.cursors && st in p.queue && ProbedId(p, st, n) in p.slots
    requires Shape(AfterRecord(p, t, st, sseq, cid, n))
    ensures var p1 := AfterRecord(p, t, st, sseq, cid, n);
      Enabled(p1, LogSubmitted(t)) &&
      var p2 := DoLogSubmitted(p1, t);
      Shape(p2) ==> Enabled(p2, Publish(t)) && DoPublish(p2, t) == AfterSubmit(p, t, st, sseq, cid, n)
  {
    var id := ProbedId(p, st, n);
    var p2 := DoLogSubmitted(AfterRecord(p, t, st, sseq, cid, n), t);
    assert p2.queue[st] == p.queue[st] + [Recording(id.index, p.slots[id].generation + 1, sseq, cid, |p.log|, -1)];
    assert p2.queue == AfterSubmit(p, t, st, sseq, cid, n).queue;
  }

  lemma LoggedAndPublished(p: Pool, t: nat, st: nat, sseq: nat, cid: nat, n: nat) returns (p2: Pool)
    requires FoundFree(p, t, st, sseq, n)
    requires Inv(AfterRecord(p, t, st, sseq, cid, n))
    ensures Steps(AfterRecord(p, t, st, sseq, cid, n), LogSubmitted(t), p2)
    ensures Steps(p2, Publish(t), AfterSubmit(p, t, st, sseq, cid, n))
  {
    LogAndPublishGive(p, t, st, sseq, cid, n);
    KeepLogSubmitted(AfterRecord(p, t, st, sseq, cid, n), t);
    p2 := DoLogSubmitted(AfterRecord(p, t, st, sseq, cid, n), t);
  }

  lemma SubmitIsRun(p: Pool, t: nat, st: nat, sseq: nat, cid: nat, n: nat) returns (acts: seq<Action>)
    requires FoundFree(p, t, st, sseq, n)
    ensures Calls(p, acts, AfterSubmit(p, t, st, sseq, cid, n), Begin(t, st, sseq, cid))
  {
    acts := RecordIsRun(p, t, st, sseq, cid, n);
    var p1, p3, begin := AfterRecord(p, t, st, sseq, cid, n), AfterSubmit(p, t, st, sseq, cid, n), Begin(t, st, sseq, cid);
    var p2 := LoggedAndPublished(p, t, st, sseq, cid, n);
    acts := SnocCall(p, acts, p1, p2, LogSubmitted(t), begin);
    acts := SnocCall(p, acts, p2, p3, Publish(t), begin);
  }

  function AfterFailure(p: Pool, t: nat, st: nat, sseq: nat, cid: nat, n: nat): Pool
    requires p.k >= 1 && st in p.cursors && ProbedId(p, st, n) in p.slots
  {
    var id := ProbedId(p, st, n);
    p.(cursors := Bumped(p, st), slots := p.slots[id := Filled(p.slots[id], t, sseq, cid).(phase := FREE)])
  }

  lemma FailureGives(p: Pool, t: nat, st: nat, sseq: nat, cid: nat, n: nat)
    requires t < |p.subs| && p.subs[t].Idle? && p.k >= 1 && st in p.cursors && ProbedId(p, st, n) in p.slots
    requires Shape(AfterStores(p, t, st, sseq, cid, n))
    ensures Steps(AfterStores(p, t, st, sseq, cid, n), RecordFails(t), AfterFailure(p, t, st, sseq, cid, n))
  {}

  lemma FailureIsRun(p: Pool, t: nat, st: nat, sseq: nat, cid: nat, n: nat) returns (acts: seq<Action>)
    requires FoundFree(p, t, st, sseq, n)
    ensures Calls(p, acts, AfterFailure(p, t, st, sseq, cid, n), Begin(t, st, sseq, cid))
  {
    acts := StoresAreRun(p, t, st, sseq, cid, n);
    FailureGives(p, t, st, sseq, cid, n);
    acts := SnocCall(p, acts, AfterStores(p, t, st, sseq, cid, n), AfterFailure(p, t, st, sseq, cid, n),
                     RecordFails(t), Begin(t, st, sseq, cid));
  }

  // ---- Calls in a row ----

  /** One call of thread `t`, from its beginning to its end. */
  ghost predicate IsCall(p: Pool, acts: seq<Action>, t: nat) {
    && IsRun(p, acts) && acts != [] && OneCall(acts, acts[0]) && acts[0].t == t
    && t < |Exec(p, acts).subs| && Exec(p, acts).subs[t].Idle?
  }

  lemma CallEnds(p: Pool, acts: seq<Action>, p': Pool, begin: Action)
    requires Calls(p, acts, p', begin) && begin.t < |p'.subs| && p'.subs[begin.t].Idle?
    ensures IsCall(p, acts, begin.t)
  {}

  ghost predicate CallsInARow(p: Pool, calls: seq<seq<Action>>, t: nat)
    decreases |calls|
  {
    calls == [] || (IsCall(p, calls[0], t) && CallsInARow(Exec(p, calls[0]), calls[1..], t))
  }

  ghost function AfterCalls(p: Pool, calls: seq<seq<Action>>, t: nat): Pool
    requires CallsInARow(p, calls, t)
    decreases |calls|
  {
    if calls == [] then p else AfterCalls(Exec(p, calls[0]), calls[1..], t)
  }

  function Flat(calls: seq<seq<Action>>): seq<Action> {
    if calls == [] then [] else calls[0] + Flat(calls[1..])
  }

  lemma {:induction false} CallsAreRun(p: Pool, calls: seq<seq<Action>>, t: nat)
    requires CallsInARow(p, calls, t)
    ensures IsRun(p, Flat(calls)) && Exec(p, Flat(calls)) == AfterCalls(p, calls, t)
    ensures forall i :: 0 <= i < |Flat(calls)| ==> OfSubmitter(Flat(calls)[i])
    decreases |calls|
  {
    if calls != [] {
      CallsAreRun(Exec(p, calls[0]), calls[1..], t);
      RunJoin(p, calls[0], Flat(calls[1..]));
    }
  }

  lemma {:induction false} CallsJoin(p: Pool, a: seq<seq<Action>>, b: seq<seq<Action>>, t: nat)
    requires CallsInARow(p, a, t) && CallsInARow(AfterCalls(p, a, t), b, t)
    ensures CallsInARow(p, a + b, t) && AfterCalls(p, a + b, t) == AfterCalls(AfterCalls(p, a, t), b, t)
    decreases |a|
  {
    if a == [] {
      assert a + b == b;
    } else {
      assert (a + b)[0] == a[0] && (a + b)[1..] == a[1..] + b;
      CallsJoin(Exec(p, a[0]), a[1..], b, t);
    }
  }
}
