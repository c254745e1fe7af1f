/** The whole chain: submitters, poller and device, writing through the ring, and the analyzer reading
    a copy of the ring taken at any moment. */
module EndToEnd {
  import opened Records
  import opened FlightEvents
  import opened Progress
  import Readers = RingReaders
  import Ring = RingProtocol
  import Pool = CheckpointPool
  import opened PoolFrames
  import PoolInvariant
  import PoolTheorems
  import SubmitCall
  import Watermark
  import Discipline
  import LiveCopy
  import Layout

  // ---- What a record call stores ----

  const WORDS: nat := 11

  /** The fields of flight_event besides its number, in the order flight_record stores them. */
  function Encode(b: Body): (words: seq<int>)
    ensures |words| == WORDS
  {
    [b.timestamp, b.pid, b.tid, b.device, b.rank, b.call.stream, b.call.kind, b.call.flags, b.call.corr,
     b.call.arg0, b.call.arg1]
  }

  function Decode(words: seq<int>): Body
    requires |words| == WORDS
  {
    Body(Ring.Word(words[0]), Ring.Word(words[1]), Ring.Word(words[2]), Ring.Word(words[3]), Ring.Word(words[4]),
         Call(Ring.Word(words[6]), Ring.Word(words[5]), Ring.Word(words[8]), Ring.Word(words[9]), Ring.Word(words[10]),
              Ring.Word(words[7])))
  }

  /** Decoding the words gives what unpacking the members of a flight_event gives; the number is the second
      member. */
  lemma DecodeIsUnpacked(raw: seq<nat>)
    requires |raw| == 12
    ensures Rec(raw[1], Decode([raw[0]] + raw[2..])) == Layout.EventOf(raw)
  {}

  /** The parsed events of a copy of the ring. */
  function Parsed(recs: seq<Rec<seq<int>>>): (evs: seq<Event>)
    requires forall i :: 0 <= i < |recs| ==> |recs[i].body| == WORDS
    ensures |evs| == |recs|
    ensures forall i :: 0 <= i < |recs| ==> evs[i] == Rec(recs[i].seqno, Decode(recs[i].body))
  {
    seq(|recs|, (i: nat) requires i < |recs| => Rec(recs[i].seqno, Decode(recs[i].body)))
  }

  // ---- The system ----

  datatype System = System(pool: Pool.Pool, ring: Ring.Ring)

  /** A step of the pool, with what the recorder adds to a line it writes; or one store of a writer. */
  datatype Step = Move(a: Pool.Action, stamp: Body) | Store(sn: nat)

  predicate Writes(p: Pool.Pool, p': Pool.Pool) {
    |p'.log| > |p.log|
  }

  function WrittenBy(p': Pool.Pool, stamp: Body): seq<int>
    requires |p'.log| > 0
  {
    Encode(stamp.(call := p'.log[|p'.log| - 1]))
  }

  /** A step that logs claims the next number of the ring; the claim respects the lag assumption. */
  ghost predicate Can(s: System, step: Step)
    requires Pool.Shape(s.pool) && Ring.Shape(s.ring) && s.ring.width == WORDS
  {
    match step
    case Move(a, _) =>
      Pool.Enabled(s.pool, a) && (Writes(s.pool, Pool.Apply(s.pool, a)) ==> Ring.LagOk(s.ring))
    case Store(sn) => Ring.Enabled(s.ring, Ring.Advance(sn))
  }

  ghost function Do(s: System, step: Step): System
    requires Pool.Shape(s.pool) && Ring.Shape(s.ring) && s.ring.width == WORDS && Can(s, step)
  {
    match step
    case Move(a, stamp) =>
      var p' := Pool.Apply(s.pool, a);
      System(p', if Writes(s.pool, p') then Ring.Apply(s.ring, Ring.Claim(WrittenBy(p', stamp))) else s.ring)
    case Store(sn) => System(s.pool, Ring.Apply(s.ring, Ring.Advance(sn)))
  }

  ghost predicate Init(s: System) {
    Pool.Init(s.pool) && Ring.Init(s.ring) && s.ring.width == WORDS
  }

  /** Every claimed number carries the call logged under it. */
  ghost predicate SameLines(claimed: seq<seq<int>>, log: seq<Call>) {
    && |claimed| == |log|
    && forall i :: 0 <= i < |claimed| ==> |claimed[i]| == WORDS && Decode(claimed[i]).call == log[i]
  }

  ghost predicate SameLog(s: System) {
    SameLines(s.ring.log, s.pool.log)
  }

  ghost predicate SystemInv(s: System) {
    && PoolInvariant.Inv(s.pool) && Ring.Inv(s.ring) && s.ring.width == WORDS
    && SameLog(s)
  }

  ghost predicate IsRun(s: System, steps: seq<Step>)
    decreases |steps|
  {
    steps == [] ||
    (Pool.Shape(s.pool) && Ring.Shape(s.ring) && s.ring.width == WORDS && Can(s, steps[0]) && IsRun(Do(s, steps[0]), steps[1..]))
  }

  ghost function Exec(s: System, steps: seq<Step>): System
    requires IsRun(s, steps)
    decreases |steps|
  {
    if steps == [] then s else Exec(Do(s, steps[0]), steps[1..])
  }

  lemma OneMoreLine(claimed: seq<seq<int>>, log: seq<Call>, log': seq<Call>, stamp: Body)
    requires SameLines(claimed, log) && AtMostOneMore(log, log') && |log'| > |log|
    ensures SameLines(claimed + [Encode(stamp.(call := log'[|log'| - 1]))], log')
  {}

  lemma MoveKeepsLog(s: System, a: Pool.Action, stamp: Body)
    requires Pool.Shape(s.pool) && Ring.Shape(s.ring) && s.ring.width == WORDS && Can(s, Move(a, stamp)) && SameLog(s)
    ensures SameLog(Do(s, Move(a, stamp)))
  {
    var p, p' := s.pool, Pool.Apply(s.pool, a);
    StepLogs(p, a);
    if Writes(p, p') { OneMoreLine(s.ring.log, p.log, p'.log, stamp); }
  }

  /** Storing and parsing the fields gives back the same event. */
  lemma WordsRoundTrip(b: Body)
    ensures Decode(Encode(b)) == b
  {}

  lemma StepKeeps(s: System, step: Step)
    requires SystemInv(s) && Can(s, step)
    ensures SystemInv(Do(s, step))
  {
    match step
    case Move(a, stamp) =>
      MoveKeepsLog(s, a, stamp);
      PoolInvariant.StepKeepsInv(s.pool, a);
      var p' := Pool.Apply(s.pool, a);
      if Writes(s.pool, p') { Ring.StepKeepsInv(s.ring, Ring.Claim(WrittenBy(p', stamp))); }
    case Store(sn) =>
      Ring.StepKeepsInv(s.ring, Ring.Advance(sn));
  }

  lemma {:induction false} RunKeeps(s: System, steps: seq<Step>)
    requires SystemInv(s) && IsRun(s, steps)
    ensures SystemInv(Exec(s, steps))
    decreases |steps|
  {
    if steps != [] {
      StepKeeps(s, steps[0]);
      RunKeeps(Do(s, steps[0]), steps[1..]);
    }
  }

  /** What the pool does in a run of the system. */
  function Trace(steps: seq<Step>): seq<Pool.Action> {
    if steps == [] then []
    else (if steps[0].Move? then [steps[0].a] else []) + Trace(steps[1..])
  }

  lemma {:induction false} TraceIsRun(s: System, steps: seq<Step>)
    requires IsRun(s, steps)
    ensures PoolTheorems.IsRun(s.pool, Trace(steps))
    ensures Exec(s, steps).pool == PoolTheorems.Exec(s.pool, Trace(steps))
    decreases |steps|
  {
    if steps != [] {
      TraceIsRun(Do(s, steps[0]), steps[1..]);
      if steps[0].Move? {
        assert Trace(steps)[0] == steps[0].a && Trace(steps)[1..] == Trace(steps[1..]);
      } else {
        assert Trace(steps) == Trace(steps[1..]);
      }
    }
  }

  // ---- Reading a copy ----

  lemma CopyIsLive(r: Ring.Ring)
    requires Ring.Inv(r)
    ensures Increasing(Ring.Snapshot(r))
    ensures forall x :: x in Ring.Snapshot(r) ==> 1 <= x.seqno <= |r.log| && x.body == r.log[x.seqno - 1]
  {
    Ring.InvIsFaithful(r);
  }

  /** The report's input: the parsed copy of the ring. */
  ghost function Copy(r: Ring.Ring): (evs: seq<Event>)
    requires Ring.Shape(r) && r.width == WORDS
  {
    Readers.SlotScanMembers(r.cells, r.cap, |r.log|);
    var recs := Ring.Snapshot(r);
    assert forall i :: 0 <= i < |recs| ==> recs[i] in recs;
    Parsed(recs)
  }

  lemma CopyIsRetained(s: System)
    requires SystemInv(s)
    ensures Watermark.Retained(s.pool, Copy(s.ring))
  {
    CopyIsLive(s.ring);
    var recs, evs := Ring.Snapshot(s.ring), Copy(s.ring);
    forall e | e in evs ensures 1 <= e.seqno <= |s.pool.log| && e.body.call == s.pool.log[e.seqno - 1] {
      var i :| 0 <= i < |evs| && evs[i] == e;
      assert recs[i] in recs;
    }
  }

  lemma InitKeeps(s0: System)
    requires Init(s0)
    ensures SystemInv(s0)
  {}

  // ---- From the device to the report ----

  /** Every checkpoint of stream `st` that the report on a copy of the ring marks confirmed has completed. */
  ghost predicate ReportIsTrue(s: System, st: nat)
    requires Ring.Shape(s.ring) && s.ring.width == WORDS
  {
    forall i :: Watermark.ConfirmedIsTrue(s.pool, Copy(s.ring), st, i)
  }

  lemma TruthReachesReport(s0: System, steps: seq<Step>, st: nat)
    requires Init(s0) && IsRun(s0, steps) && Watermark.Truthful(Exec(s0, steps).pool)
    ensures Ring.Shape(Exec(s0, steps).ring) && Exec(s0, steps).ring.width == WORDS && ReportIsTrue(Exec(s0, steps), st)
  {
    InitKeeps(s0);
    RunKeeps(s0, steps);
    CopyIsRetained(Exec(s0, steps));
  }

  /** The watermark holds from the device to the report: copy the ring at any moment of any run in which
      recordings meet the guard, with writers anywhere inside their calls, and each checkpoint the report
      on that copy marks confirmed, exactly or by a later one, has completed on the device. */
  lemma ReportedConfirmedHasCompleted(s0: System, steps: seq<Step>, st: nat)
    requires Init(s0) && IsRun(s0, steps) && Watermark.IsGuardedRun(s0.pool, Trace(steps))
    ensures Ring.Shape(Exec(s0, steps).ring) && Exec(s0, steps).ring.width == WORDS && ReportIsTrue(Exec(s0, steps), st)
  {
    TraceIsRun(s0, steps);
    Watermark.WatermarkSound(s0.pool, Trace(steps));
    TruthReachesReport(s0, steps, st);
  }

  /** The same for callers that take turns on each stream and reuse no pair. */
  lemma DisciplinedReportIsTrue(s0: System, steps: seq<Step>, st: nat)
    requires Init(s0) && IsRun(s0, steps) && Discipline.IsDisciplinedRun(s0.pool, Trace(steps))
    ensures Ring.Shape(Exec(s0, steps).ring) && Exec(s0, steps).ring.width == WORDS && ReportIsTrue(Exec(s0, steps), st)
  {
    Discipline.DisciplinedIsTruthful(s0.pool, Trace(steps));
    ReportedConfirmedHasCompleted(s0, steps, st);
  }

  /** The same for any callers of a pool with one slot per stream. */
  lemma OneSlotReportIsTrue(s0: System, steps: seq<Step>, st: nat)
    requires Init(s0) && IsRun(s0, steps) && s0.pool.k == 1
    ensures Ring.Shape(Exec(s0, steps).ring) && Exec(s0, steps).ring.width == WORDS && ReportIsTrue(Exec(s0, steps), st)
  {
    TraceIsRun(s0, steps);
    Discipline.OneSlotIsTruthful(s0.pool, Trace(steps));
    ReportedConfirmedHasCompleted(s0, steps, st);
  }

  // ---- A file copied while it is written ----

  /** In flight_event the timestamp stands before the number. */
  const AHEAD: nat := 1

  /** What the writers do to the ring in a run of the system. */
  ghost function RingTrace(s: System, steps: seq<Step>): seq<Ring.Action>
    requires IsRun(s, steps)
    decreases |steps|
  {
    if steps == [] then []
    else RingPart(s, steps[0]) + RingTrace(Do(s, steps[0]), steps[1..])
  }

  ghost function RingPart(s: System, step: Step): seq<Ring.Action>
    requires Pool.Shape(s.pool) && Ring.Shape(s.ring) && s.ring.width == WORDS && Can(s, step)
  {
    match step
    case Move(a, stamp) =>
      var p' := Pool.Apply(s.pool, a);
      if Writes(s.pool, p') then [Ring.Claim(WrittenBy(p', stamp))] else []
    case Store(sn) => [Ring.Advance(sn)]
  }

  lemma {:induction false} RingTraceIsRun(s: System, steps: seq<Step>)
    requires IsRun(s, steps) && Ring.Shape(s.ring)
    ensures Ring.IsOrderlyRun(s.ring, RingTrace(s, steps)) && Ring.IsRun(s.ring, RingTrace(s, steps))
    ensures Exec(s, steps).ring == Ring.Exec(s.ring, RingTrace(s, steps))
    decreases |steps|
  {
    if steps != [] {
      RingTraceIsRun(Do(s, steps[0]), steps[1..]);
      var part, rest := RingPart(s, steps[0]), RingTrace(Do(s, steps[0]), steps[1..]);
      if part == [] {
        assert part + rest == rest;
      } else {
        assert (part + rest)[1..] == rest;
      }
    }
  }

  /** The copier's session with the writers of a run: every slot is copied, none is stored to meanwhile. */
  ghost predicate QuietCopy(s: System, steps: seq<Step>, session: seq<LiveCopy.Step>)
    requires Ring.Shape(s.ring) && s.ring.width == WORDS
  {
    var w := LiveCopy.Start(s.ring, AHEAD);
    && IsRun(s, steps) && LiveCopy.IsSession(w, session) && LiveCopy.WritesOf(session) == RingTrace(s, steps)
    && LiveCopy.Copied(LiveCopy.After(w, session)) && forall k: nat :: !LiveCopy.StoredTo(w, session, k)
  }

  /** The report's input: the parsed events of such a copy. */
  ghost function Taken(s: System, steps: seq<Step>, session: seq<LiveCopy.Step>): (evs: seq<Event>)
    requires SystemInv(s) && QuietCopy(s, steps, session)
  {
    TakenAreWhole(s, steps, session);
    Parsed(LiveCopy.Events(LiveCopy.After(LiveCopy.Start(s.ring, AHEAD), session).c, s.ring.cap))
  }

  /** What the reader returns for such a copy are records of the log at its end. */
  lemma TakenAreWhole(s: System, steps: seq<Step>, session: seq<LiveCopy.Step>)
    requires SystemInv(s) && QuietCopy(s, steps, session)
    ensures var recs := LiveCopy.Events(LiveCopy.After(LiveCopy.Start(s.ring, AHEAD), session).c, s.ring.cap);
      && Increasing(recs)
      && forall i :: 0 <= i < |recs| ==> WholeIn(Exec(s, steps).ring, recs[i]) && |recs[i].body| == WORDS
  {
    var w := LiveCopy.After(LiveCopy.Start(s.ring, AHEAD), session);
    var recs := LiveCopy.Events(w.c, s.ring.cap);
    assert Increasing(recs) by { Readers.SlotScanMembers(w.c.cells, s.ring.cap, w.c.written); }
    var r := Exec(s, steps).ring;
    assert Ring.Shape(r) && r.width == WORDS by { RunKeeps(s, steps); }
    assert w.ring == r by {
      LiveCopy.WritersRun(LiveCopy.Start(s.ring, AHEAD), session);
      RingTraceIsRun(s, steps);
    }
    forall i | 0 <= i < |recs| ensures WholeIn(r, recs[i]) && |recs[i].body| == WORDS {
      assert recs[i] in recs;
      LiveCopy.WholeUnlessStored(s.ring, AHEAD, session, recs[i]);
    }
  }

  predicate WholeIn(r: Ring.Ring, e: Rec<seq<int>>) {
    1 <= e.seqno <= |r.log| && e.body == r.log[e.seqno - 1]
  }

  lemma TakenIsRetained(s: System, steps: seq<Step>, session: seq<LiveCopy.Step>)
    requires SystemInv(s) && QuietCopy(s, steps, session)
    ensures Watermark.Retained(Exec(s, steps).pool, Taken(s, steps, session))
  {
    var s', evs := Exec(s, steps), Taken(s, steps, session);
    assert SameLog(s') by { RunKeeps(s, steps); }
    TakenAreWhole(s, steps, session);
    forall e | e in evs ensures 1 <= e.seqno <= |s'.pool.log| && e.body.call == s'.pool.log[e.seqno - 1] {
      var i :| 0 <= i < |evs| && evs[i] == e;
    }
  }

  /** The copy need not be atomic: let the system run while the file is copied word by word. If no slot is
      stored to while that slot is copied, and the recordings of the whole run met the guard, each checkpoint
      the report on the copy marks confirmed has completed on the device when the copy ends. (SystemInv
      adds nothing: by RunKeeps it holds of every state a run reaches.) */
  lemma LiveCopyReportIsTrue(s0: System, before: seq<Step>, during: seq<Step>, session: seq<LiveCopy.Step>, st: nat, i: nat)
    requires Init(s0) && IsRun(s0, before) && SystemInv(Exec(s0, before)) && QuietCopy(Exec(s0, before), during, session)
    requires Watermark.IsGuardedRun(s0.pool, Trace(before) + Trace(during))
    ensures var s := Exec(s0, before);
      Watermark.ConfirmedIsTrue(Exec(s, during).pool, Taken(s, during, session), st, i)
  {
    var s := Exec(s0, before);
    TraceIsRun(s0, before);
    TraceIsRun(s, during);
    SubmitCall.RunJoin(s0.pool, Trace(before), Trace(during));
    Watermark.WatermarkSound(s0.pool, Trace(before) + Trace(during));
    TakenIsRetained(s, during, session);
  }
}
