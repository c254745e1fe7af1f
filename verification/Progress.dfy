/** analyzer.py: the per-stream device checkpoint progress of one rank's parsed events. */
module Progress {
  import opened Records
  import opened FlightEvents
  import opened Wrappers

  /** The tuple that pairs a confirmation with a submission. */
  datatype Key = Key(stream: nat, corr: nat, arg0: nat, arg1: nat)

  datatype Status = ConfirmedExact | ConfirmedByLater | Unconfirmed

  datatype Mapping = Mapping(submittedSeq: nat, checkpointId: nat, generation: nat, status: Status,
                             confirmation: Option<nat>)

  datatype StreamProgress = StreamProgress(
    submittedCount: nat, explicitCount: nat, submittedSeq: nat, completedSeq: nat,
    confirmedThrough: Option<Event>, firstUnconfirmed: Option<Event>, lastUnconfirmed: Option<Event>,
    unconfirmedCount: nat, notReadyObserved: nat, mappings: seq<Mapping>)

  function KeyOf(e: Event): Key {
    var c := e.body.call;
    Key(c.stream, c.corr, c.arg0, c.arg1)
  }

  /** A DEVICE_CONFIRMED event that names a generation. */
  predicate Confirms(e: Event) {
    IsConfirmed(e.body.call) && e.body.call.arg1 != 0
  }

  predicate SubmittedOn(e: Event, st: nat) {
    IsSubmitted(e.body.call) && e.body.call.stream == st
  }

  /** The submissions of one stream, in file order. */
  function Submissions(evs: seq<Event>, st: nat): seq<Event> {
    if evs == [] then []
    else
      var rest := Submissions(evs[..|evs| - 1], st);
      var e := evs[|evs| - 1];
      if SubmittedOn(e, st) then rest + [e] else rest
  }

  /** The number of the last event that confirms `key`. */
  function Confirmation(evs: seq<Event>, key: Key): Option<nat> {
    if evs == [] then None
    else
      var e := evs[|evs| - 1];
      if Confirms(e) && KeyOf(e) == key then Some(e.seqno) else Confirmation(evs[..|evs| - 1], key)
  }

  predicate NotReadySeen(evs: seq<Event>, key: Key) {
    exists i :: 0 <= i < |evs| && IsNotReady(evs[i].body.call) && KeyOf(evs[i]) == key
  }

  function Checkpoints(evs: seq<Event>, st: nat): seq<Event> {
    SortBySeq(Submissions(evs, st))
  }

  /** The greatest index below `n` whose checkpoint is confirmed exactly, -1 if none. */
  function LastConfirmed(cps: seq<Event>, evs: seq<Event>, n: nat): int
    requires n <= |cps|
  {
    if n == 0 then -1
    else if Confirmation(evs, KeyOf(cps[n - 1])).Some? then n - 1
    else LastConfirmed(cps, evs, n - 1)
  }

  function ConfirmedIndex(evs: seq<Event>, st: nat): int {
    var cps := Checkpoints(evs, st);
    LastConfirmed(cps, evs, |cps|)
  }

  function ExplicitCount(cps: seq<Event>, evs: seq<Event>, n: nat): nat
    requires n <= |cps|
  {
    if n == 0 then 0
    else ExplicitCount(cps, evs, n - 1) + if Confirmation(evs, KeyOf(cps[n - 1])).Some? then 1 else 0
  }

  function NotReadyCount(cps: seq<Event>, evs: seq<Event>, from: nat, n: nat): nat
    requires from <= n <= |cps|
    decreases n
  {
    if n == from then 0
    else NotReadyCount(cps, evs, from, n - 1) + if NotReadySeen(evs, KeyOf(cps[n - 1])) then 1 else 0
  }

  function StatusOf(evs: seq<Event>, e: Event, i: nat, last: int): Status {
    if Confirmation(evs, KeyOf(e)).Some? then ConfirmedExact
    else if i <= last then ConfirmedByLater
    else Unconfirmed
  }

  function MappingOf(evs: seq<Event>, e: Event, i: nat, last: int): Mapping {
    var c := e.body.call;
    Mapping(c.arg0, c.corr, c.arg1, StatusOf(evs, e, i, last), Confirmation(evs, KeyOf(e)))
  }

  function Mappings(evs: seq<Event>, cps: seq<Event>, last: int): (m: seq<Mapping>)
    ensures |m| == |cps|
    ensures forall i :: 0 <= i < |cps| ==> m[i] == MappingOf(evs, cps[i], i, last)
  {
    seq(|cps|, i requires 0 <= i < |cps| => MappingOf(evs, cps[i], i, last))
  }

  /** The dictionary of one stream, from what its loops have found. */
  function Entry(cps: seq<Event>, last: int, explicitCount: nat, observed: nat, mappings: seq<Mapping>): StreamProgress
    requires cps != [] && -1 <= last < |cps|
  {
    var n := |cps|;
    StreamProgress(
      n, explicitCount, cps[n - 1].body.call.arg0,
      if last >= 0 then cps[last].body.call.arg0 else 0,
      if last >= 0 then Some(cps[last]) else None,
      if last + 1 < n then Some(cps[last + 1]) else None,
      if last + 1 < n then Some(cps[n - 1]) else None,
      n - (last + 1), observed, mappings)
  }

  /** The report entry of stream `st`. */
  function ProgressOf(evs: seq<Event>, st: nat): StreamProgress
    requires Checkpoints(evs, st) != []
  {
    var cps := Checkpoints(evs, st);
    var n := |cps|;
    LastConfirmedBounds(cps, evs, n);
    var last := LastConfirmed(cps, evs, n);
    Entry(cps, last, ExplicitCount(cps, evs, n), NotReadyCount(cps, evs, last + 1, n), Mappings(evs, cps, last))
  }

  lemma {:induction false} LastConfirmedBounds(cps: seq<Event>, evs: seq<Event>, n: nat)
    requires n <= |cps|
    ensures -1 <= LastConfirmed(cps, evs, n) < n
    ensures LastConfirmed(cps, evs, n) >= 0 ==> Confirmation(evs, KeyOf(cps[LastConfirmed(cps, evs, n)])).Some?
    ensures forall i :: LastConfirmed(cps, evs, n) < i < n ==> Confirmation(evs, KeyOf(cps[i])).None?
  {
    if n > 0 { LastConfirmedBounds(cps, evs, n - 1); }
  }

  lemma {:induction false} SubmissionMembers(evs: seq<Event>, st: nat)
    ensures forall e :: e in Submissions(evs, st) ==> e in evs && SubmittedOn(e, st)
    ensures forall e :: e in evs && SubmittedOn(e, st) ==> e in Submissions(evs, st)
  {
    if evs != [] {
      SubmissionMembers(evs[..|evs| - 1], st);
      assert evs == evs[..|evs| - 1] + [evs[|evs| - 1]];
    }
  }

  lemma {:induction false} ConfirmationMeaning(evs: seq<Event>, key: Key)
    ensures Confirmation(evs, key).Some? <==> exists i :: 0 <= i < |evs| && Confirms(evs[i]) && KeyOf(evs[i]) == key
    ensures Confirmation(evs, key).Some? ==>
      exists i :: 0 <= i < |evs| && Confirms(evs[i]) && KeyOf(evs[i]) == key && evs[i].seqno == Confirmation(evs, key).value
  {
    if evs != [] {
      var front := evs[..|evs| - 1];
      ConfirmationMeaning(front, key);
      assert forall i :: 0 <= i < |front| ==> front[i] == evs[i];
    }
  }

  lemma {:induction false} SubmissionsIncrease(evs: seq<Event>, st: nat)
    requires Increasing(evs)
    ensures Increasing(Submissions(evs, st))
  {
    if evs != [] {
      var front := evs[..|evs| - 1];
      SubmissionsIncrease(front, st);
      SubmissionMembers(front, st);
      var e := evs[|evs| - 1];
      if SubmittedOn(e, st) { AppendIncreasing(Submissions(front, st), e); }
    }
  }

  /** On a parsed file the checkpoints of a stream are its submissions in recording order. */
  lemma CheckpointsAreSubmissions(evs: seq<Event>, st: nat)
    requires Increasing(evs)
    ensures Checkpoints(evs, st) == Submissions(evs, st) && Increasing(Checkpoints(evs, st))
  {
    SubmissionsIncrease(evs, st);
    SortOfIncreasing(Submissions(evs, st));
  }

  // ---- Properties of the report ----

  /** Statuses split into a confirmed prefix, up to the last exact confirmation, and an unconfirmed
      suffix; the counts and bounds of the entry are those of that split. */
  lemma StatusesSplit(evs: seq<Event>, st: nat)
    requires Checkpoints(evs, st) != []
    ensures var cps := Checkpoints(evs, st);
      var p := ProgressOf(evs, st);
      var last := ConfirmedIndex(evs, st);
      && -1 <= last < |cps| == |p.mappings|
      && (forall i :: 0 <= i < |cps| ==> (p.mappings[i].status != Unconfirmed <==> i <= last))
      && (last >= 0 ==> p.mappings[last].status == ConfirmedExact && p.confirmedThrough == Some(cps[last]))
      && p.unconfirmedCount == |cps| - (last + 1)
      && (p.unconfirmedCount == 0 <==> p.firstUnconfirmed == None)
  {
    LastConfirmedBounds(Checkpoints(evs, st), evs, |Checkpoints(evs, st)|);
  }

  lemma CheckpointMembers(evs: seq<Event>, st: nat)
    ensures forall e :: e in Checkpoints(evs, st) ==> e in evs && SubmittedOn(e, st)
    ensures forall e :: e in evs && SubmittedOn(e, st) ==> e in Checkpoints(evs, st)
  {
    SubmissionMembers(evs, st);
    SortMembers(Submissions(evs, st));
  }

  lemma BehindIndex(evs: seq<Event>, st: nat, i: nat) returns (f: Event)
    requires Increasing(evs) && i <= ConfirmedIndex(evs, st)
    ensures i < |Checkpoints(evs, st)| && Checkpoints(evs, st)[i] in Checkpoints(evs, st) && f in Checkpoints(evs, st)
    ensures Checkpoints(evs, st)[i].seqno <= f.seqno && Confirmation(evs, KeyOf(f)).Some?
  {
    var cps := Checkpoints(evs, st);
    LastConfirmedBounds(cps, evs, |cps|);
    CheckpointsAreSubmissions(evs, st);
    f := cps[ConfirmedIndex(evs, st)];
  }

  /** A checkpoint reported confirmed stands, in recording order, at or before one confirmed exactly. */
  lemma ConfirmedBehindExact(evs: seq<Event>, st: nat, i: nat) returns (f: Event)
    requires Increasing(evs) && i < |Checkpoints(evs, st)|
    requires ProgressOf(evs, st).mappings[i].status != Unconfirmed
    ensures var e := Checkpoints(evs, st)[i];
      && e in evs && SubmittedOn(e, st) && f in evs && SubmittedOn(f, st)
      && e.seqno <= f.seqno && Confirmation(evs, KeyOf(f)).Some?
  {
    StatusesSplit(evs, st);
    f := BehindIndex(evs, st, i);
    CheckpointMembers(evs, st);
  }

  /** Conversely, a submission at or before one confirmed exactly is reported confirmed. */
  lemma BehindExactIsConfirmed(evs: seq<Event>, st: nat, e: Event, f: Event) returns (i: nat)
    requires Increasing(evs) && e in evs && SubmittedOn(e, st) && f in evs && SubmittedOn(f, st)
    requires e.seqno <= f.seqno && Confirmation(evs, KeyOf(f)).Some?
    ensures i < |Checkpoints(evs, st)| && Checkpoints(evs, st)[i] == e
    ensures ProgressOf(evs, st).mappings[i].status != Unconfirmed
  {
    CheckpointsAreSubmissions(evs, st);
    SubmissionMembers(evs, st);
    var cps := Checkpoints(evs, st);
    assert e in cps && f in cps;
    i :| 0 <= i < |cps| && cps[i] == e;
    var j :| 0 <= j < |cps| && cps[j] == f;
    LastConfirmedBounds(cps, evs, |cps|);
    StatusesSplit(evs, st);
  }

  lemma {:induction false} SubmissionsGrow(evs: seq<Event>, more: seq<Event>, st: nat)
    ensures Submissions(evs, st) <= Submissions(evs + more, st)
    decreases |more|
  {
    if more == [] {
      assert evs + more == evs;
    } else {
      var front := more[..|more| - 1];
      SubmissionsGrow(evs, front, st);
      assert (evs + more)[..|evs + more| - 1] == evs + front;
    }
  }

  lemma ConfirmationsGrow(evs: seq<Event>, more: seq<Event>, key: Key)
    ensures Confirmation(evs, key).Some? ==> Confirmation(evs + more, key).Some?
  {
    ConfirmationMeaning(evs, key);
    ConfirmationMeaning(evs + more, key);
    if Confirmation(evs, key).Some? {
      var i :| 0 <= i < |evs| && Confirms(evs[i]) && KeyOf(evs[i]) == key;
      assert (evs + more)[i] == evs[i];
    }
  }

  predicate NoLower(s: Status, s': Status) {
    (s == ConfirmedExact ==> s' == ConfirmedExact) && (s == ConfirmedByLater ==> s' != Unconfirmed)
  }

  lemma PrefixIncreases(evs: seq<Event>, more: seq<Event>)
    requires Increasing(evs + more)
    ensures Increasing(evs)
  {
    var all := evs + more;
    forall i, j | 0 <= i < j < |evs| ensures evs[i].seqno < evs[j].seqno {
      assert all[i] == evs[i] && all[j] == evs[j];
    }
  }

  lemma CheckpointsGrow(evs: seq<Event>, more: seq<Event>, st: nat)
    requires Increasing(evs + more)
    ensures Checkpoints(evs, st) <= Checkpoints(evs + more, st)
  {
    PrefixIncreases(evs, more);
    CheckpointsAreSubmissions(evs, st);
    CheckpointsAreSubmissions(evs + more, st);
    SubmissionsGrow(evs, more, st);
  }

  lemma IndexGrows(evs: seq<Event>, more: seq<Event>, st: nat)
    requires Increasing(evs + more)
    ensures ConfirmedIndex(evs, st) <= ConfirmedIndex(evs + more, st)
  {
    CheckpointsGrow(evs, more, st);
    var cps, cps' := Checkpoints(evs, st), Checkpoints(evs + more, st);
    LastConfirmedBounds(cps, evs, |cps|);
    LastConfirmedBounds(cps', evs + more, |cps'|);
    var last := ConfirmedIndex(evs, st);
    if last >= 0 {
      assert cps'[last] == cps[last];
      ConfirmationsGrow(evs, more, KeyOf(cps[last]));
    }
  }

  /** Later events, with nothing evicted, never lower the confirmed index nor downgrade a checkpoint. */
  lemma WatermarkMonotone(evs: seq<Event>, more: seq<Event>, st: nat)
    requires Increasing(evs + more) && Checkpoints(evs, st) != []
    ensures Checkpoints(evs, st) <= Checkpoints(evs + more, st)
    ensures ConfirmedIndex(evs, st) <= ConfirmedIndex(evs + more, st)
    ensures forall i :: 0 <= i < |Checkpoints(evs, st)| ==>
      NoLower(ProgressOf(evs, st).mappings[i].status, ProgressOf(evs + more, st).mappings[i].status)
  {
    CheckpointsGrow(evs, more, st);
    IndexGrows(evs, more, st);
    var cps := Checkpoints(evs, st);
    forall i | 0 <= i < |cps|
      ensures NoLower(ProgressOf(evs, st).mappings[i].status, ProgressOf(evs + more, st).mappings[i].status)
    {
      assert Checkpoints(evs + more, st)[i] == cps[i];
      ConfirmationsGrow(evs, more, KeyOf(cps[i]));
    }
  }

  /** The parts of an entry depend on the events only through the confirmations and not-ready
      observations of the stream's own checkpoints. */
  ghost predicate SameEvidence(cps: seq<Event>, evs: seq<Event>, evs': seq<Event>) {
    forall i :: 0 <= i < |cps| ==>
      Confirmation(evs', KeyOf(cps[i])) == Confirmation(evs, KeyOf(cps[i]))
      && NotReadySeen(evs', KeyOf(cps[i])) == NotReadySeen(evs, KeyOf(cps[i]))
  }

  lemma {:induction false} SameEvidenceSameParts(cps: seq<Event>, evs: seq<Event>, evs': seq<Event>, n: nat)
    requires SameEvidence(cps, evs, evs') && n <= |cps|
    ensures LastConfirmed(cps, evs', n) == LastConfirmed(cps, evs, n)
    ensures ExplicitCount(cps, evs', n) == ExplicitCount(cps, evs, n)
    ensures forall from :: 0 <= from <= n ==> NotReadyCount(cps, evs', from, n) == NotReadyCount(cps, evs, from, n)
  {
    if n > 0 { SameEvidenceSameParts(cps, evs, evs', n - 1); }
  }

  lemma {:induction false} SubmissionsSkip(a: seq<Event>, c: Event, b: seq<Event>, st: nat)
    requires !SubmittedOn(c, st)
    ensures Submissions(a + [c] + b, st) == Submissions(a + b, st)
    decreases |b|
  {
    if b == [] {
      assert a + [c] + b == a + [c] && a + b == a;
      assert (a + [c])[..|a|] == a;
    } else {
      var front, e := b[..|b| - 1], b[|b| - 1];
      SubmissionsSkip(a, c, front, st);
      assert (a + [c] + b)[..|a + [c] + b| - 1] == a + [c] + front;
      assert (a + b)[..|a + b| - 1] == a + front;
    }
  }

  lemma {:induction false} ConfirmationSkips(a: seq<Event>, c: Event, b: seq<Event>, key: Key)
    requires !(Confirms(c) && KeyOf(c) == key)
    ensures Confirmation(a + [c] + b, key) == Confirmation(a + b, key)
    decreases |b|
  {
    if b == [] {
      assert a + [c] + b == a + [c] && a + b == a;
      assert (a + [c])[..|a|] == a;
    } else {
      var front := b[..|b| - 1];
      ConfirmationSkips(a, c, front, key);
      assert (a + [c] + b)[..|a + [c] + b| - 1] == a + [c] + front;
      assert (a + b)[..|a + b| - 1] == a + front;
    }
  }

  lemma NotReadySkips(a: seq<Event>, c: Event, b: seq<Event>, key: Key)
    requires !IsNotReady(c.body.call)
    ensures NotReadySeen(a + [c] + b, key) == NotReadySeen(a + b, key)
  {
    var x, y := a + [c] + b, a + b;
    forall i | 0 <= i < |x| && IsNotReady(x[i].body.call) && KeyOf(x[i]) == key ensures NotReadySeen(y, key) {
      assert y[if i < |a| then i else i - 1] == x[i];
    }
    forall i | 0 <= i < |y| && IsNotReady(y[i].body.call) && KeyOf(y[i]) == key ensures NotReadySeen(x, key) {
      assert x[if i < |a| then i else i + 1] == y[i];
    }
  }

  /** A confirmation, wherever it stands, that names no generation or matches no submitted tuple (a stale
      generation, say) changes no entry of the report. */
  lemma UnmatchedConfirmationIgnored(a: seq<Event>, c: Event, b: seq<Event>, st: nat)
    requires IsConfirmed(c.body.call)
    requires c.body.call.arg1 == 0 || forall e :: e in a + b && IsSubmitted(e.body.call) ==> KeyOf(e) != KeyOf(c)
    ensures Checkpoints(a + [c] + b, st) == Checkpoints(a + b, st)
    ensures Checkpoints(a + b, st) != [] ==> ProgressOf(a + [c] + b, st) == ProgressOf(a + b, st)
  {
    SubmissionsSkip(a, c, b, st);
    EvidenceSkips(a, c, b, st);
    if Checkpoints(a + b, st) != [] { SameEvidenceSameEntry(a + b, a + [c] + b, st); }
  }

  lemma SameEvidenceSameEntry(evs: seq<Event>, evs': seq<Event>, st: nat)
    requires Checkpoints(evs, st) != [] && Checkpoints(evs', st) == Checkpoints(evs, st)
    requires SameEvidence(Checkpoints(evs, st), evs, evs')
    ensures ProgressOf(evs', st) == ProgressOf(evs, st)
  {
    var cps := Checkpoints(evs, st);
    SameEvidenceSameParts(cps, evs, evs', |cps|);
    LastConfirmedBounds(cps, evs, |cps|);
    var last := LastConfirmed(cps, evs, |cps|);
    assert Mappings(evs', cps, last) == Mappings(evs, cps, last);
  }

  lemma EvidenceSkips(a: seq<Event>, c: Event, b: seq<Event>, st: nat)
    requires IsConfirmed(c.body.call)
    requires c.body.call.arg1 == 0 || forall e :: e in a + b && IsSubmitted(e.body.call) ==> KeyOf(e) != KeyOf(c)
    ensures SameEvidence(Checkpoints(a + b, st), a + b, a + [c] + b)
  {
    var cps := Checkpoints(a + b, st);
    SubmissionMembers(a + b, st);
    SortMembers(Submissions(a + b, st));
    forall i | 0 <= i < |cps|
      ensures Confirmation(a + [c] + b, KeyOf(cps[i])) == Confirmation(a + b, KeyOf(cps[i]))
           && NotReadySeen(a + [c] + b, KeyOf(cps[i])) == NotReadySeen(a + b, KeyOf(cps[i]))
    {
      assert cps[i] in cps;
      ConfirmationSkips(a, c, b, KeyOf(cps[i]));
      NotReadySkips(a, c, b, KeyOf(cps[i]));
    }
  }

  // ---- What an entry says, on the events ----

  predicate Submits(e: Event, st: nat) {
    e.body.call.kind == 23 && e.body.call.flags % 2 == 1 && e.body.call.stream == st
  }

  predicate SameNumbers(a: Event, b: Event) {
    && a.body.call.stream == b.body.call.stream && a.body.call.corr == b.body.call.corr
    && a.body.call.arg0 == b.body.call.arg0 && a.body.call.arg1 == b.body.call.arg1
  }

  /** A confirmation of submission `e`: same stream, checkpoint, submitted_seq and generation. */
  predicate Matches(c: Event, e: Event) {
    c.body.call.kind == 24 && c.body.call.arg1 != 0 && SameNumbers(c, e)
  }

  ghost predicate ConfirmedIn(evs: seq<Event>, e: Event) {
    exists i :: 0 <= i < |evs| && Matches(evs[i], e)
  }

  /** A not-ready observation of submission `e`. */
  predicate Observes(o: Event, e: Event) {
    o.body.call.kind == 23 && o.body.call.flags / 8 % 2 == 1 && SameNumbers(o, e)
  }

  ghost predicate NotReadyIn(evs: seq<Event>, e: Event) {
    exists i :: 0 <= i < |evs| && Observes(evs[i], e)
  }

  /** `cps` lists the submissions of a stream in the order of their numbers. */
  ghost predicate Lists(cps: seq<Event>, evs: seq<Event>, st: nat) {
    && Increasing(cps)
    && (forall e :: e in cps ==> e in evs && Submits(e, st))
    && (forall e :: e in evs && Submits(e, st) ==> e in cps)
  }

  ghost function ConfirmedOf(evs: seq<Event>, cps: seq<Event>, n: nat): set<nat>
    requires n <= |cps|
  {
    set i: nat | i < n && ConfirmedIn(evs, cps[i])
  }

  ghost function NotReadyOf(evs: seq<Event>, cps: seq<Event>, from: nat, n: nat): set<nat>
    requires n <= |cps|
  {
    set i: nat | from <= i < n && NotReadyIn(evs, cps[i])
  }

  /** The first `k` checkpoints are confirmed, the last of them exactly, and none behind them is. */
  ghost predicate ConfirmedUpTo(evs: seq<Event>, cps: seq<Event>, k: nat) {
    k <= |cps| && (k > 0 ==> ConfirmedIn(evs, cps[k - 1])) && forall j :: k <= j < |cps| ==> !ConfirmedIn(evs, cps[j])
  }

  /** The numbers and bounds of an entry when the first `k` checkpoints are confirmed. */
  ghost predicate CountsFor(p: StreamProgress, evs: seq<Event>, cps: seq<Event>, k: nat)
    requires k <= |cps| && cps != []
  {
    var n := |cps|;
    && p.submittedCount == n && p.submittedSeq == cps[n - 1].body.call.arg0
    && p.explicitCount == |ConfirmedOf(evs, cps, n)|
    && p.completedSeq == (if k > 0 then cps[k - 1].body.call.arg0 else 0)
    && p.confirmedThrough == (if k > 0 then Some(cps[k - 1]) else None)
    && p.unconfirmedCount == n - k
    && p.firstUnconfirmed == (if k < n then Some(cps[k]) else None)
    && p.lastUnconfirmed == (if k < n then Some(cps[n - 1]) else None)
    && p.notReadyObserved == |NotReadyOf(evs, cps, k, n)|
  }

  /** The mapping of checkpoint `e` when `behind` says whether a later one is confirmed exactly. */
  ghost predicate MapsTo(m: Mapping, evs: seq<Event>, e: Event, behind: bool) {
    && m.submittedSeq == e.body.call.arg0 && m.checkpointId == e.body.call.corr && m.generation == e.body.call.arg1
    && (m.status == ConfirmedExact <==> ConfirmedIn(evs, e))
    && (m.status == ConfirmedByLater <==> behind && !ConfirmedIn(evs, e))
    && (m.confirmation.Some? <==> ConfirmedIn(evs, e))
    && (m.confirmation.Some? ==> LastMatch(evs, e, m.confirmation.value))
  }

  /** `sn` is the highest number of a confirmation of `e`. */
  ghost predicate LastMatch(evs: seq<Event>, e: Event, sn: nat) {
    && (exists i :: 0 <= i < |evs| && Matches(evs[i], e) && evs[i].seqno == sn)
    && (forall i :: 0 <= i < |evs| && Matches(evs[i], e) ==> evs[i].seqno <= sn)
  }

  /** The entry tells of the checkpoints `cps` what the events show. */
  ghost predicate Tells(p: StreamProgress, evs: seq<Event>, cps: seq<Event>) {
    cps != [] && exists k: nat :: ConfirmedUpTo(evs, cps, k) && CountsFor(p, evs, cps, k) && MapsAll(p, evs, cps, k)
  }

  ghost predicate MapsAll(p: StreamProgress, evs: seq<Event>, cps: seq<Event>, k: nat) {
    |p.mappings| == |cps| && forall i :: 0 <= i < |cps| ==> MapsTo(p.mappings[i], evs, cps[i], i < k - 1)
  }

  lemma ConfirmationIsMatch(evs: seq<Event>, e: Event)
    ensures Confirmation(evs, KeyOf(e)).Some? <==> ConfirmedIn(evs, e)
  {
    ConfirmationMeaning(evs, KeyOf(e));
    forall i | 0 <= i < |evs| ensures Matches(evs[i], e) <==> Confirms(evs[i]) && KeyOf(evs[i]) == KeyOf(e) {}
  }

  lemma {:induction false} ConfirmationIsLast(evs: seq<Event>, e: Event)
    requires Increasing(evs) && Confirmation(evs, KeyOf(e)).Some?
    ensures LastMatch(evs, e, Confirmation(evs, KeyOf(e)).value)
  {
    var front, c := evs[..|evs| - 1], evs[|evs| - 1];
    assert Matches(c, e) <==> Confirms(c) && KeyOf(c) == KeyOf(e);
    if !Matches(c, e) {
      ConfirmationIsLast(front, e);
      assert forall i :: 0 <= i < |front| ==> front[i] == evs[i];
    }
  }

  lemma {:induction false} ExplicitIsCount(cps: seq<Event>, evs: seq<Event>, n: nat)
    requires n <= |cps|
    ensures ExplicitCount(cps, evs, n) == |ConfirmedOf(evs, cps, n)|
  {
    if n > 0 {
      ExplicitIsCount(cps, evs, n - 1);
      ConfirmationIsMatch(evs, cps[n - 1]);
      assert ConfirmedOf(evs, cps, n) ==
        ConfirmedOf(evs, cps, n - 1) + if ConfirmedIn(evs, cps[n - 1]) then {n - 1} else {};
    }
  }

  lemma NotReadyIsObserved(evs: seq<Event>, e: Event)
    ensures NotReadySeen(evs, KeyOf(e)) <==> NotReadyIn(evs, e)
  {
    forall i | 0 <= i < |evs| ensures Observes(evs[i], e) <==> IsNotReady(evs[i].body.call) && KeyOf(evs[i]) == KeyOf(e) {}
  }

  lemma {:induction false} NotReadyIsCount(cps: seq<Event>, evs: seq<Event>, from: nat, n: nat)
    requires from <= n <= |cps|
    ensures NotReadyCount(cps, evs, from, n) == |NotReadyOf(evs, cps, from, n)|
    decreases n
  {
    if n == from {
      assert NotReadyOf(evs, cps, from, n) == {};
    } else {
      NotReadyIsCount(cps, evs, from, n - 1);
      NotReadyIsObserved(evs, cps[n - 1]);
      assert NotReadyOf(evs, cps, from, n) ==
        NotReadyOf(evs, cps, from, n - 1) + if NotReadyIn(evs, cps[n - 1]) then {n - 1} else {};
    }
  }

  lemma CheckpointsAreListed(evs: seq<Event>, st: nat)
    requires Increasing(evs)
    ensures Lists(Checkpoints(evs, st), evs, st)
  {
    CheckpointsAreSubmissions(evs, st);
    CheckpointMembers(evs, st);
    forall e ensures Submits(e, st) <==> SubmittedOn(e, st) {}
  }

  lemma ListIsUnique(cps: seq<Event>, evs: seq<Event>, st: nat)
    requires Increasing(evs) && Lists(cps, evs, st)
    ensures cps == Checkpoints(evs, st)
  {
    CheckpointsAreListed(evs, st);
    IncreasingUnique(cps, Checkpoints(evs, st));
  }

  lemma IndexIsLast(evs: seq<Event>, cps: seq<Event>) returns (k: nat)
    ensures ConfirmedUpTo(evs, cps, k) && LastConfirmed(cps, evs, |cps|) == k - 1
  {
    LastConfirmedBounds(cps, evs, |cps|);
    k := LastConfirmed(cps, evs, |cps|) + 1;
    forall j | k <= j < |cps| ensures !ConfirmedIn(evs, cps[j]) { ConfirmationIsMatch(evs, cps[j]); }
    if k > 0 { ConfirmationIsMatch(evs, cps[k - 1]); }
  }

  lemma MappingTells(evs: seq<Event>, e: Event, i: nat, last: int)
    requires Increasing(evs) && (i == last ==> ConfirmedIn(evs, e))
    ensures MapsTo(MappingOf(evs, e, i, last), evs, e, i < last)
  {
    ConfirmationIsMatch(evs, e);
    if ConfirmedIn(evs, e) { ConfirmationIsLast(evs, e); }
  }

  /** What the report says of a stream, stated on its events alone: how many submissions it has, how many
      have a confirmation, the numbers of the last confirmed and of the last submission, where the
      unconfirmed ones begin and end, how many of them were observed as not ready, and for each its ids,
      its status and its last confirmation. */
  lemma EntryTells(evs: seq<Event>, st: nat, cps: seq<Event>)
    requires Increasing(evs) && Lists(cps, evs, st) && Checkpoints(evs, st) != []
    ensures Tells(ProgressOf(evs, st), evs, cps)
  {
    ListIsUnique(cps, evs, st);
    var k := IndexIsLast(evs, cps);
    assert CountsFor(ProgressOf(evs, st), evs, cps, k) by {
      ExplicitIsCount(cps, evs, |cps|);
      NotReadyIsCount(cps, evs, k, |cps|);
    }
    assert MapsAll(ProgressOf(evs, st), evs, cps, k) by {
      var last := LastConfirmed(cps, evs, |cps|);
      forall i: nat | i < |cps| ensures MapsTo(MappingOf(evs, cps[i], i, last), evs, cps[i], i < last) {
        MappingTells(evs, cps[i], i, last);
      }
    }
  }

  // ---- The loops of analyze ----

  /** checkpoint_mappings */
  method ListMappings(evs: seq<Event>, cps: seq<Event>, last: int, exact: map<Key, nat>) returns (mappings: seq<Mapping>)
    requires forall key :: key in exact ==> Confirmation(evs, key) == Some(exact[key])
    requires forall key :: Confirmation(evs, key).Some? ==> key in exact
    ensures mappings == Mappings(evs, cps, last)
  {
    mappings := [];
    var i := 0;
    while i < |cps|
      invariant i <= |cps| && |mappings| == i
      invariant forall j :: 0 <= j < i ==> mappings[j] == MappingOf(evs, cps[j], j, last)
    {
      var c, key := cps[i].body.call, KeyOf(cps[i]);
      var status := if key in exact then ConfirmedExact else if i <= last then ConfirmedByLater else Unconfirmed;
      mappings := mappings + [Mapping(c.arg0, c.corr, c.arg1, status, if key in exact then Some(exact[key]) else None)];
      i := i + 1;
    }
    assert mappings == Mappings(evs, cps, last);
  }

  /** One stream: the index scan, the counts and the mapping list. */
  method StreamReport(evs: seq<Event>, st: nat, submitted: seq<Event>, exact: map<Key, nat>, notReady: set<Key>)
    returns (p: StreamProgress)
    requires submitted == Submissions(evs, st) && submitted != []
    requires forall key :: key in exact ==> Confirmation(evs, key) == Some(exact[key])
    requires forall key :: Confirmation(evs, key).Some? ==> key in exact
    requires forall key :: key in notReady <==> NotReadySeen(evs, key)
    ensures Checkpoints(evs, st) != [] && p == ProgressOf(evs, st)
    ensures forall all :: Increasing(evs) && Lists(all, evs, st) ==> Tells(p, evs, all)
  {
    SortMembers(submitted);
    var cps := SortBySeq(submitted);
    var last, explicitCount, i := -1, 0, 0;
    while i < |cps|
      invariant i <= |cps|
      invariant last == LastConfirmed(cps, evs, i) && -1 <= last < i && explicitCount == ExplicitCount(cps, evs, i)
    {
      if KeyOf(cps[i]) in exact {
        last, explicitCount := i, explicitCount + 1;
      }
      i := i + 1;
    }
    var observed, j := 0, last + 1;
    while j < |cps|
      invariant last + 1 <= j <= |cps|
      invariant observed == NotReadyCount(cps, evs, last + 1, j)
    {
      if KeyOf(cps[j]) in notReady { observed := observed + 1; }
      j := j + 1;
    }
    var mappings := ListMappings(evs, cps, last, exact);
    p := Entry(cps, last, explicitCount, observed, mappings);
    assert p == ProgressOf(evs, st);
    forall all | Increasing(evs) && Lists(all, evs, st) ensures Tells(p, evs, all) { EntryTells(evs, st, all); }
  }

  /** One entry for each stream with a submission; on a parsed file it tells of them what the events show. */
  method ReportProgress(evs: seq<Event>) returns (progress: map<nat, StreamProgress>)
    ensures forall st :: st in progress ==> Checkpoints(evs, st) != [] && progress[st] == ProgressOf(evs, st)
    ensures forall st :: Checkpoints(evs, st) != [] ==> st in progress
    ensures forall st :: st in progress ==> exists i :: 0 <= i < |evs| && Submits(evs[i], st)
    ensures forall i :: 0 <= i < |evs| && Submits(evs[i], evs[i].body.call.stream) ==> evs[i].body.call.stream in progress
    ensures forall st, cps :: st in progress && Increasing(evs) && Lists(cps, evs, st) ==> Tells(progress[st], evs, cps)
  {
    var exact: map<Key, nat> := map[];
    var notReady: set<Key> := {};
    var byStream: map<nat, seq<Event>> := map[];
    var i := 0;
    while i < |evs|
      invariant i <= |evs|
      invariant forall key :: key in exact ==> Confirmation(evs[..i], key) == Some(exact[key])
      invariant forall key :: Confirmation(evs[..i], key).Some? ==> key in exact
      invariant forall key :: key in notReady <==> NotReadySeen(evs[..i], key)
      invariant forall st :: st in byStream ==> byStream[st] == Submissions(evs[..i], st) && byStream[st] != []
      invariant forall st :: Submissions(evs[..i], st) != [] ==> st in byStream
    {
      var e := evs[i];
      assert evs[..i + 1][..i] == evs[..i];
      NotReadyNext(evs, i);
      if Confirms(e) { exact := exact[KeyOf(e) := e.seqno]; }
      if IsSubmitted(e.body.call) {
        var st := e.body.call.stream;
        byStream := byStream[st := (if st in byStream then byStream[st] else []) + [e]];
      }
      if IsNotReady(e.body.call) { notReady := notReady + {KeyOf(e)}; }
      i := i + 1;
    }
    assert evs[..i] == evs;
    progress := map[];
    var todo := byStream.Keys;
    while todo != {}
      invariant todo <= byStream.Keys && progress.Keys == byStream.Keys - todo
      invariant forall st :: st in progress ==> Checkpoints(evs, st) != [] && progress[st] == ProgressOf(evs, st)
      invariant forall st, cps :: st in progress && Increasing(evs) && Lists(cps, evs, st) ==> Tells(progress[st], evs, cps)
      decreases todo
    {
      var st :| st in todo;
      var p := StreamReport(evs, st, byStream[st], exact, notReady);
      progress := progress[st := p];
      todo := todo - {st};
    }
    forall st | Checkpoints(evs, st) != [] ensures st in progress { SortMembers(Submissions(evs, st)); }
    forall st | st in progress ensures exists i :: 0 <= i < |evs| && Submits(evs[i], st) { SomeSubmits(evs, st); }
    forall i | 0 <= i < |evs| && Submits(evs[i], evs[i].body.call.stream) ensures evs[i].body.call.stream in progress {
      SubmissionMembers(evs, evs[i].body.call.stream);
      assert SubmittedOn(evs[i], evs[i].body.call.stream);
    }
  }

  lemma SomeSubmits(evs: seq<Event>, st: nat)
    requires Checkpoints(evs, st) != []
    ensures exists i :: 0 <= i < |evs| && Submits(evs[i], st)
  {
    CheckpointMembers(evs, st);
    var e := Checkpoints(evs, st)[0];
    assert e in Checkpoints(evs, st);
    var i :| 0 <= i < |evs| && evs[i] == e;
    assert Submits(evs[i], st);
  }

  lemma NotReadyNext(evs: seq<Event>, i: nat)
    requires i < |evs|
    ensures forall key :: NotReadySeen(evs[..i + 1], key) ==>
      NotReadySeen(evs[..i], key) || (IsNotReady(evs[i].body.call) && KeyOf(evs[i]) == key)
    ensures forall key :: NotReadySeen(evs[..i], key) ==> NotReadySeen(evs[..i + 1], key)
    ensures IsNotReady(evs[i].body.call) ==> NotReadySeen(evs[..i + 1], KeyOf(evs[i]))
  {}
}
