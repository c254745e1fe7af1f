/** From the msPTI ring to its report: what the list of open calls means for a ring that concurrent
    writers have filled. */
module RingPairing {
  import opened Records
  import opened CallbackPairing
  import Readers = RingReaders
  import Ring = RingProtocol

  /** The scalar members of hang_event, which the record function stores before the two labels. */
  const SCALARS: nat := 11

  /** What the report reads of an event: its kind, thread, callback id and correlation id. */
  function Decode(words: seq<int>): Activity
    requires |words| >= SCALARS
  {
    Activity(Ring.Word(words[8]), Ring.Word(words[5]), Ring.Word(words[10]), Ring.Word(words[3]))
  }

  /** What the record function stores besides the number and the labels, in the order of its stores. */
  function Stores(observed: nat, start: nat, end: nat, corr: nat, pid: nat, tid: nat, device: nat, stream: nat,
                  kind: nat, flags: nat, code: nat): (words: seq<int>)
    ensures |words| == SCALARS
  {
    [observed, start, end, corr, pid, tid, device, stream, kind, flags, code]
  }

  /** The report reads the members that the record function stored under these names. */
  lemma DecodeReadsBack(observed: nat, start: nat, end: nat, corr: nat, pid: nat, tid: nat, device: nat, stream: nat,
                        kind: nat, flags: nat, code: nat)
    ensures Decode(Stores(observed, start, end, corr, pid, tid, device, stream, kind, flags, code)) == Activity(kind, tid, code, corr)
  {}

  /** Behind the number, the words are the members that the Python format unpacks as values 1 to 11. */
  lemma DecodeIsUnpacked(raw: seq<int>)
    requires |raw| == 12 && forall i :: 0 <= i < 12 ==> raw[i] >= 0
    ensures Decode(raw[1..]) == Activity(raw[9], raw[6], raw[11], raw[4])
  {}

  function Parsed(recs: seq<Rec<seq<int>>>): (events: seq<Event>)
    requires forall i :: 0 <= i < |recs| ==> |recs[i].body| >= SCALARS
    ensures |events| == |recs|
    ensures forall i :: 0 <= i < |recs| ==> events[i] == Rec(recs[i].seqno, Decode(recs[i].body))
  {
    seq(|recs|, (i: nat) requires i < |recs| => Rec(recs[i].seqno, Decode(recs[i].body)))
  }

  predicate Holds(r: Ring.Ring) {
    Ring.Shape(r) && r.width >= SCALARS
  }

  /** Every callback and activity of the run, in the order of the claimed numbers. */
  function Trace(r: Ring.Ring): (trace: seq<Event>)
    requires Holds(r)
    ensures |trace| == |r.log| && forall i :: 0 <= i < |r.log| ==> trace[i] == Rec(i + 1, Decode(r.log[i]))
  {
    seq(|r.log|, (i: nat) requires i < |r.log| => Rec(i + 1, Decode(r.log[i])))
  }

  /** No call is between its claim and its publication. */
  predicate Settled(r: Ring.Ring)
    requires Ring.Shape(r)
  {
    forall i :: 0 <= i < |r.log| ==> Ring.Done(r, i)
  }

  function Read(r: Ring.Ring): seq<Rec<seq<int>>>
    requires Ring.Shape(r)
  {
    Readers.SeqScan(r.cells, r.cap, |r.log|, Readers.Lower(r.cap, |r.log|))
  }

  /** How many of the claimed numbers are no longer in the ring. */
  function Overwritten(r: Ring.Ring): nat {
    if |r.log| > r.cap then |r.log| - r.cap else 0
  }

  /** When all have published, every number of the window is met. */
  lemma {:induction false} ScanMeetsAll(r: Ring.Ring, from: nat)
    requires Ring.Inv(r) && Settled(r) && Overwritten(r) < from <= |r.log| + 1
    ensures var read := Readers.SeqScan(r.cells, r.cap, |r.log|, from);
      && |read| == |r.log| + 1 - from
      && forall i :: 0 <= i < |read| ==> read[i] == Rec(from + i, r.log[from + i - 1])
    decreases |r.log| + 1 - from
  {
    if from <= |r.log| {
      ScanMeetsAll(r, from + 1);
      assert Ring.Done(r, from - 1) && Ring.InWindow(r, from - 1) && Ring.CellOf(r, from - 1);
    }
  }

  /** Reading a settled ring yields the run without the numbers that were overwritten, and no hole. */
  lemma ReadIsSuffix(r: Ring.Ring)
    requires Ring.Inv(r) && Holds(r) && Settled(r)
    ensures forall i :: 0 <= i < |Read(r)| ==> |Read(r)[i].body| >= SCALARS
    ensures |Read(r)| == if |r.log| > r.cap then r.cap else |r.log|
    ensures Parsed(Read(r)) == Trace(r)[|r.log| - |Read(r)|..]
  {
    ScanMeetsAll(r, Overwritten(r) + 1);
  }

  /** From the writers to the report: however their steps interleaved, once all of them have published,
      the report on the ring lists a call as open if and only if it is open in the full run and was
      entered inside the retained window. */
  lemma ListedIsOpen(r0: Ring.Ring, acts: seq<Ring.Action>, e: Event)
    requires Ring.Init(r0) && r0.width >= SCALARS && Ring.IsOrderlyRun(r0, acts)
    ensures Ring.Shape(r0) && Ring.IsRun(r0, acts) && Holds(Ring.Exec(r0, acts))
    ensures var r := Ring.Exec(r0, acts);
      Settled(r) && IsTrace(Trace(r)) ==>
        && (forall i :: 0 <= i < |Read(r)| ==> |Read(r)[i].body| >= SCALARS)
        && (Listed(Parsed(Read(r)), e) <==>
              1 <= e.seqno <= |r.log| < e.seqno + r.cap && e == Trace(r)[e.seqno - 1] && StillOpen(Trace(r), e.seqno - 1))
  {
    Ring.InitInv(r0);
    Ring.RunKeepsInv(r0, acts);
    var r := Ring.Exec(r0, acts);
    if Settled(r) && IsTrace(Trace(r)) {
      ReadIsSuffix(r);
      ReportedOpenIsOpen(Trace(r), |r.log| - |Read(r)|, e);
    }
  }
}
