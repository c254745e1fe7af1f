/** The two offline readers of a mapped ring: `read_events` of format.py, which scans slots, filters
    and sorts, and `read_ring` of mspti_ring.py, which scans sequence numbers. */
module RingReaders {
  import opened Records
  import opened Wrappers

  datatype Header = Header(magic: nat, version: nat, eventSize: nat, capacity: nat, writeSeq: nat)

  const FLIGHT_MAGIC: nat := 0x31524647534E4341
  const MSPTI_MAGIC: nat := 0x315450534D474E48

  /** max(1, written - cap + 1): the oldest number the ring can still hold. */
  function Lower(cap: nat, written: nat): nat {
    if written >= cap then written - cap + 1 else 1
  }

  /** The filter of the slot-scanning reader. */
  predicate Accepts<T>(cap: nat, written: nat, slot: nat, r: Rec<T>)
    requires cap > 0
  {
    Lower(cap, written) <= r.seqno <= written && r.seqno > 0 && (r.seqno - 1) % cap == slot
  }

  /** What the slot loop has kept after the first `n` slots. */
  function Keep<T>(cells: seq<Rec<T>>, cap: nat, written: nat, n: nat): seq<Rec<T>>
    requires n <= |cells| && n <= cap
  {
    if n == 0 then []
    else Keep(cells, cap, written, n - 1)
         + if Accepts(cap, written, n - 1, cells[n - 1]) then [cells[n - 1]] else []
  }

  /** A file shorter than its header promises is read as far as it goes. */
  function Count(cap: nat, available: nat): nat {
    if cap < available then cap else available
  }

  function SlotScan<T>(cells: seq<Rec<T>>, cap: nat, written: nat): seq<Rec<T>> {
    SortBySeq(Keep(cells, cap, written, Count(cap, |cells|)))
  }

  /** The records the sequence-scanning reader meets from `from` to `written`. */
  function SeqScan<T>(cells: seq<Rec<T>>, cap: nat, written: nat, from: nat): seq<Rec<T>>
    requires |cells| >= cap
    requires from >= Lower(cap, written)
    decreases written + 1 - from
  {
    if from > written then []
    else
      var r := cells[(from - 1) % cap];
      (if r.seqno == from then [r] else []) + SeqScan(cells, cap, written, from + 1)
  }

  /** Slot `k` carries a number of its own, one of the last `cap` given out. */
  predicate Carries<T>(cells: seq<Rec<T>>, cap: nat, written: nat, k: nat)
    requires k < |cells| && k < cap
  {
    1 <= cells[k].seqno <= written < cells[k].seqno + cap && (cells[k].seqno - 1) % cap == k
  }

  /** In increasing order, exactly the records of the last `cap` numbers that sit in the slot of their number. */
  ghost predicate IsRetainedPart<T>(events: seq<Rec<T>>, cells: seq<Rec<T>>, cap: nat, written: nat) {
    && Increasing(events)
    && (forall e :: e in events ==> 1 <= e.seqno <= written < e.seqno + cap
                                    && (e.seqno - 1) % cap < |cells| && cells[(e.seqno - 1) % cap] == e)
    && (forall k :: 0 <= k < |cells| && k < cap && Carries(cells, cap, written, k) ==> cells[k] in events)
  }

  /** The loop of read_events over the slots that the file has. */
  method CollectSlots<T>(cells: seq<Rec<T>>, cap: nat, written: nat) returns (result: seq<Rec<T>>)
    ensures result == Keep(cells, cap, written, Count(cap, |cells|))
  {
    var count := if cap < |cells| then cap else |cells|;
    var lower := if written >= cap then written - cap + 1 else 1;
    result := [];
    var slot := 0;
    while slot < count
      invariant slot <= count
      invariant result == Keep(cells, cap, written, slot)
    {
      var e := cells[slot];
      if lower <= e.seqno <= written && (e.seqno - 1) % cap == slot {
        result := result + [e];
      }
      slot := slot + 1;
    }
  }

  /** `header` is missing when the file is shorter than the 128 bytes of a header. */
  method ReadEvents<T>(header: Option<Header>, cells: seq<Rec<T>>) returns (r: Result<seq<Rec<T>>>)
    ensures r.Ok? <==>
      && header.Some? && header.value.magic == FLIGHT_MAGIC && header.value.version == 1
      && header.value.eventSize == 64 && header.value.capacity >= 2
    ensures r.Ok? ==> IsRetainedPart(r.value, cells, header.value.capacity, header.value.writeSeq)
    ensures r.Ok? ==> r.value == SlotScan(cells, header.value.capacity, header.value.writeSeq)
  {
    if header.None? { return Err; }
    var h := header.value;
    if h.magic != FLIGHT_MAGIC || h.version != 1 || h.eventSize != 64 || h.capacity < 2 {
      return Err;
    }
    var result := CollectSlots(cells, h.capacity, h.writeSeq);
    SlotScanIsRetained(cells, h.capacity, h.writeSeq);
    return Ok(SortBySeq(result));
  }

  /** The loop of read_ring over the numbers of the window. */
  method CollectNumbers<T>(cells: seq<Rec<T>>, cap: nat, written: nat) returns (events: seq<Rec<T>>)
    requires |cells| >= cap
    ensures IsRetainedPart(events, cells, cap, written)
  {
    var first := if written >= cap then written - cap + 1 else 1;
    ghost var all := SeqScan(cells, cap, written, first);
    events := [];
    var sn := first;
    while sn <= written
      invariant first <= sn
      invariant events + SeqScan(cells, cap, written, sn) == all
      decreases written + 1 - sn
    {
      var slot := (sn - 1) % cap;
      ScanGoesOn(events, cells, cap, written, sn);
      if cells[slot].seqno == sn {
        events := events + [cells[slot]];
      }
      sn := sn + 1;
    }
    assert events == all;
    SeqScanIsRetained(cells, cap, written);
  }

  method ReadRing<T>(header: Option<Header>, cells: seq<Rec<T>>) returns (r: Result<seq<Rec<T>>>)
    ensures r.Ok? <==>
      && header.Some? && header.value.magic == MSPTI_MAGIC && |cells| >= header.value.capacity
      && (header.value.version, header.value.eventSize) in {(1, 128), (2, 192)}
    ensures r.Ok? ==> IsRetainedPart(r.value, cells, header.value.capacity, header.value.writeSeq)
  {
    if header.None? { return Err; }
    var h := header.value;
    if h.magic != MSPTI_MAGIC ||
       ((h.version != 1 || h.eventSize != 128) && (h.version != 2 || h.eventSize != 192)) {
      return Err;
    }
    if |cells| < h.capacity {
      return Err;
    }
    var events := CollectNumbers(cells, h.capacity, h.writeSeq);
    return Ok(events);
  }

  /** Record `r` sits in the slot its number names, inside the window of the last `cap` numbers. */
  ghost predicate Live<T>(cells: seq<Rec<T>>, cap: nat, written: nat, r: Rec<T>) {
    && 1 <= r.seqno <= written < r.seqno + cap
    && (r.seqno - 1) % cap < |cells|
    && cells[(r.seqno - 1) % cap] == r
  }

  lemma {:induction false} KeepMembers<T>(cells: seq<Rec<T>>, cap: nat, written: nat, n: nat)
    requires n <= |cells| && n <= cap
    ensures Distinct(Keep(cells, cap, written, n))
    ensures forall r :: r in Keep(cells, cap, written, n) ==> Live(cells, cap, written, r) && (r.seqno - 1) % cap < n
    ensures forall r :: Live(cells, cap, written, r) && (r.seqno - 1) % cap < n ==> r in Keep(cells, cap, written, n)
    ensures |Keep(cells, cap, written, n)| <= n
  {
    if n > 0 {
      KeepMembers(cells, cap, written, n - 1);
      var k, c := Keep(cells, cap, written, n - 1), cells[n - 1];
      if Accepts(cap, written, n - 1, c) {
        forall i | 0 <= i < |k| ensures k[i].seqno != c.seqno { assert k[i] in k; }
        assert Keep(cells, cap, written, n) == k + [c];
      } else {
        assert Keep(cells, cap, written, n) == k;
      }
      forall r | Live(cells, cap, written, r) && (r.seqno - 1) % cap == n - 1 ensures r in Keep(cells, cap, written, n) {}
    }
  }

  /** What the slot-scanning reader returns, for any file contents: in increasing order, exactly the
      records that are live in the slots the file has. */
  lemma SlotScanMembers<T>(cells: seq<Rec<T>>, cap: nat, written: nat)
    ensures Increasing(SlotScan(cells, cap, written))
    ensures forall r :: r in SlotScan(cells, cap, written) ==> Live(cells, cap, written, r)
    ensures forall r :: Live(cells, cap, written, r) ==> r in SlotScan(cells, cap, written)
  {
    var n := Count(cap, |cells|);
    KeepMembers(cells, cap, written, n);
    SortMembers(Keep(cells, cap, written, n));
    SortIncreasing(Keep(cells, cap, written, n));
  }

  lemma SlotScanIsRetained<T>(cells: seq<Rec<T>>, cap: nat, written: nat)
    ensures IsRetainedPart(SlotScan(cells, cap, written), cells, cap, written)
  {
    SlotScanMembers(cells, cap, written);
    forall k | 0 <= k < |cells| && k < cap && Carries(cells, cap, written, k) ensures Live(cells, cap, written, cells[k]) {}
  }

  lemma SeqScanIsRetained<T>(cells: seq<Rec<T>>, cap: nat, written: nat)
    requires |cells| >= cap
    ensures IsRetainedPart(SeqScan(cells, cap, written, Lower(cap, written)), cells, cap, written)
  {
    ReadersAgree(cells, cap, written);
    SlotScanIsRetained(cells, cap, written);
  }

  /** What the scan finds at number `from`. */
  function Found<T>(cells: seq<Rec<T>>, cap: nat, from: nat): seq<Rec<T>>
    requires |cells| >= cap >= 1 && from >= 1
  {
    var r := cells[(from - 1) % cap];
    if r.seqno == from then [r] else []
  }

  lemma ScanGoesOn<T>(events: seq<Rec<T>>, cells: seq<Rec<T>>, cap: nat, written: nat, from: nat)
    requires |cells| >= cap >= 1 && Lower(cap, written) <= from <= written
    ensures var r, rest := cells[(from - 1) % cap], SeqScan(cells, cap, written, from + 1);
      events + SeqScan(cells, cap, written, from) == (if r.seqno == from then events + [r] else events) + rest
  {
    var r, rest := cells[(from - 1) % cap], SeqScan(cells, cap, written, from + 1);
    assert events + ([r] + rest) == (events + [r]) + rest && events + ([] + rest) == events + rest;
  }

  lemma FoundIsLive<T>(cells: seq<Rec<T>>, cap: nat, written: nat, from: nat, r: Rec<T>)
    requires |cells| >= cap >= 1 && from >= 1 && Lower(cap, written) <= from <= written
    ensures r in Found(cells, cap, from) <==> Live(cells, cap, written, r) && r.seqno == from
  {}

  lemma LiveFrom<T>(cells: seq<Rec<T>>, cap: nat, written: nat, from: nat, r: Rec<T>, rest: seq<Rec<T>>)
    requires |cells| >= cap >= 1 && from >= 1 && Lower(cap, written) <= from <= written
    requires r in rest <==> Live(cells, cap, written, r) && r.seqno >= from + 1
    ensures r in Found(cells, cap, from) + rest <==> Live(cells, cap, written, r) && r.seqno >= from
  {
    FoundIsLive(cells, cap, written, from, r);
  }

  lemma FoundJoins<T>(cells: seq<Rec<T>>, cap: nat, written: nat, from: nat, rest: seq<Rec<T>>)
    requires |cells| >= cap >= 1 && from >= 1 && Lower(cap, written) <= from <= written
    requires forall r :: r in rest ==> Live(cells, cap, written, r) && r.seqno >= from + 1
    requires forall r :: Live(cells, cap, written, r) && r.seqno >= from + 1 ==> r in rest
    ensures forall r :: r in Found(cells, cap, from) + rest ==> Live(cells, cap, written, r) && r.seqno >= from
    ensures forall r :: Live(cells, cap, written, r) && r.seqno >= from ==> r in Found(cells, cap, from) + rest
  {
    forall r ensures r in Found(cells, cap, from) + rest <==> Live(cells, cap, written, r) && r.seqno >= from {
      LiveFrom(cells, cap, written, from, r, rest);
    }
  }

  lemma FoundIncreases<T>(cells: seq<Rec<T>>, cap: nat, from: nat, rest: seq<Rec<T>>)
    requires |cells| >= cap >= 1 && from >= 1 && Increasing(rest) && forall r :: r in rest ==> r.seqno >= from + 1
    ensures Increasing(Found(cells, cap, from) + rest)
  {
    assert forall i :: 0 <= i < |rest| ==> rest[i] in rest;
  }

  lemma {:induction false} SeqScanMembers<T>(cells: seq<Rec<T>>, cap: nat, written: nat, from: nat)
    requires |cells| >= cap
    requires from >= Lower(cap, written)
    ensures Increasing(SeqScan(cells, cap, written, from))
    ensures forall r :: r in SeqScan(cells, cap, written, from) ==> Live(cells, cap, written, r) && r.seqno >= from
    ensures forall r :: Live(cells, cap, written, r) && r.seqno >= from ==> r in SeqScan(cells, cap, written, from)
    decreases written + 1 - from
  {
    if from <= written {
      SeqScanMembers(cells, cap, written, from + 1);
      FoundJoins(cells, cap, written, from, SeqScan(cells, cap, written, from + 1));
      FoundIncreases(cells, cap, from, SeqScan(cells, cap, written, from + 1));
    }
  }

  /** The two readers agree: on a full-length ring, whatever its slots hold and whatever `written` says,
      scanning slots then filtering and sorting gives the list that scanning sequence numbers gives. */
  lemma ReadersAgree<T>(cells: seq<Rec<T>>, cap: nat, written: nat)
    requires |cells| >= cap
    ensures SlotScan(cells, cap, written) == SeqScan(cells, cap, written, Lower(cap, written))
  {
    SlotScanMembers(cells, cap, written);
    SeqScanMembers(cells, cap, written, Lower(cap, written));
    IncreasingUnique(SlotScan(cells, cap, written), SeqScan(cells, cap, written, Lower(cap, written)));
  }
}
