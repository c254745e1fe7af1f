/** The bytes of both files: C++ structs written with natural alignment on a little-endian host, read
    back by Python struct formats that align nothing. */
module Layout {
  import opened FlightEvents
  import opened Records
  import opened Wrappers

  type Byte = x: nat | x < 256

  function Range(n: nat): nat {
    if n == 0 then 1 else 256 * Range(n - 1)
  }

  /** An n-byte little-endian store. */
  function ToBytes(v: nat, n: nat): (s: seq<Byte>)
    ensures |s| == n
  {
    if n == 0 then [] else [v % 256] + ToBytes(v / 256, n - 1)
  }

  /** A little-endian load. */
  function FromBytes(s: seq<Byte>): nat {
    if s == [] then 0 else s[0] + 256 * FromBytes(s[1..])
  }

  lemma {:induction false} BytesRoundTrip(v: nat, n: nat)
    requires v < Range(n)
    ensures FromBytes(ToBytes(v, n)) == v
  {
    if n > 0 {
      assert v / 256 < Range(n - 1);
      BytesRoundTrip(v / 256, n - 1);
      assert ToBytes(v, n)[1..] == ToBytes(v / 256, n - 1);
    }
  }

  // ---- Layouts ----

  /** One value of a Python format: the pad bytes before it and its size. */
  datatype Item = Item(pad: nat, size: nat)

  const Q := Item(0, 8)
  const I := Item(0, 4)
  const H := Item(0, 2)
  const PAD4_Q := Item(4, 8)

  function AlignUp(o: nat, a: nat): (r: nat)
    requires a >= 1
    ensures o <= r
  {
    if o % a == 0 then o else o + a - o % a
  }

  /** A C++ compiler puts member `k` after the one before it, aligned to its own size. */
  predicate NaturalAt(at: seq<nat>, sizes: seq<nat>, k: nat) {
    k < |at| && k < |sizes| ==>
      sizes[k] >= 1 && at[k] == if k == 0 then 0 else AlignUp(at[k - 1] + sizes[k - 1], sizes[k])
  }

  /** A Python format without alignment reads value `k` after the one before it and the pad bytes. */
  predicate PackedAt(at: seq<nat>, items: seq<Item>, k: nat) {
    k < |at| && k < |items| ==>
      at[k] == (if k == 0 then 0 else at[k - 1] + items[k - 1].size) + items[k].pad
  }

  ghost predicate Packed(at: seq<nat>, items: seq<Item>) {
    |at| == |items| && forall k :: PackedAt(at, items, k)
  }

  /** The struct and the format put every value at the same place, `at`, with the same size. */
  ghost predicate SameLayout(at: seq<nat>, sizes: seq<nat>, items: seq<Item>) {
    && |at| == |sizes| && Packed(at, items)
    && (forall k :: NaturalAt(at, sizes, k))
    && forall k :: 0 <= k < |sizes| ==> sizes[k] == items[k].size
  }

  /** No two members overlap and all fit into `total` bytes. */
  ghost predicate Places(at: seq<nat>, sizes: seq<nat>, total: nat) {
    && |at| == |sizes|
    && (forall i, j :: 0 <= i < j < |at| ==> at[i] + sizes[i] <= at[j])
    && (forall i :: 0 <= i < |at| ==> at[i] + sizes[i] <= total)
  }

  lemma {:induction false} PackedRises(at: seq<nat>, items: seq<Item>, i: nat, j: nat)
    requires |at| == |items| && i <= j < |at| && forall k :: PackedAt(at, items, k)
    ensures i < j ==> at[i] + items[i].size <= at[j]
    decreases j
  {
    if i < j {
      assert PackedAt(at, items, j);
      PackedRises(at, items, i, j - 1);
    }
  }

  lemma SamePlaces(at: seq<nat>, sizes: seq<nat>, items: seq<Item>, total: nat)
    requires SameLayout(at, sizes, items) && |at| > 0 && at[|at| - 1] + sizes[|at| - 1] <= total
    ensures Places(at, sizes, total)
  {
    forall i, j | 0 <= i < j < |at| ensures at[i] + sizes[i] <= at[j] { PackedRises(at, items, i, j); }
  }

  // ---- Stores and loads ----

  function Put(bytes: seq<Byte>, o: nat, chunk: seq<Byte>): (r: seq<Byte>)
    requires o + |chunk| <= |bytes|
    ensures |r| == |bytes|
    ensures forall i :: 0 <= i < |bytes| ==> r[i] == if o <= i < o + |chunk| then chunk[i - o] else bytes[i]
  {
    bytes[..o] + chunk + bytes[o + |chunk|..]
  }

  /** The first `n` members stored, one after the other. */
  function Stored(bytes: seq<Byte>, at: seq<nat>, sizes: seq<nat>, vals: seq<nat>, n: nat): (r: seq<Byte>)
    requires Places(at, sizes, |bytes|) && |vals| == |sizes| && n <= |sizes|
    ensures |r| == |bytes|
    decreases n
  {
    if n == 0 then bytes
    else Put(Stored(bytes, at, sizes, vals, n - 1), at[n - 1], ToBytes(vals[n - 1], sizes[n - 1]))
  }

  lemma {:induction false} StoredReadsBack(bytes: seq<Byte>, at: seq<nat>, sizes: seq<nat>, vals: seq<nat>, n: nat, k: nat)
    requires Places(at, sizes, |bytes|) && |vals| == |sizes| && k < n <= |sizes|
    ensures Stored(bytes, at, sizes, vals, n)[at[k]..at[k] + sizes[k]] == ToBytes(vals[k], sizes[k])
    decreases n
  {
    if k < n - 1 {
      StoredReadsBack(bytes, at, sizes, vals, n - 1, k);
      var before, after := Stored(bytes, at, sizes, vals, n - 1), Stored(bytes, at, sizes, vals, n);
      assert at[k] + sizes[k] <= at[n - 1];
      assert after[at[k]..at[k] + sizes[k]] == before[at[k]..at[k] + sizes[k]];
    }
  }

  /** Bytes outside every member are left alone. */
  lemma {:induction false} StoredElsewhere(bytes: seq<Byte>, at: seq<nat>, sizes: seq<nat>, vals: seq<nat>, n: nat, i: nat)
    requires Places(at, sizes, |bytes|) && |vals| == |sizes| && n <= |sizes| && i < |bytes|
    requires forall k :: 0 <= k < |at| ==> i < at[k] || i >= at[k] + sizes[k]
    ensures Stored(bytes, at, sizes, vals, n)[i] == bytes[i]
    decreases n
  {
    if n > 0 { StoredElsewhere(bytes, at, sizes, vals, n - 1, i); }
  }

  /** The value read at offset `o`, 0 if the buffer is too short. */
  function Load(raw: seq<Byte>, o: nat, size: nat): nat {
    if o + size <= |raw| then FromBytes(raw[o..o + size]) else 0
  }

  /** Struct.unpack_from: the values of a format that lie at `at`. */
  function Unpack(at: seq<nat>, items: seq<Item>, raw: seq<Byte>): (vals: seq<nat>)
    requires |at| == |items|
    ensures |vals| == |at|
    ensures forall k :: 0 <= k < |at| ==> vals[k] == Load(raw, at[k], items[k].size)
  {
    seq(|at|, (k: nat) requires k < |at| => Load(raw, at[k], items[k].size))
  }

  ghost predicate InRange(vals: seq<nat>, sizes: seq<nat>) {
    |vals| == |sizes| && forall k :: 0 <= k < |vals| ==> vals[k] < Range(sizes[k])
  }

  lemma FieldRoundTrip(bytes: seq<Byte>, at: seq<nat>, sizes: seq<nat>, vals: seq<nat>, k: nat)
    requires Places(at, sizes, |bytes|) && InRange(vals, sizes) && k < |vals|
    ensures Load(Stored(bytes, at, sizes, vals, |sizes|), at[k], sizes[k]) == vals[k]
  {
    StoredReadsBack(bytes, at, sizes, vals, |sizes|, k);
    BytesRoundTrip(vals[k], sizes[k]);
  }

  /** Byte round trip: whatever the slot held before, the values a C++ writer stores are the values the
      Python reader unpacks. */
  lemma StructRoundTrip(bytes: seq<Byte>, at: seq<nat>, sizes: seq<nat>, items: seq<Item>, vals: seq<nat>)
    requires SameLayout(at, sizes, items) && InRange(vals, sizes)
    requires |at| > 0 && at[|at| - 1] + sizes[|at| - 1] <= |bytes|
    ensures Places(at, sizes, |bytes|)
    ensures Unpack(at, items, Stored(bytes, at, sizes, vals, |sizes|)) == vals
  {
    SamePlaces(at, sizes, items, |bytes|);
    var raw := Stored(bytes, at, sizes, vals, |sizes|);
    forall k | 0 <= k < |vals| ensures Unpack(at, items, raw)[k] == vals[k] {
      FieldRoundTrip(bytes, at, sizes, vals, k);
    }
  }

  // ---- The four structs ----

  /** flight_recorder.cpp Header: magic, version, event_size, capacity, pid, rank, device, write_seq,
      last_ns, started_wall_ns, started_mono_ns. */
  const FLIGHT_HEADER: seq<nat> := [8, 4, 4, 8, 4, 2, 2, 8, 8, 8, 8]
  const FLIGHT_HEADER_AT: seq<nat> := [0, 8, 12, 16, 24, 28, 30, 32, 40, 48, 56]
  const PY_FLIGHT_HEADER := [Q, I, I, Q, I, H, H, Q, Q, Q, Q]

  /** flight_event: timestamp_ns, seq, pid, tid, device_id, rank_id, stream_id, type, flags,
      correlation_id, arg0, arg1. */
  const FLIGHT_EVENT: seq<nat> := [8, 8, 4, 4, 2, 2, 4, 2, 2, 8, 8, 8]
  const FLIGHT_EVENT_AT: seq<nat> := [0, 8, 16, 20, 24, 26, 28, 32, 34, 40, 48, 56]
  const PY_FLIGHT_EVENT := [Q, Q, I, I, H, H, I, H, H, PAD4_Q, Q, Q]

  /** hang_mspti.cpp Header: magic, version, event_size, capacity, pid, reserved, write_seq,
      started_wall_ns, started_mono_ns, dropped. */
  const MSPTI_HEADER: seq<nat> := [8, 4, 4, 8, 4, 4, 8, 8, 8, 8]
  const MSPTI_HEADER_AT: seq<nat> := [0, 8, 12, 16, 24, 28, 32, 40, 48, 56]
  const PY_MSPTI_HEADER := [Q, I, I, Q, I, I, Q, Q, Q, Q]

  /** The scalars of hang_event: seq, observed_ns, activity_start_ns, activity_end_ns, correlation_id,
      pid, tid, device_id, stream_id, kind, flags, code. The two labels follow, at 64 and 128. */
  const MSPTI_EVENT: seq<nat> := [8, 8, 8, 8, 8, 4, 4, 4, 4, 2, 2, 4]
  const MSPTI_EVENT_AT: seq<nat> := [0, 8, 16, 24, 32, 40, 44, 48, 52, 56, 58, 60]
  const PY_MSPTI_EVENT := [Q, Q, Q, Q, Q, I, I, I, I, H, H, I]

  lemma FlightHeaderNatural()
    ensures forall k :: NaturalAt(FLIGHT_HEADER_AT, FLIGHT_HEADER, k)
  {}

  lemma FlightHeaderLayout()
    ensures SameLayout(FLIGHT_HEADER_AT, FLIGHT_HEADER, PY_FLIGHT_HEADER)
  {
    FlightHeaderNatural();
  }

  lemma FlightEventNatural()
    ensures forall k :: NaturalAt(FLIGHT_EVENT_AT, FLIGHT_EVENT, k)
  {}

  lemma FlightEventLayout()
    ensures SameLayout(FLIGHT_EVENT_AT, FLIGHT_EVENT, PY_FLIGHT_EVENT)
  {
    FlightEventNatural();
  }

  lemma MsptiHeaderNatural()
    ensures forall k :: NaturalAt(MSPTI_HEADER_AT, MSPTI_HEADER, k)
  {}

  lemma MsptiHeaderLayout()
    ensures SameLayout(MSPTI_HEADER_AT, MSPTI_HEADER, PY_MSPTI_HEADER)
  {
    MsptiHeaderNatural();
  }

  lemma MsptiEventLayout()
    ensures SameLayout(MSPTI_EVENT_AT, MSPTI_EVENT, PY_MSPTI_EVENT)
  {}

  lemma FlightHeaderRoundTrip(file: seq<Byte>, vals: seq<nat>)
    requires |file| == 128 && InRange(vals, FLIGHT_HEADER)
    ensures SameLayout(FLIGHT_HEADER_AT, FLIGHT_HEADER, PY_FLIGHT_HEADER) && Places(FLIGHT_HEADER_AT, FLIGHT_HEADER, 128)
    ensures Unpack(FLIGHT_HEADER_AT, PY_FLIGHT_HEADER, Stored(file, FLIGHT_HEADER_AT, FLIGHT_HEADER, vals, 11)) == vals
  {
    FlightHeaderLayout();
    StructRoundTrip(file, FLIGHT_HEADER_AT, FLIGHT_HEADER, PY_FLIGHT_HEADER, vals);
  }

  lemma MsptiHeaderRoundTrip(file: seq<Byte>, vals: seq<nat>)
    requires |file| == 128 && InRange(vals, MSPTI_HEADER)
    ensures SameLayout(MSPTI_HEADER_AT, MSPTI_HEADER, PY_MSPTI_HEADER) && Places(MSPTI_HEADER_AT, MSPTI_HEADER, 128)
    ensures Unpack(MSPTI_HEADER_AT, PY_MSPTI_HEADER, Stored(file, MSPTI_HEADER_AT, MSPTI_HEADER, vals, 10)) == vals
  {
    MsptiHeaderLayout();
    StructRoundTrip(file, MSPTI_HEADER_AT, MSPTI_HEADER, PY_MSPTI_HEADER, vals);
  }

  // ---- Flight events ----

  /** The fields of a flight_event in declaration order. */
  function EventFields(e: Event): seq<nat> {
    var b, c := e.body, e.body.call;
    [b.timestamp, e.seqno, b.pid, b.tid, b.device, b.rank, c.stream, c.kind, c.flags, c.corr, c.arg0, c.arg1]
  }

  /** The names read_events gives the unpacked values. */
  function EventOf(v: seq<nat>): Event
    requires |v| == 12
  {
    Rec(v[1], Body(v[0], v[2], v[3], v[4], v[5], Call(v[7], v[6], v[9], v[10], v[11], v[8])))
  }

  /** The enumerators of flight_type in declaration order; the first has value 1. */
  const ENUMERATORS := [
    "REQUEST_BEGIN", "REQUEST_END", "SCHEDULER_BEGIN", "SCHEDULER_END", "MODEL_BEGIN", "MODEL_END",
    "GRAPH_BEGIN", "GRAPH_END", "KV_BEGIN", "KV_END", "PP_SEND_BEGIN", "PP_SEND_END", "PP_RECV_BEGIN",
    "PP_RECV_END", "HCCL_BEGIN", "HCCL_END", "EVENT_RECORD", "EVENT_WAIT", "STREAM_SYNC_BEGIN",
    "STREAM_SYNC_END", "DEVICE_SYNC_BEGIN", "DEVICE_SYNC_END", "CHECKPOINT", "DEVICE_CONFIRMED"]

  /** The table of format.py. */
  const NAMES := [
    "UNKNOWN", "REQUEST_BEGIN", "REQUEST_END", "SCHEDULER_BEGIN", "SCHEDULER_END", "MODEL_BEGIN", "MODEL_END",
    "GRAPH_BEGIN", "GRAPH_END", "KV_BEGIN", "KV_END", "PP_SEND_BEGIN", "PP_SEND_END", "PP_RECV_BEGIN",
    "PP_RECV_END", "HCCL_BEGIN", "HCCL_END", "EVENT_RECORD", "EVENT_WAIT", "STREAM_SYNC_BEGIN",
    "STREAM_SYNC_END", "DEVICE_SYNC_BEGIN", "DEVICE_SYNC_END", "CHECKPOINT", "DEVICE_CONFIRMED"]

  datatype TypeName = Named(name: string) | Numbered(kind: nat)

  function NameOf(kind: nat): TypeName {
    if kind < |NAMES| then Named(NAMES[kind]) else Numbered(kind)
  }

  /** A stored flight event parses to itself, and its type to the name of the enumerator it was recorded
      with, whatever the slot held before. */
  lemma FlightEventRoundTrip(slot: seq<Byte>, e: Event)
    requires |slot| == 64 && InRange(EventFields(e), FLIGHT_EVENT)
    ensures SameLayout(FLIGHT_EVENT_AT, FLIGHT_EVENT, PY_FLIGHT_EVENT) && Places(FLIGHT_EVENT_AT, FLIGHT_EVENT, 64)
    ensures EventOf(Unpack(FLIGHT_EVENT_AT, PY_FLIGHT_EVENT, Stored(slot, FLIGHT_EVENT_AT, FLIGHT_EVENT, EventFields(e), 12))) == e
    ensures 1 <= e.body.call.kind <= |ENUMERATORS| ==> NameOf(e.body.call.kind) == Named(ENUMERATORS[e.body.call.kind - 1])
  {
    EventFieldsRoundTrip(slot, EventFields(e));
    SameNames(e.body.call.kind);
  }

  lemma EventFieldsRoundTrip(slot: seq<Byte>, vals: seq<nat>)
    requires |slot| == 64 && InRange(vals, FLIGHT_EVENT)
    ensures SameLayout(FLIGHT_EVENT_AT, FLIGHT_EVENT, PY_FLIGHT_EVENT) && Places(FLIGHT_EVENT_AT, FLIGHT_EVENT, 64)
    ensures Unpack(FLIGHT_EVENT_AT, PY_FLIGHT_EVENT, Stored(slot, FLIGHT_EVENT_AT, FLIGHT_EVENT, vals, 12)) == vals
  {
    FlightEventLayout();
    StructRoundTrip(slot, FLIGHT_EVENT_AT, FLIGHT_EVENT, PY_FLIGHT_EVENT, vals);
  }

  lemma SameNames(kind: nat)
    ensures 1 <= kind <= |ENUMERATORS| ==> kind < |NAMES| && NAMES[kind] == ENUMERATORS[kind - 1]
  {}

  // ---- Labels ----

  /** The source's own length: bytes before the first NUL. */
  function Text(s: seq<Byte>): (t: seq<Byte>)
    ensures |t| <= |s| && t == s[..|t|] && 0 !in t && (|t| < |s| ==> s[|t|] == 0)
  {
    if s == [] || s[0] == 0 then [] else [s[0]] + Text(s[1..])
  }

  /** The first 63 bytes of a label. */
  function Truncated(src: Option<seq<Byte>>): (t: seq<Byte>)
    ensures |t| <= 63 && 0 !in t
    ensures src.None? ==> t == []
    ensures src.Some? ==> t <= src.value && (|t| == 63 || |t| == |src.value| || src.value[|t|] == 0)
  {
    if src.None? then [] else if |Text(src.value)| <= 63 then Text(src.value) else Text(src.value)[..63]
  }

  /** The field after the copy; bytes behind the NUL stay as they were. */
  function Copied(stale: seq<Byte>, src: Option<seq<Byte>>): (r: seq<Byte>)
    requires |stale| == 64
    ensures |r| == 64 && Truncated(src) + [0] <= r
    ensures forall i :: |Truncated(src)| < i < 64 ==> r[i] == stale[i]
  {
    var t := Truncated(src);
    t + [0] + stale[|t| + 1..]
  }

  method StrnLen(s: seq<Byte>, max: nat) returns (n: nat)
    requires 0 in s || |s| >= max
    ensures n == if |Text(s)| <= max then |Text(s)| else max
  {
    n := 0;
    while n < max && s[n] != 0
      invariant n <= max && n <= |Text(s)|
    {
      n := n + 1;
    }
  }

  /** name_copy. A string is its bytes up to and including the NUL, or at least 63 bytes without one. */
  method NameCopy(dst: array<Byte>, src: Option<seq<Byte>>)
    requires dst.Length == 64 && (src.Some? ==> 0 in src.value || |src.value| >= 63)
    modifies dst
    ensures dst[..] == Copied(old(dst[..]), src)
  {
    if src.None? {
      dst[0] := 0;
      assert dst[..] == Copied(old(dst[..]), src);
      return;
    }
    var n := StrnLen(src.value, 63);
    assert Truncated(src) == src.value[..n];
    var i := 0;
    while i < n
      invariant i <= n && dst[..i] == src.value[..i]
      invariant forall k :: i <= k < 64 ==> dst[k] == old(dst[k])
    {
      dst[i] := src.value[i];
      i := i + 1;
    }
    dst[n] := 0;
    assert dst[..] == Copied(old(dst[..]), src);
  }

  /** raw.split(b"\0", 1)[0] reads back at most the first 63 bytes of the label, nothing for a null
      pointer, whatever the field held before. */
  lemma LabelReadsBack(stale: seq<Byte>, src: Option<seq<Byte>>)
    requires |stale| == 64
    ensures Text(Copied(stale, src)) == Truncated(src)
  {
    var t := Truncated(src);
    TextIs(t, stale[|t| + 1..]);
  }

  lemma {:induction false} TextIs(t: seq<Byte>, rest: seq<Byte>)
    requires 0 !in t
    ensures Text(t + [0] + rest) == t
  {
    if t != [] {
      TextIs(t[1..], rest);
      assert (t + [0] + rest)[1..] == t[1..] + [0] + rest;
    }
  }

  // ---- msPTI events ----

  /** hang_event with the two labels as its writer was given them. */
  datatype HangEvent = HangEvent(scalars: seq<nat>, name: Option<seq<Byte>>, detail: Option<seq<Byte>>)

  /** What read_ring makes of an event's bytes. */
  datatype HangRecord = HangRecord(scalars: seq<nat>, name: seq<Byte>, detail: seq<Byte>)

  /** Version 1 events end behind the first label. */
  function EventSize(version: nat): nat {
    if version == 2 then 192 else 128
  }

  /** The kinds the analysis tells apart have, in the table, the names the analyzer asks for. */
  lemma KindsAreNamed()
    ensures NameOf(HCCL_BEGIN) == Named("HCCL_BEGIN") && NameOf(16) == Named("HCCL_END")
    ensures NameOf(EVENT_RECORD) == Named("EVENT_RECORD") && NameOf(EVENT_WAIT) == Named("EVENT_WAIT")
    ensures NameOf(CHECKPOINT) == Named("CHECKPOINT") && NameOf(DEVICE_CONFIRMED) == Named("DEVICE_CONFIRMED")
  {}

  /** Members of 2, 4 and 8 bytes hold every value of their type. */
  lemma RangesAreTypes()
    ensures Range(2) == 0x1_0000 && Range(4) == 0x1_0000_0000 && Range(8) == 0x1_0000_0000_0000_0000
  {
    assert Range(1) == 256 && Range(3) == 0x100_0000;
    assert Range(5) == 0x100_0000_0000 && Range(6) == 0x1_0000_0000_0000;
  }

  /** The sizes the readers ask for are those of the structs: scalars, then one or two labels of 64 bytes. */
  lemma SizesAgree()
    ensures FLIGHT_EVENT_AT[11] + FLIGHT_EVENT[11] == 64 && MSPTI_EVENT_AT[11] + MSPTI_EVENT[11] == 64
    ensures EventSize(1) == 64 + 64 == 128 && EventSize(2) == 64 + 64 + 64 == 192
  {}

  function StoreHang(slot: seq<Byte>, e: HangEvent, version: nat): (r: seq<Byte>)
    requires |slot| == EventSize(version) && Places(MSPTI_EVENT_AT, MSPTI_EVENT, 64) && InRange(e.scalars, MSPTI_EVENT)
    ensures |r| == |slot|
  {
    Stored(slot[..64], MSPTI_EVENT_AT, MSPTI_EVENT, e.scalars, 12) + Copied(slot[64..128], e.name)
    + if version == 2 then Copied(slot[128..], e.detail) else []
  }

  function ReadHang(raw: seq<Byte>, version: nat): HangRecord
    requires |raw| == EventSize(version)
  {
    HangRecord(Unpack(MSPTI_EVENT_AT, PY_MSPTI_EVENT, raw[..64]), Text(raw[64..128]),
               if version == 2 then Text(raw[128..192]) else [])
  }

  /** An msPTI event of either version reads back with its scalars, and with the labels it has cut to 63
      bytes, whatever the slot held before. */
  lemma HangEventRoundTrip(slot: seq<Byte>, e: HangEvent, version: nat)
    requires |slot| == EventSize(version) && InRange(e.scalars, MSPTI_EVENT)
    ensures SameLayout(MSPTI_EVENT_AT, MSPTI_EVENT, PY_MSPTI_EVENT) && Places(MSPTI_EVENT_AT, MSPTI_EVENT, 64)
    ensures ReadHang(StoreHang(slot, e, version), version) ==
            HangRecord(e.scalars, Truncated(e.name), if version == 2 then Truncated(e.detail) else [])
  {
    MsptiEventLayout();
    StructRoundTrip(slot[..64], MSPTI_EVENT_AT, MSPTI_EVENT, PY_MSPTI_EVENT, e.scalars);
    LabelReadsBack(slot[64..128], e.name);
    var last := if version == 2 then Copied(slot[128..], e.detail) else [];
    if version == 2 { LabelReadsBack(slot[128..], e.detail); }
    Slices(Stored(slot[..64], MSPTI_EVENT_AT, MSPTI_EVENT, e.scalars, 12), Copied(slot[64..128], e.name), last);
  }

  lemma Slices(a: seq<Byte>, b: seq<Byte>, c: seq<Byte>)
    requires |a| == |b| == 64
    ensures (a + b + c)[..64] == a && (a + b + c)[64..128] == b && (a + b + c)[128..] == c
    ensures |c| == 64 ==> (a + b + c)[128..192] == c
  {}
}
