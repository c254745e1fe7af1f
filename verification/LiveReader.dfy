/** `read_ring` on a ring that writers are still using: every load of the reader is a step that may
    fall between any two steps of any writer. */
module LiveReader {
  import opened Records
  import opened RingReaders
  import opened RingProtocol
  import opened ModArith

  /** The reader's locals. `phase` 0 is the load before unpacking, 1 the sequence word of the unpacked
      copy, 2+k its k-th payload word, width+2 the load after. `already` is a history variable: the
      numbers published when the header was read. */
  datatype Reader = Reader(written: nat, cur: nat, phase: nat, same: bool, got: seq<int>,
                           events: seq<Rec<seq<int>>>, already: set<nat>)

  datatype Watch = Watch(ring: Ring, rd: Reader)

  datatype Step = Write(a: Action) | Read

  /** The numbers published so far. */
  function Already(r: Ring): set<nat>
    requires Shape(r)
  {
    set i | 0 <= i < |r.pc| && Done(r, i) :: i + 1
  }

  function Start(r: Ring): Watch
    requires Shape(r)
  {
    Watch(r, Reader(|r.log|, Lower(r.cap, |r.log|), 0, false, [], [], Already(r)))
  }

  predicate WatchShape(w: Watch) {
    Shape(w.ring) && w.rd.cur >= 1 && w.rd.phase <= w.ring.width + 2
  }

  predicate Finished(w: Watch) {
    w.rd.cur > w.rd.written
  }

  predicate CanStep(w: Watch, s: Step)
    requires WatchShape(w)
  {
    match s
    case Write(a) => Orderly(w.ring, a)
    case Read => !Finished(w)
  }

  function Load(w: Watch): Rec<seq<int>>
    requires WatchShape(w)
  {
    w.ring.cells[SlotOf(w.ring, w.rd.cur - 1)]
  }

  function ReadStep(w: Watch): Reader
    requires WatchShape(w)
  {
    var rd := w.rd;
    var cell := Load(w);
    if rd.phase == 0 then
      if cell.seqno == rd.cur then rd.(phase := 1) else rd.(cur := rd.cur + 1)
    else if rd.phase == 1 then
      rd.(phase := 2, same := cell.seqno == rd.cur, got := [])
    else if rd.phase < w.ring.width + 2 then
      rd.(phase := rd.phase + 1, got := rd.got + [cell.body[rd.phase - 2]])
    else
      rd.(phase := 0, cur := rd.cur + 1,
          events := if rd.same && cell.seqno == rd.cur then rd.events + [Rec(rd.cur, rd.got)] else rd.events)
  }

  function Do(w: Watch, s: Step): (w': Watch)
    requires WatchShape(w) && CanStep(w, s)
    ensures WatchShape(w') && w'.ring.cap == w.ring.cap && w'.rd.written == w.rd.written
    ensures w'.rd.already == w.rd.already
  {
    match s
    case Write(a) => Watch(Apply(w.ring, a), w.rd)
    case Read => Watch(w.ring, ReadStep(w))
  }

  ghost predicate IsSession(w: Watch, steps: seq<Step>)
    requires WatchShape(w)
    decreases |steps|
  {
    steps == [] || (CanStep(w, steps[0]) && IsSession(Do(w, steps[0]), steps[1..]))
  }

  function After(w: Watch, steps: seq<Step>): (w': Watch)
    requires WatchShape(w) && IsSession(w, steps)
    ensures WatchShape(w') && w'.ring.cap == w.ring.cap && w'.rd.written == w.rd.written
    ensures w'.rd.already == w.rd.already
    decreases |steps|
  {
    if steps == [] then w else After(Do(w, steps[0]), steps[1..])
  }

  // ---- Invariant ----

  /** Nothing has claimed the slot of number `sn` again. */
  predicate Undisturbed(r: Ring, sn: nat) {
    |r.log| < sn + r.cap
  }

  predicate Whole(r: Ring, e: Rec<seq<int>>) {
    1 <= e.seqno <= |r.log| && e.body == r.log[e.seqno - 1]
  }

  /** The candidate being copied: its call had published, and as long as the slot still carries the
      number, the words copied so far are its own. */
  predicate Copying(w: Watch)
    requires WatchShape(w)
  {
    var rd := w.rd;
    var r := w.ring;
    rd.phase > 0 ==>
      && rd.cur <= |r.log| && Done(r, rd.cur - 1)
      && (rd.phase >= 2 ==> |rd.got| == rd.phase - 2)
      && (rd.phase >= 2 && Load(w).seqno == rd.cur ==> rd.got == r.log[rd.cur - 1][..rd.phase - 2])
      && (rd.phase >= 2 && Undisturbed(r, rd.cur) ==> rd.same)
  }

  /** Every accepted record is the claimant's own. */
  ghost predicate Sound(w: Watch) {
    && Increasing(w.rd.events)
    && forall e :: e in w.rd.events ==> Lower(w.ring.cap, w.rd.written) <= e.seqno < w.rd.cur && Whole(w.ring, e)
  }

  /** Every number already passed that was published at the start and left alone has been accepted. */
  ghost predicate Complete(w: Watch) {
    && (forall sn :: sn in w.rd.already ==> 1 <= sn <= |w.ring.log| && sn <= |w.ring.pc| && Done(w.ring, sn - 1))
    && (forall sn | sn in w.rd.already && Lower(w.ring.cap, w.rd.written) <= sn < w.rd.cur && Undisturbed(w.ring, sn) ::
          Rec(sn, w.ring.log[sn - 1]) in w.rd.events)
  }

  ghost predicate WatchInv(w: Watch) {
    && Inv(w.ring) && WatchShape(w)
    && w.rd.written <= |w.ring.log|
    && Lower(w.ring.cap, w.rd.written) <= w.rd.cur <= w.rd.written + 1
    && (Finished(w) ==> w.rd.phase == 0)
    && Copying(w) && Sound(w) && Complete(w)
  }

  lemma {:induction false} LastUser(r: Ring, i: nat) returns (j: nat)
    requires Shape(r) && i < |r.log|
    ensures InWindow(r, j) && SlotOf(r, j) == SlotOf(r, i)
    ensures j == i || j >= i + r.cap
    decreases |r.log| - i
  {
    if i + r.cap < |r.log| {
      ModAdd(i, r.cap);
      j := LastUser(r, i + r.cap);
    } else {
      j := i;
    }
  }

  /** A slot that carries number `sn` holds the whole payload of `sn`. */
  lemma NumberMeansPayload(r: Ring, sn: nat)
    requires Inv(r) && 1 <= sn <= |r.log| && r.cells[SlotOf(r, sn - 1)].seqno == sn
    ensures Done(r, sn - 1) && r.cells[SlotOf(r, sn - 1)] == Rec(sn, r.log[sn - 1])
  {
    var j := LastUser(r, sn - 1);
    assert CellOf(r, j);
  }

  /** A published number stays in its slot until the slot is claimed again. */
  lemma PublishedStays(r: Ring, sn: nat)
    requires Inv(r) && 1 <= sn <= |r.log| && Done(r, sn - 1) && Undisturbed(r, sn)
    ensures r.cells[SlotOf(r, sn - 1)] == Rec(sn, r.log[sn - 1])
  {
    assert InWindow(r, sn - 1) && CellOf(r, sn - 1);
  }

  lemma WriteKeepsCopying(w: Watch, a: Action)
    requires WatchInv(w) && CanStep(w, Write(a))
    ensures Copying(Do(w, Write(a)))
  {}

  lemma WriteKeepsInv(w: Watch, a: Action)
    requires WatchInv(w) && CanStep(w, Write(a))
    ensures WatchInv(Do(w, Write(a)))
  {
    StepKeepsInv(w.ring, a);
    WriteKeepsCopying(w, a);
  }

  lemma ReadKeepsCopying(w: Watch)
    requires WatchInv(w) && CanStep(w, Read)
    ensures Copying(Do(w, Read))
  {
    var rd, r := w.rd, w.ring;
    if Load(w).seqno == rd.cur { NumberMeansPayload(r, rd.cur); }
    if rd.phase == 1 && Undisturbed(r, rd.cur) { PublishedStays(r, rd.cur); }
  }

  lemma ReadKeepsSound(w: Watch)
    requires WatchInv(w) && CanStep(w, Read)
    ensures Sound(Do(w, Read))
  {
    var rd := w.rd;
    if rd.phase == w.ring.width + 2 && rd.same && Load(w).seqno == rd.cur {
      AcceptedIsWhole(w);
      AppendIncreasing(rd.events, Rec(rd.cur, rd.got));
    } else {
      assert Do(w, Read).rd.events == rd.events && Do(w, Read).ring == w.ring;
    }
  }

  lemma AcceptedIsWhole(w: Watch)
    requires WatchInv(w) && CanStep(w, Read)
    requires w.rd.phase == w.ring.width + 2 && Load(w).seqno == w.rd.cur
    ensures Whole(w.ring, Rec(w.rd.cur, w.rd.got))
  {}

  lemma ReadGoesOn(w: Watch)
    requires WatchShape(w) && CanStep(w, Read)
    ensures var rd' := ReadStep(w);
      && rd'.already == w.rd.already && rd'.written == w.rd.written && w.rd.cur <= rd'.cur <= w.rd.cur + 1
      && forall e :: e in w.rd.events ==> e in rd'.events
  {}

  /** The reader does not pass a number that was published at the start and stood still without it. */
  lemma PassedIsAccepted(w: Watch)
    requires WatchInv(w) && CanStep(w, Read) && w.rd.cur in w.rd.already && Undisturbed(w.ring, w.rd.cur)
    requires ReadStep(w).cur == w.rd.cur + 1
    ensures Rec(w.rd.cur, w.ring.log[w.rd.cur - 1]) in ReadStep(w).events
  {
    PublishedStays(w.ring, w.rd.cur);
    assert w.rd.phase == w.ring.width + 2;
    assert w.rd.got == w.ring.log[w.rd.cur - 1];
  }

  lemma ReadKeepsComplete(w: Watch)
    requires WatchInv(w) && CanStep(w, Read)
    ensures Complete(Do(w, Read))
  {
    ReadGoesOn(w);
    var rd, r, rd' := w.rd, w.ring, ReadStep(w);
    forall sn | sn in rd.already && Lower(r.cap, rd.written) <= sn < rd'.cur && Undisturbed(r, sn)
      ensures Rec(sn, r.log[sn - 1]) in rd'.events
    {
      if sn == rd.cur { PassedIsAccepted(w); }
    }
  }

  lemma StepKeepsWatch(w: Watch, s: Step)
    requires WatchInv(w) && CanStep(w, s)
    ensures WatchInv(Do(w, s))
  {
    match s
    case Write(a) => WriteKeepsInv(w, a);
    case Read =>
      ReadKeepsCopying(w);
      ReadKeepsSound(w);
      ReadKeepsComplete(w);
  }

  lemma StartInv(r: Ring)
    requires Inv(r)
    ensures WatchInv(Start(r))
  {}

  lemma {:induction false} SessionKeepsInv(w: Watch, steps: seq<Step>)
    requires WatchInv(w) && IsSession(w, steps)
    ensures WatchInv(After(w, steps))
    decreases |steps|
  {
    if steps != [] {
      StepKeepsWatch(w, steps[0]);
      SessionKeepsInv(Do(w, steps[0]), steps[1..]);
    }
  }

  /** A live read is never torn: whenever, in any interleaving with orderly writers, the reader has
      accepted a record, its words are those the claimant of that number passed. */
  lemma NeverTorn(r: Ring, prefix: seq<Action>, steps: seq<Step>)
    requires Init(r) && IsOrderlyRun(r, prefix) && IsRun(r, prefix)
    requires IsSession(Start(Exec(r, prefix)), steps)
    ensures var w := After(Start(Exec(r, prefix)), steps);
      && Increasing(w.rd.events)
      && w.rd.written == |Exec(r, prefix).log| <= |w.ring.log|
      && forall e :: e in w.rd.events ==>
           1 <= e.seqno <= w.rd.written < e.seqno + w.ring.cap && e.body == w.ring.log[e.seqno - 1]
  {
    InitInv(r);
    RunKeepsInv(r, prefix);
    StartInv(Exec(r, prefix));
    SessionKeepsInv(Start(Exec(r, prefix)), steps);
  }

  /** A live read is complete: once it has finished, it has returned every number that was published when it
      read the header and is still one of the last `cap` claimed, so that nobody has claimed its slot since. */
  lemma NothingMissed(r: Ring, prefix: seq<Action>, steps: seq<Step>, sn: nat)
    requires Init(r) && IsOrderlyRun(r, prefix) && IsRun(r, prefix)
    requires IsSession(Start(Exec(r, prefix)), steps)
    requires Finished(After(Start(Exec(r, prefix)), steps))
    requires 1 <= sn <= |Exec(r, prefix).log| && Done(Exec(r, prefix), sn - 1)
    requires |After(Start(Exec(r, prefix)), steps).ring.log| < sn + r.cap
    ensures sn <= |After(Start(Exec(r, prefix)), steps).ring.log|
    ensures var w := After(Start(Exec(r, prefix)), steps); Rec(sn, w.ring.log[sn - 1]) in w.rd.events
  {
    InitInv(r);
    RunKeepsInv(r, prefix);
    var w := Start(Exec(r, prefix));
    StartInv(Exec(r, prefix));
    assert sn in w.rd.already;
    SessionKeepsInv(w, steps);
    assert Undisturbed(After(w, steps).ring, sn);
  }
}
