/** A copy of a ring file that writers are still using, taken word by word from front to back, and what
    the slot-scanning reader makes of it. */
module LiveCopy {
  import opened Records
  import opened RingReaders
  import opened RingProtocol
  import opened ModArith
  import Live = LiveReader

  /** `written` is the header's write_seq, loaded first. Slots 0 to `slot` - 1 are copied into `cells`.
      Of the current slot `phase` words are loaded: `ahead` payload words, then the number, then the other
      payload words. `quiet` is history: nothing has been stored to the current slot since its first word
      was loaded. `torn` collects the slots that were stored to while they were copied. */
  datatype Copier = Copier(ahead: nat, written: nat, slot: nat, phase: nat, seqno: nat, got: seq<int>, quiet: bool,
                           cells: seq<Rec<seq<int>>>, torn: set<nat>)

  datatype Copy = Copy(ring: Ring, c: Copier)

  datatype Step = Write(a: Action) | Load

  function Start(r: Ring, ahead: nat): Copy {
    Copy(r, Copier(ahead, |r.log|, 0, 0, 0, [], true, [], {}))
  }

  predicate Copied(w: Copy) {
    w.c.slot >= w.ring.cap
  }

  /** How many payload words of the current slot are loaded. */
  function Words(c: Copier): nat {
    if c.phase <= c.ahead then c.phase else c.phase - 1
  }

  predicate CopyShape(w: Copy) {
    && Shape(w.ring) && w.c.ahead <= w.ring.width && w.c.slot <= w.ring.cap && |w.c.cells| == w.c.slot
    && w.c.phase <= w.ring.width && |w.c.got| == Words(w.c) && (Copied(w) ==> w.c.phase == 0)
  }

  predicate CanStep(w: Copy, s: Step)
    requires CopyShape(w)
  {
    match s
    case Write(a) => Orderly(w.ring, a)
    case Load => !Copied(w)
  }

  /** The store goes to the slot that is being copied. */
  predicate Hits(w: Copy, a: Action)
    requires CopyShape(w) && Enabled(w.ring, a)
  {
    a.Advance? && SlotOf(w.ring, a.sn - 1) == w.c.slot && w.c.phase > 0
  }

  /** The word loaded next is the number. */
  predicate AtNumber(c: Copier) {
    c.phase == c.ahead
  }

  /** One word is loaded; the last one completes the slot. */
  function LoadStep(w: Copy): (c: Copier)
    requires CopyShape(w) && !Copied(w)
  {
    var c, cell := w.c, w.ring.cells[w.c.slot];
    var seqno := if AtNumber(c) then cell.seqno else c.seqno;
    var got := if AtNumber(c) then c.got else c.got + [cell.body[Words(c)]];
    if c.phase < w.ring.width then c.(phase := c.phase + 1, seqno := seqno, got := got)
    else c.(slot := c.slot + 1, phase := 0, seqno := 0, got := [], quiet := true, cells := c.cells + [Rec(seqno, got)],
            torn := if c.quiet then c.torn else c.torn + {c.slot})
  }

  function Do(w: Copy, s: Step): (w': Copy)
    requires CopyShape(w) && CanStep(w, s)
    ensures CopyShape(w') && w'.ring.cap == w.ring.cap && w'.ring.width == w.ring.width
    ensures w'.c.ahead == w.c.ahead && w'.c.written == w.c.written
  {
    match s
    case Write(a) => Copy(Apply(w.ring, a), if Hits(w, a) then w.c.(quiet := false) else w.c)
    case Load => Copy(w.ring, LoadStep(w))
  }

  ghost predicate IsSession(w: Copy, steps: seq<Step>)
    requires CopyShape(w)
    decreases |steps|
  {
    steps == [] || (CanStep(w, steps[0]) && IsSession(Do(w, steps[0]), steps[1..]))
  }

  function After(w: Copy, steps: seq<Step>): (w': Copy)
    requires CopyShape(w) && IsSession(w, steps)
    ensures CopyShape(w') && w'.ring.cap == w.ring.cap && w'.ring.width == w.ring.width
    ensures w'.c.ahead == w.c.ahead && w'.c.written == w.c.written
    decreases |steps|
  {
    if steps == [] then w else After(Do(w, steps[0]), steps[1..])
  }

  /** What read_events returns for the finished copy. */
  function Events(c: Copier, cap: nat): seq<Rec<seq<int>>> {
    SlotScan(c.cells, cap, c.written)
  }

  // ---- Invariant ----

  /** While nothing has been stored to it, the loaded words are those the slot still holds. */
  predicate Loaded(w: Copy)
    requires CopyShape(w)
  {
    w.c.quiet && w.c.phase > 0 ==>
      var cell := w.ring.cells[w.c.slot];
      w.c.got == cell.body[..Words(w.c)] && (w.c.phase > w.c.ahead ==> w.c.seqno == cell.seqno)
  }

  /** A copied slot that nothing was stored to carries, if the reader accepts it, its claimant's payload. */
  predicate GoodSlot(w: Copy, k: nat)
    requires CopyShape(w)
  {
    k < w.c.slot && k !in w.c.torn && Accepts(w.ring.cap, w.c.written, k, w.c.cells[k]) ==> Live.Whole(w.ring, w.c.cells[k])
  }

  /** A number published when the copy began, and not claimed again, is copied whole. */
  predicate KeptNumber(w: Copy, already: set<nat>, sn: nat)
    requires CopyShape(w)
  {
    sn in already && Lower(w.ring.cap, w.c.written) <= sn <= w.c.written && Live.Undisturbed(w.ring, sn) ==>
      && 1 <= sn <= |w.ring.log| && Done(w.ring, sn - 1)
      && (SlotOf(w.ring, sn - 1) < w.c.slot ==> w.c.cells[SlotOf(w.ring, sn - 1)] == Rec(sn, w.ring.log[sn - 1]))
      && (SlotOf(w.ring, sn - 1) == w.c.slot ==> w.c.quiet)
  }

  ghost predicate CopyInv(w: Copy, already: set<nat>) {
    && Inv(w.ring) && CopyShape(w) && w.c.written <= |w.ring.log| && (w.c.phase == 0 ==> w.c.quiet)
    && Loaded(w) && (forall k :: GoodSlot(w, k)) && (forall sn :: KeptNumber(w, already, sn))
  }

  lemma StartInv(r: Ring, ahead: nat)
    requires Inv(r) && ahead <= r.width
    ensures CopyInv(Start(r, ahead), Live.Already(r))
  {}

  /** Writers only add to the log, and undo no publication. */
  lemma WriteAdds(r: Ring, a: Action)
    requires Shape(r) && Enabled(r, a)
    ensures |r.log| <= |Apply(r, a).log| && Apply(r, a).log[..|r.log|] == r.log
    ensures forall i :: 0 <= i < |r.log| && Done(r, i) ==> Done(Apply(r, a), i)
  {}

  /** Nobody can store to the slot of a published number that has not been claimed again. */
  lemma PublishedSlotIsQuiet(r: Ring, sn: nat, a: Action)
    requires Inv(r) && Enabled(r, a) && 1 <= sn <= |r.log| && Done(r, sn - 1) && Live.Undisturbed(r, sn)
    ensures a.Advance? ==> SlotOf(r, a.sn - 1) != SlotOf(r, sn - 1)
  {
    if a.Advance? {
      if a.sn < sn {
        if sn < a.sn + r.cap { ModDiffers(r.cap, a.sn - 1, sn - 1); }
      } else if a.sn > sn {
        ModDiffers(r.cap, sn - 1, a.sn - 1);
      }
    }
  }

  lemma WriteKeepsLoaded(w: Copy, a: Action)
    requires CopyShape(w) && CanStep(w, Write(a)) && Loaded(w)
    ensures Loaded(Do(w, Write(a)))
  {}

  lemma WriteKeepsSlot(w: Copy, a: Action, k: nat)
    requires CopyShape(w) && CanStep(w, Write(a)) && GoodSlot(w, k)
    ensures GoodSlot(Do(w, Write(a)), k)
  {
    WriteAdds(w.ring, a);
  }

  lemma WriteKeepsNumber(w: Copy, already: set<nat>, a: Action, sn: nat)
    requires CopyShape(w) && Inv(w.ring) && CanStep(w, Write(a)) && KeptNumber(w, already, sn)
    ensures KeptNumber(Do(w, Write(a)), already, sn)
  {
    WriteAdds(w.ring, a);
    if sn in already && Lower(w.ring.cap, w.c.written) <= sn <= w.c.written && Live.Undisturbed(Apply(w.ring, a), sn) {
      PublishedSlotIsQuiet(w.ring, sn, a);
    }
  }

  lemma WriteKeepsInv(w: Copy, already: set<nat>, a: Action)
    requires CopyInv(w, already) && CanStep(w, Write(a))
    ensures CopyInv(Do(w, Write(a)), already)
  {
    StepKeepsInv(w.ring, a);
    WriteAdds(w.ring, a);
    WriteKeepsLoaded(w, a);
    forall k: nat ensures GoodSlot(Do(w, Write(a)), k) { WriteKeepsSlot(w, a, k); }
    forall sn: nat ensures KeptNumber(Do(w, Write(a)), already, sn) { WriteKeepsNumber(w, already, a, sn); }
  }

  lemma LoadKeepsLoaded(w: Copy)
    requires CopyShape(w) && !Copied(w) && Loaded(w) && (w.c.phase == 0 ==> w.c.quiet)
    ensures Loaded(Do(w, Load))
  {
    var cell, n := w.ring.cells[w.c.slot], Words(w.c);
    if !AtNumber(w.c) { assert cell.body[..n + 1] == cell.body[..n] + [cell.body[n]]; }
  }

  /** The last load of a slot that nothing was stored to completes a copy of what it holds. */
  lemma LastLoad(w: Copy)
    requires CopyShape(w) && !Copied(w) && Loaded(w) && w.c.quiet && w.c.phase == w.ring.width
    ensures LoadStep(w).cells == w.c.cells + [w.ring.cells[w.c.slot]]
  {
    var cell, n := w.ring.cells[w.c.slot], Words(w.c);
    assert cell.body[..w.ring.width] == cell.body;
    if !AtNumber(w.c) { assert cell.body[..n + 1] == cell.body[..n] + [cell.body[n]]; }
    assert cell == Rec(cell.seqno, cell.body);
  }

  lemma LoadKeepsSlot(w: Copy, already: set<nat>, k: nat)
    requires CopyInv(w, already) && !Copied(w)
    ensures GoodSlot(Do(w, Load), k)
  {
    assert GoodSlot(w, k);
    if k == w.c.slot && w.c.phase == w.ring.width && w.c.quiet {
      LastLoad(w);
      var cell := w.ring.cells[k];
      if Accepts(w.ring.cap, w.c.written, k, cell) { Live.NumberMeansPayload(w.ring, cell.seqno); }
    }
  }

  lemma LoadKeepsNumber(w: Copy, already: set<nat>, sn: nat)
    requires CopyInv(w, already) && !Copied(w)
    ensures KeptNumber(Do(w, Load), already, sn)
  {
    assert KeptNumber(w, already, sn);
    if sn in already && Lower(w.ring.cap, w.c.written) <= sn <= w.c.written && Live.Undisturbed(w.ring, sn) {
      if SlotOf(w.ring, sn - 1) == w.c.slot && w.c.phase == w.ring.width {
        LastLoad(w);
        Live.PublishedStays(w.ring, sn);
      }
    }
  }

  lemma LoadKeepsInv(w: Copy, already: set<nat>)
    requires CopyInv(w, already) && !Copied(w)
    ensures CopyInv(Do(w, Load), already)
  {
    LoadKeepsLoaded(w);
    forall k: nat ensures GoodSlot(Do(w, Load), k) { LoadKeepsSlot(w, already, k); }
    forall sn: nat ensures KeptNumber(Do(w, Load), already, sn) { LoadKeepsNumber(w, already, sn); }
  }

  lemma {:induction false} SessionKeepsInv(w: Copy, already: set<nat>, steps: seq<Step>)
    requires CopyInv(w, already) && IsSession(w, steps)
    ensures CopyInv(After(w, steps), already)
    decreases |steps|
  {
    if steps != [] {
      match steps[0] {
        case Write(a) => WriteKeepsInv(w, already, a);
        case Load => LoadKeepsInv(w, already);
      }
      SessionKeepsInv(Do(w, steps[0]), already, steps[1..]);
    }
  }

  // ---- What the reader gets ----

  /** Somewhere in the session a writer stores to slot `k` while some but not all of its words are loaded. */
  ghost predicate StoredTo(w: Copy, steps: seq<Step>, k: nat)
    requires CopyShape(w) && IsSession(w, steps)
    decreases |steps|
  {
    steps != [] &&
    (|| (w.c.slot == k && 0 < w.c.phase && steps[0].Write? && steps[0].a.Advance? && (steps[0].a.sn - 1) % w.ring.cap == k)
     || StoredTo(Do(w, steps[0]), steps[1..], k))
  }

  /** Only such slots are counted as torn. */
  lemma {:induction false} TornWasStored(w: Copy, steps: seq<Step>, k: nat)
    requires CopyShape(w) && IsSession(w, steps)
    requires k !in w.c.torn && (w.c.slot == k ==> w.c.quiet) && !StoredTo(w, steps, k)
    ensures k !in After(w, steps).c.torn
    decreases |steps|
  {
    if steps != [] { TornWasStored(Do(w, steps[0]), steps[1..], k); }
  }

  /** A record the reader returns is whole unless its slot was stored to while it was copied. */
  lemma WholeUnlessStored(r: Ring, ahead: nat, steps: seq<Step>, e: Rec<seq<int>>)
    requires Inv(r) && ahead <= r.width && IsSession(Start(r, ahead), steps) && Copied(After(Start(r, ahead), steps))
    requires e in Events(After(Start(r, ahead), steps).c, r.cap)
    requires !StoredTo(Start(r, ahead), steps, (e.seqno - 1) % r.cap)
    ensures 1 <= e.seqno <= |r.log| < e.seqno + r.cap && |r.log| <= |After(Start(r, ahead), steps).ring.log|
    ensures e.body == After(Start(r, ahead), steps).ring.log[e.seqno - 1]
  {
    StartInv(r, ahead);
    SessionKeepsInv(Start(r, ahead), Live.Already(r), steps);
    var w := After(Start(r, ahead), steps);
    SlotScanMembers(w.c.cells, r.cap, w.c.written);
    TornWasStored(Start(r, ahead), steps, (e.seqno - 1) % r.cap);
    assert GoodSlot(w, (e.seqno - 1) % r.cap);
  }

  /** Every number that was published when the copy began and is one of the last `cap` claimed when it ends,
      so that nobody has claimed its slot since, is returned whole. */
  lemma NothingMissed(r: Ring, ahead: nat, steps: seq<Step>, sn: nat)
    requires Inv(r) && ahead <= r.width && IsSession(Start(r, ahead), steps) && Copied(After(Start(r, ahead), steps))
    requires 1 <= sn <= |r.log| && Done(r, sn - 1) && |After(Start(r, ahead), steps).ring.log| < sn + r.cap
    ensures var w := After(Start(r, ahead), steps); sn <= |w.ring.log| && Rec(sn, w.ring.log[sn - 1]) in Events(w.c, r.cap)
  {
    StartInv(r, ahead);
    SessionKeepsInv(Start(r, ahead), Live.Already(r), steps);
    var w := After(Start(r, ahead), steps);
    assert sn in Live.Already(r) && KeptNumber(w, Live.Already(r), sn);
    CopiedIsReturned(w, sn, Rec(sn, w.ring.log[sn - 1]));
  }

  lemma CopiedIsReturned(w: Copy, sn: nat, e: Rec<seq<int>>)
    requires CopyShape(w) && Copied(w) && Lower(w.ring.cap, w.c.written) <= sn <= w.c.written && sn >= 1
    requires e.seqno == sn && w.c.cells[SlotOf(w.ring, sn - 1)] == e
    ensures e in Events(w.c, w.ring.cap)
  {
    SlotScanMembers(w.c.cells, w.ring.cap, w.c.written);
    assert RingReaders.Live(w.c.cells, w.ring.cap, w.c.written, e);
  }

  // ---- Writers and copier together ----

  function Writes(acts: seq<Action>): (steps: seq<Step>)
    ensures |steps| == |acts| && forall i :: 0 <= i < |acts| ==> steps[i] == Write(acts[i])
  {
    seq(|acts|, i requires 0 <= i < |acts| => Write(acts[i]))
  }

  /** What the writers do in a session. */
  function WritesOf(steps: seq<Step>): seq<Action> {
    if steps == [] then [] else (if steps[0].Write? then [steps[0].a] else []) + WritesOf(steps[1..])
  }

  lemma {:induction false} WritersRun(w: Copy, steps: seq<Step>)
    requires CopyShape(w) && IsSession(w, steps)
    ensures IsOrderlyRun(w.ring, WritesOf(steps)) && IsRun(w.ring, WritesOf(steps))
    ensures After(w, steps).ring == Exec(w.ring, WritesOf(steps))
    decreases |steps|
  {
    if steps != [] {
      WritersRun(Do(w, steps[0]), steps[1..]);
      if steps[0].Write? {
        assert WritesOf(steps)[0] == steps[0].a && WritesOf(steps)[1..] == WritesOf(steps[1..]);
      } else {
        assert WritesOf(steps) == WritesOf(steps[1..]);
      }
    }
  }

  lemma {:induction false} SessionJoin(w: Copy, a: seq<Step>, b: seq<Step>)
    requires CopyShape(w) && IsSession(w, a) && IsSession(After(w, a), b)
    ensures IsSession(w, a + b) && After(w, a + b) == After(After(w, a), b)
    decreases |a|
  {
    if a == [] {
      assert a + b == b;
    } else {
      assert (a + b)[1..] == a[1..] + b;
      SessionJoin(Do(w, a[0]), a[1..], b);
    }
  }

  /** Writers that run while the copier stands still. */
  lemma {:induction false} WritesAlone(w: Copy, acts: seq<Action>)
    requires CopyShape(w) && IsOrderlyRun(w.ring, acts) && IsRun(w.ring, acts)
    ensures IsSession(w, Writes(acts))
    ensures After(w, Writes(acts)).ring == Exec(w.ring, acts)
    ensures After(w, Writes(acts)).c.(quiet := w.c.quiet) == w.c
    decreases |acts|
  {
    if acts != [] {
      assert Writes(acts)[1..] == Writes(acts[1..]);
      WritesAlone(Do(w, Write(acts[0])), acts[1..]);
    }
  }

  function Loads(n: nat): seq<Step> {
    if n == 0 then [] else [Load] + Loads(n - 1)
  }

  /** The rest of a slot, once its number is loaded, with no store in between. */
  lemma {:induction false} LoadRest(w: Copy)
    requires CopyShape(w) && !Copied(w) && w.c.phase > w.c.ahead
    ensures var steps := Loads(w.ring.width + 1 - w.c.phase);
      IsSession(w, steps) && After(w, steps).ring == w.ring && After(w, steps).c.phase == 0
      && After(w, steps).c.cells == w.c.cells + [Rec(w.c.seqno, w.c.got + w.ring.cells[w.c.slot].body[Words(w.c)..])]
    decreases w.ring.width + 1 - w.c.phase
  {
    var body, n := w.ring.cells[w.c.slot].body, Words(w.c);
    var steps := Loads(w.ring.width + 1 - w.c.phase);
    assert steps[1..] == Loads(w.ring.width + 1 - (w.c.phase + 1)) && body[n..] == [body[n]] + body[n + 1..];
    if w.c.phase < w.ring.width {
      LoadRest(Do(w, Load));
      assert w.c.got + [body[n]] + body[n + 1..] == w.c.got + body[n..];
    } else {
      assert body[n..] == [body[n]];
    }
  }

  /** The copier goes on to the end of the file; what it has copied stays. */
  lemma {:induction false} LoadToEnd(w: Copy) returns (steps: seq<Step>)
    requires CopyShape(w)
    ensures IsSession(w, steps) && Copied(After(w, steps)) && After(w, steps).ring == w.ring
    ensures w.c.cells <= After(w, steps).c.cells
    decreases w.ring.cap - w.c.slot, w.ring.width + 1 - w.c.phase
  {
    if Copied(w) {
      steps := [];
    } else {
      var rest := LoadToEnd(Do(w, Load));
      steps := [Load] + rest;
      assert steps[1..] == rest;
    }
  }

  // ---- What can be torn ----

  /** Finishing the call that the next claim has to wait for. */
  lemma MakeRoom(r: Ring) returns (acts: seq<Action>, r': Ring)
    requires Inv(r)
    ensures IsOrderlyRun(r, acts) && IsRun(r, acts) && Exec(r, acts) == r' && Inv(r') && LagOk(r') && r'.log == r.log
    ensures forall i :: 0 <= i < |r.log| && Done(r, i) ==> Done(r', i)
  {
    if LagOk(r) {
      acts, r' := [], r;
    } else {
      var sn := |r.log| - r.cap + 1;
      assert InWindow(r, sn - 1) && CellOf(r, sn - 1);
      AloneFrom(r, sn);
      acts := Repeat(sn, r.width + 2 - r.pc[sn - 1]);
      r' := Finished(r, sn);
      RunKeepsInv(r, acts);
    }
  }

  /** Orderly writers can go on to any number. */
  lemma {:induction false} ClaimUpTo(r: Ring, words: seq<int>, n: nat) returns (acts: seq<Action>, r': Ring)
    requires Inv(r) && |words| == r.width && |r.log| <= n
    ensures IsOrderlyRun(r, acts) && IsRun(r, acts) && Exec(r, acts) == r' && Inv(r') && |r'.log| == n && r.log <= r'.log
    ensures forall i :: 0 <= i < |r.log| && Done(r, i) ==> Done(r', i)
    decreases n - |r.log|
  {
    if |r.log| == n {
      acts, r' := [], r;
    } else {
      var a, r1 := MakeRoom(r);
      var r2 := Apply(r1, Claim(words));
      StepKeepsInv(r1, Claim(words));
      var b;
      b, r' := ClaimUpTo(r2, words, n);
      assert ([Claim(words)] + b)[1..] == b;
      RunJoin(r, a, [Claim(words)] + b);
      acts := a + ([Claim(words)] + b);
    }
  }

  /** A payload that shares no word with `w`. */
  function Unlike(w: seq<int>): seq<int> {
    seq(|w|, k requires 0 <= k < |w| => w[k] + 1)
  }

  /** Orderly writers can replace a published record by one that shares no word with it. */
  lemma Replaced(r: Ring, sn: nat) returns (acts: seq<Action>)
    requires Inv(r) && 1 <= sn <= |r.log| && Done(r, sn - 1) && Live.Undisturbed(r, sn)
    ensures IsOrderlyRun(r, acts) && IsRun(r, acts) && r.log <= Exec(r, acts).log
    ensures Exec(r, acts).cells[SlotOf(r, sn - 1)].body == Unlike(r.log[sn - 1])
  {
    var words := Unlike(r.log[sn - 1]);
    var a, r1 := ClaimUpTo(r, words, sn + r.cap - 1);
    CallAlone(r1, words);
    RunJoin(r, a, CallActions(r1, words));
    ModAdd(sn - 1, r.cap);
    acts := a + CallActions(r1, words);
  }

  /** The copier holds the number of a record of the window and not all of its words, and nobody has
      claimed the number's slot again. */
  ghost predicate Halfway(w: Copy, sn: nat)
    requires CopyShape(w)
  {
    && sn >= 1 && !Copied(w) && w.c.phase > w.c.ahead && w.c.quiet && w.c.seqno == sn
    && SlotOf(w.ring, sn - 1) == w.c.slot
    && sn <= w.c.written && |w.ring.log| < sn + w.ring.cap
  }

  /** Conversely, a record can be torn until its last word is loaded: from any state in which the copier is
      halfway through it, orderly writers can make the reader return it with a word that is not its own. */
  lemma HalfwayCanTear(w: Copy, already: set<nat>, sn: nat) returns (steps: seq<Step>, e: Rec<seq<int>>)
    requires CopyInv(w, already) && Halfway(w, sn)
    ensures IsSession(w, steps) && Copied(After(w, steps)) && e in Events(After(w, steps).c, w.ring.cap)
    ensures e.seqno == sn <= |w.ring.log| && sn <= |After(w, steps).ring.log| && e.body != After(w, steps).ring.log[sn - 1]
  {
    Live.NumberMeansPayload(w.ring, sn);
    var acts := Replaced(w.ring, sn);
    WritesAlone(w, acts);
    var w1, rest := After(w, Writes(acts)), [];
    rest, e := CopyRest(w1);
    SessionJoin(w, Writes(acts), rest);
    steps := Writes(acts) + rest;
    ReturnedTorn(After(w1, rest), w.ring, e, sn);
  }

  /** The rest of the file, with no store in between: the last word of the current slot is what it holds. */
  lemma CopyRest(w: Copy) returns (steps: seq<Step>, e: Rec<seq<int>>)
    requires CopyShape(w) && !Copied(w) && w.c.phase > w.c.ahead
    ensures IsSession(w, steps) && Copied(After(w, steps)) && After(w, steps).ring == w.ring
    ensures After(w, steps).c.cells[w.c.slot] == e && e.seqno == w.c.seqno && |e.body| == w.ring.width
    ensures e.body[w.ring.width - 1] == w.ring.cells[w.c.slot].body[w.ring.width - 1]
  {
    LoadRest(w);
    var rest := Loads(w.ring.width + 1 - w.c.phase);
    var tail := LoadToEnd(After(w, rest));
    SessionJoin(w, rest, tail);
    steps := rest + tail;
    e := After(w, rest).c.cells[w.c.slot];
  }

  lemma ReturnedTorn(w: Copy, r: Ring, e: Rec<seq<int>>, sn: nat)
    requires CopyShape(w) && Shape(r) && 1 <= sn <= |r.log| && r.log <= w.ring.log && w.ring.width == r.width >= 1
    requires e.seqno == sn && SlotOf(w.ring, sn - 1) < w.c.slot && w.c.cells[SlotOf(w.ring, sn - 1)] == e
    requires Lower(w.ring.cap, w.c.written) <= sn <= w.c.written
    requires |e.body| == r.width && e.body[r.width - 1] == Unlike(r.log[sn - 1])[r.width - 1]
    ensures e in Events(w.c, w.ring.cap) && !Live.Whole(w.ring, e)
  {
    SlotScanMembers(w.c.cells, w.ring.cap, w.c.written);
    assert RingReaders.Live(w.c.cells, w.ring.cap, w.c.written, e);
  }
}
