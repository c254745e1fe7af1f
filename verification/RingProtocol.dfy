/** The multi-writer publish protocol of both rings (flight_record and the msPTI record function), as
    interleaved sequentially consistent steps. A call claims a number, zeroes the slot's number, stores
    the payload one word at a time and publishes the number last. */
module RingProtocol {
  import opened Records
  import opened RingReaders
  import opened ModArith

  /** `log[i]` is the payload of the call that claimed number i+1, `pc[i]` how far that call has come:
      0 claimed, 1 zeroed, 1+k stored k words, width+2 published. */
  datatype Ring = Ring(cap: nat, width: nat, log: seq<seq<int>>, cells: seq<Rec<seq<int>>>, pc: seq<nat>)

  /** A stored word as the unsigned member a reader makes of it. */
  function Word(i: int): nat {
    if i < 0 then 0 else i
  }

  datatype Action = Claim(words: seq<int>) | Advance(sn: nat)

  /** A freshly truncated file: every number is zero, no call has started. */
  ghost predicate Init(r: Ring) {
    && r.cap >= 1
    && r.log == [] && r.pc == []
    && |r.cells| == r.cap
    && forall k :: 0 <= k < r.cap ==> r.cells[k].seqno == 0 && |r.cells[k].body| == r.width
  }

  predicate Shape(r: Ring) {
    r.cap >= 1 && |r.cells| == r.cap && |r.pc| == |r.log|
    && (forall i :: 0 <= i < |r.log| ==> |r.log[i]| == r.width)
    && (forall k :: 0 <= k < r.cap ==> |r.cells[k].body| == r.width)
    && (forall i :: 0 <= i < |r.pc| ==> r.pc[i] <= r.width + 2)
  }

  function SlotOf(r: Ring, i: nat): nat
    requires r.cap >= 1
  {
    i % r.cap
  }

  predicate Done(r: Ring, i: nat)
    requires i < |r.pc|
  {
    r.pc[i] == r.width + 2
  }

  predicate Enabled(r: Ring, a: Action)
    requires Shape(r)
  {
    match a
    case Claim(words) => |words| == r.width
    case Advance(sn) => 1 <= sn <= |r.log| && !Done(r, sn - 1)
  }

  function Apply(r: Ring, a: Action): (r': Ring)
    requires Shape(r) && Enabled(r, a)
    ensures Shape(r') && r'.cap == r.cap && r'.width == r.width
  {
    match a
    case Claim(words) => r.(log := r.log + [words], pc := r.pc + [0])
    case Advance(sn) =>
      var i := sn - 1;
      var k := i % r.cap;
      var cell := r.cells[k];
      var cell' :=
        if r.pc[i] == 0 then cell.(seqno := 0)
        else if r.pc[i] <= r.width then
          cell.(body := cell.body[r.pc[i] - 1 := r.log[i][r.pc[i] - 1]])
        else cell.(seqno := sn);
      r.(cells := r.cells[k := cell'], pc := r.pc[i := r.pc[i] + 1])
  }

  /** The call that last used the slot of the next number has published. The code does not check this;
      it holds when no writer stalls while the others fill the rest of the ring. */
  predicate LagOk(r: Ring)
    requires Shape(r)
  {
    |r.log| < r.cap || Done(r, |r.log| - r.cap)
  }

  predicate Orderly(r: Ring, a: Action)
    requires Shape(r)
  {
    Enabled(r, a) && (a.Claim? ==> LagOk(r))
  }

  /** `acts` is a run from `r` in which every step is enabled. */
  ghost predicate IsRun(r: Ring, acts: seq<Action>)
    requires Shape(r)
    decreases |acts|
  {
    acts == [] || (Enabled(r, acts[0]) && IsRun(Apply(r, acts[0]), acts[1..]))
  }

  /** A run in which every claim respects the lag assumption. */
  ghost predicate IsOrderlyRun(r: Ring, acts: seq<Action>)
    requires Shape(r)
    decreases |acts|
  {
    acts == [] || (Orderly(r, acts[0]) && IsOrderlyRun(Apply(r, acts[0]), acts[1..]))
  }

  function Exec(r: Ring, acts: seq<Action>): (r': Ring)
    requires Shape(r) && IsRun(r, acts)
    ensures Shape(r') && r'.cap == r.cap && r'.width == r.width
    decreases |acts|
  {
    if acts == [] then r else Exec(Apply(r, acts[0]), acts[1..])
  }

  /** An orderly run is a run: where both are required below, the second adds nothing. */
  lemma {:induction false} OrderlyIsRun(r: Ring, acts: seq<Action>)
    requires Shape(r) && IsOrderlyRun(r, acts)
    ensures IsRun(r, acts)
    decreases |acts|
  {
    if acts != [] { OrderlyIsRun(Apply(r, acts[0]), acts[1..]); }
  }

  // ---- The invariant of orderly runs ----

  /** What the slot of call `i`, the latest user of its slot, holds at each stage of that call. */
  predicate CellOf(r: Ring, i: nat)
    requires Shape(r) && i < |r.log|
  {
    var cell := r.cells[SlotOf(r, i)];
    if r.pc[i] == 0 then
      if i >= r.cap then cell == Rec(i - r.cap + 1, r.log[i - r.cap]) else cell.seqno == 0
    else if r.pc[i] <= r.width + 1 then
      cell.seqno == 0 && cell.body[..r.pc[i] - 1] == r.log[i][..r.pc[i] - 1]
    else
      cell == Rec(i + 1, r.log[i])
  }

  predicate InWindow(r: Ring, i: int) {
    0 <= i < |r.log| && i >= |r.log| - r.cap
  }

  ghost predicate Inv(r: Ring) {
    && Shape(r)
    && (forall i :: 0 <= i < |r.log| - r.cap ==> Done(r, i))
    && (forall i :: InWindow(r, i) ==> CellOf(r, i))
    && (forall k :: |r.log| <= k < r.cap ==> r.cells[k].seqno == 0)
  }

  lemma InitInv(r: Ring)
    requires Init(r)
    ensures Inv(r)
  {}

  lemma ClaimLeavesCell(r: Ring, words: seq<int>, i: nat)
    requires Inv(r) && Orderly(r, Claim(words))
    requires i < |r.log| && CellOf(r, i)
    ensures CellOf(Apply(r, Claim(words)), i)
  {}

  lemma ClaimedCell(r: Ring, words: seq<int>)
    requires Inv(r) && Orderly(r, Claim(words))
    ensures CellOf(Apply(r, Claim(words)), |r.log|)
  {
    var n := |r.log|;
    if n >= r.cap {
      ModAdd(n - r.cap, r.cap);
      assert InWindow(r, n - r.cap) && CellOf(r, n - r.cap);
    } else {
      SmallMod(n, r.cap);
    }
  }

  lemma ClaimKeepsInv(r: Ring, words: seq<int>)
    requires Inv(r) && Orderly(r, Claim(words))
    ensures Inv(Apply(r, Claim(words)))
  {
    var r' := Apply(r, Claim(words));
    forall i | 0 <= i < |r'.log| - r'.cap ensures Done(r', i) {
      assert Done(r, i);
    }
    forall i | InWindow(r', i) ensures CellOf(r', i) {
      if i < |r.log| {
        assert InWindow(r, i);
        ClaimLeavesCell(r, words, i);
      } else {
        ClaimedCell(r, words);
      }
    }
  }

  lemma AdvancedCell(r: Ring, sn: nat)
    requires Inv(r) && Enabled(r, Advance(sn)) && CellOf(r, sn - 1)
    ensures CellOf(Apply(r, Advance(sn)), sn - 1)
  {
    var i := sn - 1;
    var body := r.cells[SlotOf(r, i)].body;
    if r.pc[i] == r.width + 1 {
      assert body == body[..r.width] && r.log[i] == r.log[i][..r.width];
    } else if r.pc[i] > 0 {
      var k := r.pc[i] - 1;
      assert body[k := r.log[i][k]][..k + 1] == body[..k] + [r.log[i][k]];
      assert r.log[i][..k + 1] == r.log[i][..k] + [r.log[i][k]];
    }
  }

  lemma AdvanceLeavesCell(r: Ring, sn: nat, j: nat)
    requires Inv(r) && Enabled(r, Advance(sn)) && InWindow(r, sn - 1)
    requires InWindow(r, j) && j != sn - 1
    ensures CellOf(Apply(r, Advance(sn)), j)
  {
    assert CellOf(r, j);
    if j < sn - 1 { ModDiffers(r.cap, j, sn - 1); } else { ModDiffers(r.cap, sn - 1, j); }
  }

  lemma AdvanceKeepsInv(r: Ring, sn: nat)
    requires Inv(r) && Enabled(r, Advance(sn))
    ensures Inv(Apply(r, Advance(sn)))
  {
    var r' := Apply(r, Advance(sn));
    assert InWindow(r, sn - 1) && CellOf(r, sn - 1);
    forall i | 0 <= i < |r'.log| - r'.cap ensures Done(r', i) {
      assert Done(r, i);
    }
    forall j | InWindow(r', j) ensures CellOf(r', j) {
      if j == sn - 1 { AdvancedCell(r, sn); } else { AdvanceLeavesCell(r, sn, j); }
    }
    forall k | |r'.log| <= k < r'.cap ensures r'.cells[k].seqno == 0 {
      SmallMod(sn - 1, r.cap);
    }
  }

  lemma StepKeepsInv(r: Ring, a: Action)
    requires Inv(r) && Orderly(r, a)
    ensures Inv(Apply(r, a))
  {
    match a
    case Claim(words) => ClaimKeepsInv(r, words);
    case Advance(sn) => AdvanceKeepsInv(r, sn);
  }

  lemma {:induction false} RunKeepsInv(r: Ring, acts: seq<Action>)
    requires Inv(r) && IsOrderlyRun(r, acts)
    ensures IsRun(r, acts) && Inv(Exec(r, acts))
    decreases |acts|
  {
    if acts != [] {
      StepKeepsInv(r, acts[0]);
      RunKeepsInv(Apply(r, acts[0]), acts[1..]);
    }
  }

  // ---- Snapshots ----

  function Snapshot(r: Ring): seq<Rec<seq<int>>>
    requires Shape(r)
  {
    SlotScan(r.cells, r.cap, |r.log|)
  }

  /** A reader of an atomic copy gets, in order, the published records among the last `cap` claimed ones,
      with their callers' words, and nothing else. */
  ghost predicate Faithful(r: Ring)
    requires Shape(r)
  {
    && Increasing(Snapshot(r))
    && (forall e :: e in Snapshot(r) ==>
          1 <= e.seqno <= |r.log| < e.seqno + r.cap && Done(r, e.seqno - 1) && e.body == r.log[e.seqno - 1])
    && (forall i :: 0 <= i < |r.log| <= i + r.cap && Done(r, i) ==> Rec(i + 1, r.log[i]) in Snapshot(r))
  }

  lemma InvIsFaithful(r: Ring)
    requires Inv(r)
    ensures Faithful(r)
  {
    SlotScanMembers(r.cells, r.cap, |r.log|);
    forall e | e in Snapshot(r) ensures Done(r, e.seqno - 1) && e.body == r.log[e.seqno - 1] {
      assert InWindow(r, e.seqno - 1) && CellOf(r, e.seqno - 1);
    }
    forall i | 0 <= i < |r.log| <= i + r.cap && Done(r, i) ensures Rec(i + 1, r.log[i]) in Snapshot(r) {
      assert InWindow(r, i) && CellOf(r, i);
      assert Live(r.cells, r.cap, |r.log|, Rec(i + 1, r.log[i]));
    }
  }

  /** Snapshot refines the log: at any moment of any orderly run of concurrent writers, reading an
      atomic copy yields exactly the published records of the window, with the words their callers
      passed; calls that have claimed, zeroed or half written their slot are not seen. */
  lemma SnapshotRefinesLog(r: Ring, acts: seq<Action>)
    requires Init(r) && IsOrderlyRun(r, acts)
    ensures IsRun(r, acts) && Faithful(Exec(r, acts))
  {
    InitInv(r);
    RunKeepsInv(r, acts);
    InvIsFaithful(Exec(r, acts));
  }

  // ---- One call that nothing interrupts ----

  function Repeat(sn: nat, k: nat): (acts: seq<Action>)
    ensures |acts| == k
  {
    if k == 0 then [] else [Advance(sn)] + Repeat(sn, k - 1)
  }

  /** The ring once the call that claimed number `sn` has run to its end alone. */
  function Finished(r: Ring, sn: nat): Ring
    requires Shape(r) && 1 <= sn <= |r.log|
  {
    r.(cells := r.cells[(sn - 1) % r.cap := Rec(sn, r.log[sn - 1])], pc := r.pc[sn - 1 := r.width + 2])
  }

  lemma {:induction false} AloneFrom(r: Ring, sn: nat)
    requires Shape(r) && Enabled(r, Advance(sn))
    requires r.pc[sn - 1] > 0 ==>
      r.cells[(sn - 1) % r.cap].body[..r.pc[sn - 1] - 1] == r.log[sn - 1][..r.pc[sn - 1] - 1]
    ensures var acts := Repeat(sn, r.width + 2 - r.pc[sn - 1]);
      IsOrderlyRun(r, acts) && IsRun(r, acts) && Exec(r, acts) == Finished(r, sn)
    decreases r.width + 2 - r.pc[sn - 1]
  {
    var i := sn - 1;
    var p := r.pc[i];
    var body := r.cells[i % r.cap].body;
    var r' := Apply(r, Advance(sn));
    var acts := Repeat(sn, r.width + 2 - p);
    assert acts[1..] == Repeat(sn, r.width + 2 - (p + 1));
    assert Finished(r', sn) == Finished(r, sn);
    if p == r.width + 1 {
      assert body == body[..r.width] && r.log[i] == r.log[i][..r.width];
      assert r' == Finished(r, sn);
    } else {
      if p > 0 {
        assert body[p - 1 := r.log[i][p - 1]][..p] == body[..p - 1] + [r.log[i][p - 1]];
        assert r.log[i][..p] == r.log[i][..p - 1] + [r.log[i][p - 1]];
      }
      AloneFrom(r', sn);
    }
  }

  /** A whole record call with no other step in between: claim, then every store. */
  function CallActions(r: Ring, words: seq<int>): seq<Action> {
    [Claim(words)] + Repeat(|r.log| + 1, r.width + 2)
  }

  function AfterCall(r: Ring, words: seq<int>): Ring
    requires Shape(r) && |words| == r.width
  {
    Finished(Apply(r, Claim(words)), |r.log| + 1)
  }

  /** A slot after the first `n` stores of the call that claimed number `sn`. */
  function CellAfter(cell: Rec<seq<int>>, words: seq<int>, sn: nat, n: nat): (c: Rec<seq<int>>)
    requires |cell.body| == |words| && n <= |words| + 2
    ensures |c.body| == |words|
  {
    if n == 0 then cell else if n <= |words| + 1 then Rec(0, words[..n - 1] + cell.body[n - 1..]) else Rec(sn, words)
  }

  /** One more store: the number is zeroed, then the words follow one by one, then the number is published. */
  lemma CellStores(cell: Rec<seq<int>>, words: seq<int>, sn: nat, n: nat)
    requires |cell.body| == |words| && n < |words| + 2
    ensures var c := CellAfter(cell, words, sn, n);
      CellAfter(cell, words, sn, n + 1) ==
        if n == 0 then c.(seqno := 0)
        else if n <= |words| then c.(body := c.body[n - 1 := words[n - 1]])
        else c.(seqno := sn)
  {
    if n == 0 {
      assert words[..0] + cell.body[0..] == cell.body;
    } else if n <= |words| {
      assert (words[..n - 1] + cell.body[n - 1..])[n - 1 := words[n - 1]] == words[..n] + cell.body[n..];
    } else {
      assert words[..n - 1] + cell.body[n - 1..] == words;
    }
  }

  /** The ring after the claim and the first `n` stores of an uninterrupted call. */
  function Midway(r: Ring, words: seq<int>, n: nat): Ring
    requires Shape(r) && |words| == r.width && n <= r.width + 2
  {
    var k := |r.log| % r.cap;
    r.(log := r.log + [words], pc := r.pc + [n], cells := r.cells[k := CellAfter(r.cells[k], words, |r.log| + 1, n)])
  }

  /** It is what the steps of the call make of the ring. */
  lemma MidwayRuns(r: Ring, words: seq<int>, n: nat)
    requires Shape(r) && |words| == r.width && n <= r.width + 2
    ensures Midway(r, words, 0) == Apply(r, Claim(words)) && Shape(Midway(r, words, n))
    ensures n < r.width + 2 ==> Enabled(Midway(r, words, n), Advance(|r.log| + 1))
    ensures n < r.width + 2 ==> Midway(r, words, n + 1) == Apply(Midway(r, words, n), Advance(|r.log| + 1))
  {
    var k := |r.log| % r.cap;
    assert r.cells[k := r.cells[k]] == r.cells;
    if n < r.width + 2 { CellStores(r.cells[k], words, |r.log| + 1, n); }
  }

  lemma MidwayEnds(r: Ring, words: seq<int>)
    requires Shape(r) && |words| == r.width
    ensures Midway(r, words, r.width + 2) == AfterCall(r, words)
  {}

  /** What the slots hold after the claim and after each of the first `n` stores of an uninterrupted call. */
  function Stages(r: Ring, words: seq<int>, n: nat): seq<seq<Rec<seq<int>>>>
    requires Shape(r) && |words| == r.width && n <= r.width + 2
  {
    (if n == 0 then [] else Stages(r, words, n - 1)) + [Midway(r, words, n).cells]
  }

  lemma CallAlone(r: Ring, words: seq<int>)
    requires Shape(r) && |words| == r.width
    ensures IsRun(r, CallActions(r, words))
    ensures Exec(r, CallActions(r, words)) == AfterCall(r, words)
    ensures LagOk(r) ==> IsOrderlyRun(r, CallActions(r, words))
  {
    var r' := Apply(r, Claim(words));
    AloneFrom(r', |r.log| + 1);
    assert CallActions(r, words)[1..] == Repeat(|r.log| + 1, r.width + 2);
  }

  // ---- The lag assumption is exactly what the protocol needs ----

  /** However the steps after a claim with this payload interleave, later claims being orderly, every
      snapshot stays faithful. */
  ghost predicate ClaimIsSafe(r: Ring, words: seq<int>)
    requires Shape(r) && |words| == r.width
  {
    forall acts: seq<Action> | IsOrderlyRun(Apply(r, Claim(words)), acts) ::
      IsRun(Apply(r, Claim(words)), acts) && Faithful(Exec(Apply(r, Claim(words)), acts))
  }

  lemma {:induction false} RunJoin(r: Ring, a: seq<Action>, b: seq<Action>)
    requires Shape(r) && IsOrderlyRun(r, a) && IsRun(r, a)
    requires IsOrderlyRun(Exec(r, a), b) && IsRun(Exec(r, a), b)
    ensures IsOrderlyRun(r, a + b) && IsRun(r, a + b) && Exec(r, a + b) == Exec(Exec(r, a), b)
    decreases |a|
  {
    if a == [] {
      assert a + b == b;
    } else {
      assert (a + b)[1..] == a[1..] + b;
      RunJoin(Apply(r, a[0]), a[1..], b);
    }
  }

  /** A late writer that runs to its end leaves its number in the slot, whatever else the slot holds. */
  lemma {:induction false} LateEnds(r: Ring, late: nat)
    requires Shape(r) && Enabled(r, Advance(late))
    ensures var acts := Repeat(late, r.width + 2 - r.pc[late - 1]);
      && IsOrderlyRun(r, acts) && IsRun(r, acts) && Exec(r, acts).log == r.log
      && Exec(r, acts).pc == r.pc[late - 1 := r.width + 2] && Exec(r, acts).cells[(late - 1) % r.cap].seqno == late
    decreases r.width + 2 - r.pc[late - 1]
  {
    var acts := Repeat(late, r.width + 2 - r.pc[late - 1]);
    assert acts[1..] == Repeat(late, r.width + 2 - (r.pc[late - 1] + 1));
    if r.pc[late - 1] < r.width + 1 { LateEnds(Apply(r, Advance(late)), late); }
  }

  lemma SpoiledIsUnfaithful(r: Ring, sn: nat)
    requires Shape(r) && 1 <= sn == |r.log| && Done(r, sn - 1)
    requires r.cells[(sn - 1) % r.cap] != Rec(sn, r.log[sn - 1])
    ensures !Faithful(r)
  {
    SlotScanMembers(r.cells, r.cap, |r.log|);
    assert !Live(r.cells, r.cap, |r.log|, Rec(sn, r.log[sn - 1]));
  }

  /** The new call publishes alone; then the late one goes on to its end and takes the slot back. */
  lemma UnsafeWithoutLag(r: Ring, words: seq<int>)
    requires Shape(r) && !LagOk(r) && |words| == r.width
    ensures !ClaimIsSafe(r, words)
  {
    var late, sn := |r.log| - r.cap + 1, |r.log| + 1;
    var r1 := Apply(r, Claim(words));
    var first := Repeat(sn, r.width + 2);
    AloneFrom(r1, sn);
    var r2 := Exec(r1, first);
    var rest := Repeat(late, r2.width + 2 - r2.pc[late - 1]);
    LateEnds(r2, late);
    ModAdd(late - 1, r.cap);
    RunJoin(r1, first, rest);
    SpoiledIsUnfaithful(Exec(r2, rest), sn);
  }

  /** The exact condition: from any state an orderly run can reach, and whatever payload the next call
      stores, its claim is safe if and only if the previous user of its slot has published. */
  lemma LagIsExact(r: Ring, words: seq<int>)
    requires Inv(r) && |words| == r.width
    ensures ClaimIsSafe(r, words) <==> LagOk(r)
  {
    if LagOk(r) {
      forall acts: seq<Action> | IsOrderlyRun(Apply(r, Claim(words)), acts)
        ensures IsRun(Apply(r, Claim(words)), acts) && Faithful(Exec(Apply(r, Claim(words)), acts))
      {
        StepKeepsInv(r, Claim(words));
        RunKeepsInv(Apply(r, Claim(words)), acts);
        InvIsFaithful(Exec(Apply(r, Claim(words)), acts));
      }
    } else {
      UnsafeWithoutLag(r, words);
    }
  }

  predicate NoneStored(r: Ring) {
    forall i :: 0 <= i < |r.pc| ==> r.pc[i] == 0
  }

  predicate OnlyClaims(acts: seq<Action>) {
    forall i :: 0 <= i < |acts| ==> acts[i].Claim?
  }

  lemma {:induction false} ClaimsFill(r: Ring, words: seq<int>, n: nat) returns (acts: seq<Action>)
    requires Shape(r) && |words| == r.width && |r.log| + n <= r.cap && NoneStored(r)
    ensures |acts| == n && OnlyClaims(acts) && IsOrderlyRun(r, acts) && IsRun(r, acts)
    ensures |Exec(r, acts).log| == |r.log| + n && NoneStored(Exec(r, acts))
    decreases n
  {
    if n == 0 {
      acts := [];
    } else {
      var rest := ClaimsFill(Apply(r, Claim(words)), words, n - 1);
      acts := [Claim(words)] + rest;
      assert acts[1..] == rest;
    }
  }

  /** The code reaches the unsafe case: from any fresh ring, as many claims as it has slots, none of them
      followed by a store, are an orderly run after which the lag assumption fails and the next claim,
      with any payload, can make a snapshot unfaithful. */
  lemma LagCanFail(r: Ring, words: seq<int>, next: seq<int>) returns (acts: seq<Action>)
    requires Init(r) && |words| == r.width && |next| == r.width
    ensures |acts| == r.cap && OnlyClaims(acts) && IsOrderlyRun(r, acts) && IsRun(r, acts)
    ensures !LagOk(Exec(r, acts)) && !ClaimIsSafe(Exec(r, acts), next)
  {
    acts := ClaimsFill(r, words, r.cap);
    UnsafeWithoutLag(Exec(r, acts), next);
  }
}
