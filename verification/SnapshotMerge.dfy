/** write_outputs of analyzer.py: merging several snapshots of one process into one history. */
module SnapshotMerge {
  import opened Records
  import opened FlightEvents
  import opened Wrappers
  import Ring = RingProtocol

  /** A snapshot file as read; an unreadable one is skipped. */
  datatype Snapshot = Snapshot(rank: nat, pid: nat, events: seq<Event>) | Unreadable

  /** The file belongs to the process the report shows for its rank. `pids` maps each reported rank to
      the pid of its report. */
  predicate Counts(s: Snapshot, pids: map<nat, nat>, rank: nat) {
    s.Snapshot? && s.rank == rank && rank in pids && s.pid == pids[rank]
  }

  predicate HasSeq(evs: seq<Event>, sn: nat) {
    exists i :: 0 <= i < |evs| && evs[i].seqno == sn
  }

  /** The events of `a` that `b` does not replace. */
  function Unreplaced(a: seq<Event>, b: seq<Event>): seq<Event> {
    if a == [] then []
    else Unreplaced(a[..|a| - 1], b) + if HasSeq(b, a[|a| - 1].seqno) then [] else [a[|a| - 1]]
  }

  /** dict update by number, then sorted by number. */
  function Combine(a: seq<Event>, b: seq<Event>): seq<Event> {
    SortBySeq(Unreplaced(a, b) + b)
  }

  lemma {:induction false} UnreplacedMembers(a: seq<Event>, b: seq<Event>)
    requires Increasing(a)
    ensures forall e :: e in Unreplaced(a, b) ==> e in a && !HasSeq(b, e.seqno)
    ensures forall e :: e in a && !HasSeq(b, e.seqno) ==> e in Unreplaced(a, b)
    ensures Increasing(Unreplaced(a, b))
  {
    if a != [] {
      var front, e := a[..|a| - 1], a[|a| - 1];
      UnreplacedMembers(front, b);
      assert a == front + [e];
      forall x | x in front ensures x.seqno < e.seqno {
        var i :| 0 <= i < |front| && front[i] == x;
        assert a[i] == x;
      }
      if !HasSeq(b, e.seqno) { AppendIncreasing(Unreplaced(front, b), e); }
    }
  }

  /** A merge is strictly increasing and holds the newer file's events, and the older one's where the
      newer has none of that number. */
  lemma CombineMembers(a: seq<Event>, b: seq<Event>)
    requires Increasing(a) && Increasing(b)
    ensures Increasing(Combine(a, b))
    ensures forall e :: e in Combine(a, b) ==> e in b || (e in a && !HasSeq(b, e.seqno))
    ensures forall e :: e in b || (e in a && !HasSeq(b, e.seqno)) ==> e in Combine(a, b)
  {
    UnreplacedMembers(a, b);
    var u := Unreplaced(a, b);
    forall i, j | 0 <= i < |u| && 0 <= j < |b| ensures u[i].seqno != b[j].seqno { assert u[i] in u; }
    assert Distinct(u + b);
    SortIncreasing(u + b);
    SortMembers(u + b);
  }

  /** The history of one rank after the files of `files` have been merged in their order. */
  function Merged(files: seq<Snapshot>, pids: map<nat, nat>, rank: nat): seq<Event> {
    if files == [] then []
    else
      var rest := Merged(files[..|files| - 1], pids, rank);
      var s := files[|files| - 1];
      if Counts(s, pids, rank) then Combine(rest, s.events) else rest
  }

  /** Every file is in increasing order, as the reader returns it. */
  ghost predicate AllIncreasing(files: seq<Snapshot>) {
    forall i :: 0 <= i < |files| && files[i].Snapshot? ==> Increasing(files[i].events)
  }

  /** Files of one process agree on every number both retain. */
  ghost predicate Agree(a: seq<Event>, b: seq<Event>) {
    forall i, j :: 0 <= i < |a| && 0 <= j < |b| && a[i].seqno == b[j].seqno ==> a[i] == b[j]
  }

  ghost predicate AllAgree(files: seq<Snapshot>, pids: map<nat, nat>, rank: nat) {
    forall i, j :: 0 <= i < |files| && 0 <= j < |files| && Counts(files[i], pids, rank) && Counts(files[j], pids, rank) ==>
      Agree(files[i].events, files[j].events)
  }

  /** Some file of the process that the report shows for the rank holds the event. */
  ghost predicate Retains(files: seq<Snapshot>, pids: map<nat, nat>, rank: nat, e: Event) {
    exists s :: s in files && s.Snapshot? && s.rank == rank && rank in pids && s.pid == pids[rank] && e in s.events
  }

  /** File `i` is of that process and holds the event, and no later file of the process has one of its number. */
  ghost predicate NewestIn(files: seq<Snapshot>, pids: map<nat, nat>, rank: nat, e: Event, i: nat) {
    && i < |files| && OfProcess(files[i], pids, rank) && e in files[i].events
    && forall j :: i < j < |files| && OfProcess(files[j], pids, rank) ==> !HasSeq(files[j].events, e.seqno)
  }

  /** A readable file of this rank, written by the process that the report shows for it. */
  predicate OfProcess(s: Snapshot, pids: map<nat, nat>, rank: nat) {
    s.Snapshot? && s.rank == rank && rank in pids && pids[rank] == s.pid
  }

  ghost predicate IsNewest(files: seq<Snapshot>, pids: map<nat, nat>, rank: nat, e: Event) {
    exists i: nat :: NewestIn(files, pids, rank, e, i)
  }

  /** Whatever the files hold, the merged history is strictly increasing and invents nothing. */
  lemma {:induction false} MergedIncreases(files: seq<Snapshot>, pids: map<nat, nat>, rank: nat)
    requires AllIncreasing(files)
    ensures Increasing(Merged(files, pids, rank))
    ensures forall e :: e in Merged(files, pids, rank) ==> Retains(files, pids, rank, e)
  {
    if files != [] {
      var front, s := files[..|files| - 1], files[|files| - 1];
      MergedIncreases(front, pids, rank);
      if Counts(s, pids, rank) { CombineMembers(Merged(front, pids, rank), s.events); }
      assert files == front + [s];
      forall e | Retains(front, pids, rank, e) ensures Retains(files, pids, rank, e) {
        var x :| x in front && Counts(x, pids, rank) && e in x.events;
        assert x in files;
      }
    }
  }

  lemma NewestStep(files: seq<Snapshot>, pids: map<nat, nat>, rank: nat, e: Event)
    requires files != []
    ensures var front, s := files[..|files| - 1], files[|files| - 1];
      IsNewest(files, pids, rank, e) <==>
        if OfProcess(s, pids, rank) then e in s.events || (IsNewest(front, pids, rank, e) && !HasSeq(s.events, e.seqno))
        else IsNewest(front, pids, rank, e)
  {
    var front, s := files[..|files| - 1], files[|files| - 1];
    forall i: nat | i < |front| ensures NewestIn(files, pids, rank, e, i) <==>
      NewestIn(front, pids, rank, e, i) && (OfProcess(s, pids, rank) ==> !HasSeq(s.events, e.seqno))
    {
      assert forall j :: 0 <= j < |front| ==> front[j] == files[j];
    }
    assert NewestIn(files, pids, rank, e, |front|) <==> OfProcess(s, pids, rank) && e in s.events;
    forall i: nat | NewestIn(files, pids, rank, e, i) ensures i <= |front| {}
    forall i: nat | NewestIn(front, pids, rank, e, i) ensures i < |front| {}
  }

  /** The merged history holds, for each number, the event of the last file of the process that has it. */
  lemma {:induction false} NewestWins(files: seq<Snapshot>, pids: map<nat, nat>, rank: nat, e: Event)
    requires AllIncreasing(files)
    ensures e in Merged(files, pids, rank) <==> IsNewest(files, pids, rank, e)
  {
    if files != [] {
      var front, s := files[..|files| - 1], files[|files| - 1];
      NewestWins(front, pids, rank, e);
      NewestStep(files, pids, rank, e);
      assert Counts(s, pids, rank) <==> OfProcess(s, pids, rank);
      if OfProcess(s, pids, rank) {
        MergedIncreases(front, pids, rank);
        CombineMembers(Merged(front, pids, rank), s.events);
      }
    }
  }

  /** With agreeing files the merged history is the union of what they retain. */
  lemma {:induction false} MergedIsUnion(files: seq<Snapshot>, pids: map<nat, nat>, rank: nat, e: Event)
    requires AllIncreasing(files) && AllAgree(files, pids, rank)
    ensures e in Merged(files, pids, rank) <==> Retains(files, pids, rank, e)
  {
    MergedIncreases(files, pids, rank);
    if Retains(files, pids, rank, e) {
      var front, s := files[..|files| - 1], files[|files| - 1];
      var x :| x in files && Counts(x, pids, rank) && e in x.events;
      assert files == front + [s];
      MergedIncreases(front, pids, rank);
      if x in front {
        assert Retains(front, pids, rank, e);
        MergedIsUnion(front, pids, rank, e);
      }
      if Counts(s, pids, rank) {
        CombineMembers(Merged(front, pids, rank), s.events);
        KeptOrReplacedBySame(files, pids, rank, x, s, e);
      }
    }
  }

  lemma KeptOrReplacedBySame(files: seq<Snapshot>, pids: map<nat, nat>, rank: nat, x: Snapshot, s: Snapshot, e: Event)
    requires AllAgree(files, pids, rank) && x in files && s in files && Counts(x, pids, rank) && Counts(s, pids, rank)
    requires e in x.events
    ensures HasSeq(s.events, e.seqno) ==> e in s.events
  {}

  /** The merged history does not depend on the order of the files, nor on how often one is given. */
  lemma OrderIrrelevant(files: seq<Snapshot>, files': seq<Snapshot>, pids: map<nat, nat>, rank: nat)
    requires AllIncreasing(files) && AllAgree(files, pids, rank)
    requires (forall s :: s in files ==> s in files') && (forall s :: s in files' ==> s in files)
    ensures Merged(files, pids, rank) == Merged(files', pids, rank)
  {
    forall i | 0 <= i < |files'| && files'[i].Snapshot? ensures Increasing(files'[i].events) {
      assert files'[i] in files;
    }
    forall i, j | 0 <= i < |files'| && 0 <= j < |files'| && Counts(files'[i], pids, rank) && Counts(files'[j], pids, rank)
      ensures Agree(files'[i].events, files'[j].events)
    {
      assert files'[i] in files && files'[j] in files;
      var k, l :| 0 <= k < |files| && 0 <= l < |files| && files[k] == files'[i] && files[l] == files'[j];
      assert Agree(files[k].events, files[l].events);
    }
    MergedIncreases(files, pids, rank);
    MergedIncreases(files', pids, rank);
    forall e ensures e in Merged(files, pids, rank) <==> e in Merged(files', pids, rank) {
      MergedIsUnion(files, pids, rank, e);
      MergedIsUnion(files', pids, rank, e);
      assert Retains(files, pids, rank, e) <==> Retains(files', pids, rank, e);
    }
    IncreasingUnique(Merged(files, pids, rank), Merged(files', pids, rank));
  }

  // ---- Why files of one process agree ----

  lemma {:induction false} LogGrows(r: Ring.Ring, acts: seq<Ring.Action>)
    requires Ring.Inv(r) && Ring.IsOrderlyRun(r, acts)
    ensures Ring.IsRun(r, acts) && Ring.Inv(Ring.Exec(r, acts)) && r.log <= Ring.Exec(r, acts).log
    decreases |acts|
  {
    if acts != [] {
      Ring.StepKeepsInv(r, acts[0]);
      LogGrows(Ring.Apply(r, acts[0]), acts[1..]);
    }
  }

  /** Two copies of one ring, the second taken after any number of further steps of its writers, agree on
      every number both retain. */
  lemma CopiesAgree(r: Ring.Ring, acts: seq<Ring.Action>, x: Rec<seq<int>>, y: Rec<seq<int>>)
    requires Ring.Inv(r) && Ring.IsOrderlyRun(r, acts) && Ring.IsRun(r, acts)
    requires x in Ring.Snapshot(r) && y in Ring.Snapshot(Ring.Exec(r, acts)) && x.seqno == y.seqno
    ensures x == y
  {
    LogGrows(r, acts);
    var r' := Ring.Exec(r, acts);
    Ring.InvIsFaithful(r);
    Ring.InvIsFaithful(r');
  }

  // ---- The loop ----

  function At(d: map<nat, Event>, sn: nat): Option<Event> {
    if sn in d then Some(d[sn]) else None
  }

  /** The last event of that number. */
  function Find(evs: seq<Event>, sn: nat): Option<Event> {
    if evs == [] then None
    else if evs[|evs| - 1].seqno == sn then Some(evs[|evs| - 1])
    else Find(evs[..|evs| - 1], sn)
  }

  lemma {:induction false} FindMeaning(evs: seq<Event>, sn: nat)
    requires Increasing(evs)
    ensures Find(evs, sn).None? <==> !HasSeq(evs, sn)
    ensures forall e :: Find(evs, sn) == Some(e) <==> e in evs && e.seqno == sn
  {
    if evs != [] {
      var front := evs[..|evs| - 1];
      FindMeaning(front, sn);
      assert forall i :: 0 <= i < |front| ==> front[i] == evs[i];
      assert evs == front + [evs[|evs| - 1]];
    }
  }

  /** d.update({e.seq: e for e in evs}) */
  method Update(dict: map<nat, Event>, evs: seq<Event>) returns (d: map<nat, Event>)
    ensures forall sn :: At(d, sn) == (if Find(evs, sn).Some? then Find(evs, sn) else At(dict, sn))
  {
    d := dict;
    var i := 0;
    assert evs[..0] == [];
    while i < |evs|
      invariant i <= |evs|
      invariant forall sn :: At(d, sn) == (if Find(evs[..i], sn).Some? then Find(evs[..i], sn) else At(dict, sn))
    {
      assert evs[..i + 1][..i] == evs[..i];
      d := d[evs[i].seqno := evs[i]];
      i := i + 1;
    }
    assert evs[..i] == evs;
  }

  /** sorted(d.values()) by number */
  method SortedValues(d: map<nat, Event>) returns (r: seq<Event>)
    requires forall sn :: sn in d ==> d[sn].seqno == sn
    ensures Increasing(r)
    ensures forall e :: e in r ==> At(d, e.seqno) == Some(e)
    ensures forall sn :: sn in d ==> d[sn] in r
  {
    r := [];
    var todo := d.Keys;
    while todo != {}
      invariant todo <= d.Keys && Distinct(r)
      invariant forall e :: e in r ==> e.seqno !in todo && At(d, e.seqno) == Some(e)
      invariant forall sn :: sn in d && sn !in todo ==> d[sn] in r
      decreases todo
    {
      var sn :| sn in todo;
      forall i | 0 <= i < |r| ensures r[i].seqno != sn { assert r[i] in r; }
      r := r + [d[sn]];
      todo := todo - {sn};
    }
    SortIncreasing(r);
    SortMembers(r);
    r := SortBySeq(r);
  }

  lemma UpdatedIsCombined(a: seq<Event>, b: seq<Event>, d: map<nat, Event>, r: seq<Event>)
    requires Increasing(a) && Increasing(b) && Increasing(r)
    requires forall sn :: At(d, sn) == (if Find(b, sn).Some? then Find(b, sn) else Find(a, sn))
    requires forall e :: e in r ==> At(d, e.seqno) == Some(e)
    requires forall sn :: sn in d ==> d[sn] in r
    ensures r == Combine(a, b)
  {
    CombineMembers(a, b);
    forall e ensures e in r <==> e in Combine(a, b) {
      FindMeaning(a, e.seqno);
      FindMeaning(b, e.seqno);
      assert At(d, e.seqno) == (if Find(b, e.seqno).Some? then Find(b, e.seqno) else Find(a, e.seqno));
    }
    IncreasingUnique(r, Combine(a, b));
  }

  method MergeTwo(a: seq<Event>, b: seq<Event>) returns (r: seq<Event>)
    requires Increasing(a) && Increasing(b)
    ensures r == Combine(a, b)
  {
    var d := Update(map[], a);
    d := Update(d, b);
    forall sn | sn in d ensures d[sn].seqno == sn {
      FindMeaning(a, sn);
      FindMeaning(b, sn);
      assert At(d, sn).Some?;
    }
    r := SortedValues(d);
    UpdatedIsCombined(a, b, d, r);
  }

  function HistoryOf(full: map<nat, seq<Event>>, rank: nat): seq<Event> {
    if rank in full then full[rank] else []
  }

  ghost predicate HasFile(files: seq<Snapshot>, pids: map<nat, nat>, rank: nat) {
    exists i :: 0 <= i < |files| && OfProcess(files[i], pids, rank)
  }

  lemma HasFileNext(files: seq<Snapshot>, pids: map<nat, nat>, i: nat, rank: nat)
    requires i < |files|
    ensures HasFile(files[..i + 1], pids, rank) <==> HasFile(files[..i], pids, rank) || Counts(files[i], pids, rank)
  {}

  /** The merge loop over the given paths. */
  method Merge(files: seq<Snapshot>, pids: map<nat, nat>) returns (full: map<nat, seq<Event>>)
    requires AllIncreasing(files)
    ensures forall rank :: HistoryOf(full, rank) == Merged(files, pids, rank)
    ensures forall rank :: rank in full <==> HasFile(files, pids, rank)
    ensures forall rank :: Increasing(HistoryOf(full, rank))
    ensures forall rank, e :: e in HistoryOf(full, rank) <==> IsNewest(files, pids, rank, e)
  {
    full := map[];
    var i := 0;
    assert files[..0] == [];
    while i < |files|
      invariant i <= |files|
      invariant forall rank :: HistoryOf(full, rank) == Merged(files[..i], pids, rank)
      invariant forall rank :: rank in full <==> HasFile(files[..i], pids, rank)
    {
      var s := files[i];
      assert files[..i + 1][..i] == files[..i] && files[..i + 1] == files[..i] + [s];
      if s.Snapshot? && s.rank in pids && s.pid == pids[s.rank] {
        MergedIncreases(files[..i], pids, s.rank);
        var r := MergeTwo(HistoryOf(full, s.rank), s.events);
        full := full[s.rank := r];
      }
      forall rank: nat ensures rank in full <==> HasFile(files[..i + 1], pids, rank) { HasFileNext(files, pids, i, rank); }
      i := i + 1;
    }
    assert files[..i] == files;
    forall rank: nat ensures Increasing(HistoryOf(full, rank)) { MergedIncreases(files, pids, rank); }
    forall rank: nat, e ensures e in HistoryOf(full, rank) <==> IsNewest(files, pids, rank, e) { NewestWins(files, pids, rank, e); }
  }
}
