/** analyzer.py: which ranks entered which collective, and when a missing one is evidence. */
module Collectives {
  import opened Records
  import opened FlightEvents
  import opened Wrappers
  import Readers = RingReaders
  import Ring = RingProtocol
  import opened EndToEnd

  const HCCL_END: nat := 16

  // ---- The loss flag ----

  /** ring_wrap_or_loss */
  predicate LossFlag<T>(written: nat, events: seq<Rec<T>>) {
    written > |events|
  }

  /** The events are those numbered 1 to `written`, each once. */
  ghost predicate Complete<T>(written: nat, events: seq<Rec<T>>) {
    |events| == written && forall i :: 0 <= i < |events| ==> events[i].seqno == i + 1
  }

  /** Increasing numbers between 1 and `w` fit closely. */
  lemma {:induction false} NumbersFit<T>(s: seq<Rec<T>>, w: nat, i: nat)
    requires Increasing(s) && i < |s|
    requires forall e :: e in s ==> 1 <= e.seqno <= w
    ensures i + 1 <= s[i].seqno <= w + i + 1 - |s|
    decreases |s| - i
  {
    NumbersAtLeast(s, i);
    assert s[i] in s;
    if i + 1 < |s| { NumbersFit(s, w, i + 1); }
  }

  lemma {:induction false} NumbersAtLeast<T>(s: seq<Rec<T>>, i: nat)
    requires Increasing(s) && i < |s|
    requires forall e :: e in s ==> 1 <= e.seqno
    ensures i + 1 <= s[i].seqno
  {
    assert s[i] in s;
    if i > 0 { NumbersAtLeast(s, i - 1); }
  }

  /** The loss flag is exact: on any file contents it is down if and only if the parsed events are all
      those numbered 1 to write_seq. */
  lemma LossFlagExact<T>(cells: seq<Rec<T>>, cap: nat, written: nat)
    ensures var events := Readers.SlotScan(cells, cap, written);
      !LossFlag(written, events) <==> Complete(written, events)
  {
    var events := Readers.SlotScan(cells, cap, written);
    Readers.SlotScanMembers(cells, cap, written);
    if events != [] { NumbersFit(events, written, 0); }
    if !LossFlag(written, events) {
      forall i | 0 <= i < |events| ensures events[i].seqno == i + 1 { NumbersFit(events, written, i); }
    }
  }

  /** A ring that has wrapped always raises the flag. */
  lemma WrapRaisesFlag<T>(cells: seq<Rec<T>>, cap: nat, written: nat)
    requires written > cap
    ensures LossFlag(written, Readers.SlotScan(cells, cap, written))
  {
    var n := Readers.Count(cap, |cells|);
    Readers.KeepMembers(cells, cap, written, n);
    SortMembers(Readers.Keep(cells, cap, written, n));
  }

  /** With the flag down, the parsed file is the whole log of its writers. */
  lemma UnflaggedIsWholeLog(r: Ring.Ring)
    requires Ring.Inv(r) && r.width == WORDS && !LossFlag(|r.log|, Copy(r))
    ensures |Copy(r)| == |r.log|
    ensures forall i :: 0 <= i < |r.log| ==> |r.log[i]| == WORDS && Copy(r)[i] == Rec(i + 1, Decode(r.log[i]))
  {
    LossFlagExact(r.cells, r.cap, |r.log|);
    CopyIsLive(r);
    var recs := Ring.Snapshot(r);
    forall i | 0 <= i < |r.log| ensures Copy(r)[i] == Rec(i + 1, Decode(r.log[i])) {
      assert recs[i] in recs;
    }
  }

  // ---- Grouping ----

  /** Communicator and operation. */
  datatype Op = Op(comm: nat, number: nat)

  function OpOf(c: Call): Op {
    Op(c.arg0, c.corr)
  }

  /** An HCCL_BEGIN of the operation: arg0 names the communicator, the correlation id the operation. */
  predicate Begins(e: Event, op: Op) {
    e.body.call.kind == 15 && e.body.call.arg0 == op.comm && e.body.call.corr == op.number
  }

  predicate Ends(e: Event, op: Op) {
    e.body.call.kind == HCCL_END && OpOf(e.body.call) == op
  }

  /** The last entry of an operation that a rank's events show. */
  function LastBegin(evs: seq<Event>, op: Op): Option<Event> {
    if evs == [] then None
    else if Begins(evs[|evs| - 1], op) then Some(evs[|evs| - 1])
    else LastBegin(evs[..|evs| - 1], op)
  }

  /** Event `i` is the last entry of the operation. */
  predicate LastIs(evs: seq<Event>, op: Op, i: nat) {
    i < |evs| && Begins(evs[i], op) && forall j :: i < j < |evs| ==> !Begins(evs[j], op)
  }

  lemma {:induction false} LastBeginMeaning(evs: seq<Event>, op: Op)
    ensures LastBegin(evs, op).Some? <==> exists i :: 0 <= i < |evs| && Begins(evs[i], op)
    ensures forall i: nat :: LastIs(evs, op, i) ==> LastBegin(evs, op) == Some(evs[i])
    ensures LastBegin(evs, op).Some? ==> exists i: nat :: LastIs(evs, op, i)
  {
    if evs != [] {
      var front, e := evs[..|evs| - 1], evs[|evs| - 1];
      LastBeginMeaning(front, op);
      assert forall i :: 0 <= i < |front| ==> front[i] == evs[i];
      if Begins(e, op) {
        assert LastIs(evs, op, |front|);
      } else {
        forall i: nat ensures LastIs(evs, op, i) <==> LastIs(front, op, i) {}
      }
    }
  }

  datatype Collective = Collective(entered: set<nat>, missing: set<nat>, types: set<nat>, typeMismatch: bool, endObserved: set<nat>)

  type Ranks = map<nat, seq<Event>>

  ghost predicate Entered(ranks: Ranks, op: Op, r: nat) {
    r in ranks && exists i :: 0 <= i < |ranks[r]| && Begins(ranks[r][i], op)
  }

  ghost predicate EndSeen(ranks: Ranks, op: Op, r: nat) {
    r in ranks && exists i :: 0 <= i < |ranks[r]| && IsCall(ranks[r][i].body.call, 16, op.comm, op.number)
  }

  predicate IsCall(c: Call, kind: nat, arg0: nat, corr: nat) {
    c.kind == kind && c.arg0 == arg0 && c.corr == corr
  }

  function GroupOf(groups: map<Op, map<nat, Event>>, op: Op): map<nat, Event> {
    if op in groups then groups[op] else map[]
  }

  function At(g: map<nat, Event>, r: nat): Option<Event> {
    if r in g then Some(g[r]) else None
  }

  /** The part of analyze's first pass that files the entries of one rank. */
  method GroupRank(r: nat, evs: seq<Event>, groups0: map<Op, map<nat, Event>>) returns (groups: map<Op, map<nat, Event>>)
    requires forall op :: op in groups0 ==> groups0[op] != map[] && r !in groups0[op]
    ensures forall op, q :: q != r ==> At(GroupOf(groups, op), q) == At(GroupOf(groups0, op), q)
    ensures forall op :: At(GroupOf(groups, op), r) == LastBegin(evs, op)
    ensures forall op :: op in groups ==> groups[op] != map[]
  {
    groups := groups0;
    var i := 0;
    assert evs[..0] == [];
    while i < |evs|
      invariant i <= |evs|
      invariant forall op, q :: q != r ==> At(GroupOf(groups, op), q) == At(GroupOf(groups0, op), q)
      invariant forall op :: At(GroupOf(groups, op), r) == LastBegin(evs[..i], op)
      invariant forall op :: op in groups ==> groups[op] != map[]
    {
      var e := evs[i];
      assert evs[..i + 1][..i] == evs[..i];
      if e.body.call.kind == HCCL_BEGIN {
        var op := OpOf(e.body.call);
        var g := GroupOf(groups, op)[r := e];
        assert r in g;
        groups := groups[op := g];
      }
      i := i + 1;
    }
    assert evs[..i] == evs;
  }

  method GroupAll(ranks: Ranks) returns (groups: map<Op, map<nat, Event>>)
    ensures GroupsOf(groups, ranks)
    ensures forall op :: op in groups ==> groups[op] != map[]
  {
    groups := map[];
    assert forall op :: GroupOf(groups, op) == map[];
    var todo := ranks.Keys;
    while todo != {}
      invariant todo <= ranks.Keys
      invariant forall op, r :: At(GroupOf(groups, op), r) == (if r in ranks && r !in todo then LastBegin(ranks[r], op) else None)
      invariant forall op :: op in groups ==> groups[op] != map[]
      decreases todo
    {
      var r :| r in todo;
      forall op | op in groups ensures r !in groups[op] { assert At(GroupOf(groups, op), r) == None; }
      groups := GroupRank(r, ranks[r], groups);
      todo := todo - {r};
    }
  }

  /** One line of the report, for an operation at least one rank entered. */
  ghost predicate IsReportOf(c: Collective, ranks: Ranks, op: Op, expected: Option<set<nat>>) {
    && (forall r :: r in c.entered <==> Entered(ranks, op, r))
    && c.missing == (if expected.Some? then expected.value - c.entered else {})
    && (forall t :: t in c.types <==> exists r, i: nat :: r in ranks && LastIs(ranks[r], op, i) && t == ranks[r][i].body.call.arg1)
    && (c.typeMismatch <==> exists t, u :: t in c.types && u in c.types && t != u)
    && (forall r :: r in c.endObserved <==> EndSeen(ranks, op, r))
  }

  /** any(...) over the events of a rank */
  predicate HasEnd(evs: seq<Event>, op: Op) {
    exists i :: 0 <= i < |evs| && Ends(evs[i], op)
  }

  lemma SeveralMembers<T>(s: set<T>)
    ensures |s| > 1 <==> exists t, u :: t in s && u in s && t != u
  {
    if s != {} {
      var t :| t in s;
      if s - {t} != {} {
        var u :| u in s - {t};
        assert |s - {t}| > 0;
      } else {
        assert s == {t};
      }
    }
  }

  /** The types the entered ranks passed. */
  function TypesOf(g: map<nat, Event>): set<nat> {
    set r | r in g :: g[r].body.call.arg1
  }

  method Describe(ranks: Ranks, op: Op, g: map<nat, Event>, expected: Option<set<nat>>) returns (c: Collective)
    requires forall r :: At(g, r) == (if r in ranks then LastBegin(ranks[r], op) else None)
    ensures IsReportOf(c, ranks, op, expected)
  {
    var types := TypesOf(g);
    var ended := set r | r in ranks && HasEnd(ranks[r], op);
    SeveralMembers(types);
    c := Collective(g.Keys, if expected.Some? then expected.value - g.Keys else {}, types, |types| > 1, ended);
    forall r: nat ensures r in g.Keys <==> Entered(ranks, op, r) {
      assert r in g <==> At(g, r).Some?;
      if r in ranks { LastBeginMeaning(ranks[r], op); }
    }
    TypesAreLast(ranks, op, g);
    EndsAreSeen(ranks, op);
  }

  lemma EndsAreSeen(ranks: Ranks, op: Op)
    ensures forall r: nat :: r in ranks && HasEnd(ranks[r], op) <==> EndSeen(ranks, op, r)
  {
    forall r: nat | r in ranks ensures HasEnd(ranks[r], op) <==> EndSeen(ranks, op, r) {
      forall i | 0 <= i < |ranks[r]|
        ensures Ends(ranks[r][i], op) <==> IsCall(ranks[r][i].body.call, 16, op.comm, op.number)
      {}
    }
  }

  lemma TypesAreLast(ranks: Ranks, op: Op, g: map<nat, Event>)
    requires forall r :: At(g, r) == (if r in ranks then LastBegin(ranks[r], op) else None)
    ensures forall t :: t in TypesOf(g) <==> exists r, i: nat :: r in ranks && LastIs(ranks[r], op, i) && t == ranks[r][i].body.call.arg1
  {
    forall t | t in TypesOf(g) ensures exists r, i: nat :: r in ranks && LastIs(ranks[r], op, i) && t == ranks[r][i].body.call.arg1 {
      var r :| r in g && t == g[r].body.call.arg1;
      assert At(g, r) == Some(g[r]);
      LastBeginMeaning(ranks[r], op);
      var i: nat :| LastIs(ranks[r], op, i);
    }
    forall r, i: nat | r in ranks && LastIs(ranks[r], op, i) ensures ranks[r][i].body.call.arg1 in TypesOf(g) {
      LastBeginMeaning(ranks[r], op);
      assert At(g, r) == Some(ranks[r][i]);
      assert r in g;
    }
  }

  ghost predicate GroupsOf(groups: map<Op, map<nat, Event>>, ranks: Ranks) {
    forall op, r :: At(GroupOf(groups, op), r) == (if r in ranks then LastBegin(ranks[r], op) else None)
  }

  lemma GroupIsOf(groups: map<Op, map<nat, Event>>, ranks: Ranks, op: Op)
    requires GroupsOf(groups, ranks) && op in groups
    ensures forall r :: At(groups[op], r) == (if r in ranks then LastBegin(ranks[r], op) else None)
  {
    forall r ensures At(groups[op], r) == (if r in ranks then LastBegin(ranks[r], op) else None) {
      assert GroupOf(groups, op) == groups[op];
    }
  }

  lemma EnteredIsGrouped(groups: map<Op, map<nat, Event>>, ranks: Ranks, op: Op, r: nat)
    requires GroupsOf(groups, ranks) && Entered(ranks, op, r)
    ensures op in groups
  {
    LastBeginMeaning(ranks[r], op);
    assert At(GroupOf(groups, op), r).Some?;
  }

  /** The collectives of the report: one entry for each operation (of the chosen communicator, if one is
      given) that some rank's retained events show as begun. */
  method Report(ranks: Ranks, expected: Option<set<nat>>, communicator: Option<nat>) returns (report: map<Op, Collective>)
    ensures forall op :: op in report ==>
      (communicator.Some? ==> op.comm == communicator.value) && IsReportOf(report[op], ranks, op, expected)
    ensures forall op, r :: Entered(ranks, op, r) && (communicator.Some? ==> op.comm == communicator.value) ==> op in report
    ensures forall op :: op in report ==> report[op].entered != {}
  {
    var groups := GroupAll(ranks);
    report := map[];
    var todo := groups.Keys;
    while todo != {}
      invariant todo <= groups.Keys && report.Keys <= groups.Keys
      invariant forall op :: op in report ==>
        (communicator.Some? ==> op.comm == communicator.value) && IsReportOf(report[op], ranks, op, expected)
      invariant forall op :: op in groups && op !in todo && (communicator.Some? ==> op.comm == communicator.value) ==> op in report
      decreases todo
    {
      var op :| op in todo;
      if communicator.None? || op.comm == communicator.value {
        GroupIsOf(groups, ranks, op);
        var c := Describe(ranks, op, groups[op], expected);
        report := report[op := c];
      }
      todo := todo - {op};
    }
    forall op, r | Entered(ranks, op, r) ensures op in groups { EnteredIsGrouped(groups, ranks, op, r); }
    forall op | op in report ensures report[op].entered != {} { SomeoneEntered(groups, ranks, op, report[op], expected); }
  }

  lemma NoKeys<K, V>(m: map<K, V>)
    ensures m.Keys == {} ==> m == map[]
  {}

  lemma SomeoneEntered(groups: map<Op, map<nat, Event>>, ranks: Ranks, op: Op, c: Collective, expected: Option<set<nat>>)
    requires op in groups && groups[op] != map[] && IsReportOf(c, ranks, op, expected)
    requires GroupsOf(groups, ranks)
    ensures c.entered != {}
  {
    NoKeys(groups[op]);
    var r :| r in groups[op];
    assert At(GroupOf(groups, op), r).Some?;
    LastBeginMeaning(ranks[r], op);
    assert r in c.entered;
  }

  /** The rank never called the operation, as far as the whole log of its process goes. */
  ghost predicate NeverBegan(r: Ring.Ring, op: Op)
    requires Ring.Shape(r) && r.width == WORDS
  {
    forall i :: 0 <= i < |r.log| ==> !Begins(Rec(i + 1, Decode(r.log[i])), op)
  }

  /** What missing_expected proves: an expected rank whose file was copied from its ring with the loss
      flag down is listed as missing if and only if no HCCL_BEGIN for that communicator and operation
      stands anywhere in its log. */
  lemma MissingMeansNeverBegan(c: Collective, ranks: Ranks, op: Op, expected: Option<set<nat>>, q: nat, r: Ring.Ring)
    requires IsReportOf(c, ranks, op, expected) && expected.Some? && q in expected.value
    requires Ring.Inv(r) && r.width == WORDS && q in ranks && ranks[q] == Copy(r) && !LossFlag(|r.log|, Copy(r))
    ensures q in c.missing <==> NeverBegan(r, op)
  {
    UnflaggedIsWholeLog(r);
    assert q in c.missing <==> !Entered(ranks, op, q);
    forall i | 0 <= i < |r.log| ensures Begins(ranks[q][i], op) <==> Begins(Rec(i + 1, Decode(r.log[i])), op) {}
  }
}
