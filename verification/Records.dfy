/** Numbered records: the unit every ring slot, reader and report works on.
    `seqno` is the recorder's sequence number; `body` is whatever the writer stored beside it. */
module Records {

  datatype Rec<T> = Rec(seqno: nat, body: T)

  ghost predicate Increasing<T>(s: seq<Rec<T>>) {
    forall i, j :: 0 <= i < j < |s| ==> s[i].seqno < s[j].seqno
  }

  /** No sequence number occurs at two places. */
  ghost predicate Distinct<T>(s: seq<Rec<T>>) {
    forall i, j :: 0 <= i < j < |s| ==> s[i].seqno != s[j].seqno
  }

  function Insert<T>(r: Rec<T>, s: seq<Rec<T>>): seq<Rec<T>> {
    if s == [] then [r]
    else if r.seqno <= s[0].seqno then [r] + s
    else [s[0]] + Insert(r, s[1..])
  }

  /** A stable sort by sequence number. */
  function SortBySeq<T>(s: seq<Rec<T>>): seq<Rec<T>> {
    if s == [] then [] else Insert(s[0], SortBySeq(s[1..]))
  }

  lemma {:induction false} InsertMembers<T>(r: Rec<T>, s: seq<Rec<T>>)
    ensures |Insert(r, s)| == |s| + 1
    ensures r in Insert(r, s)
    ensures forall x :: x in s ==> x in Insert(r, s)
    ensures forall x :: x in Insert(r, s) ==> x == r || x in s
  {
    if s == [] {
    } else if r.seqno <= s[0].seqno {
    } else {
      InsertMembers(r, s[1..]);
      assert s == [s[0]] + s[1..];
    }
  }

  lemma {:induction false} InsertKeepsOrder<T>(r: Rec<T>, s: seq<Rec<T>>)
    requires Increasing(s)
    requires forall x :: x in s ==> x.seqno != r.seqno
    ensures Increasing(Insert(r, s))
  {
    if s == [] {
    } else if r.seqno <= s[0].seqno {
      assert s[0] in s;
    } else {
      InsertKeepsOrder(r, s[1..]);
      InsertMembers(r, s[1..]);
      var t := Insert(r, s[1..]);
      forall j | 0 <= j < |t| ensures s[0].seqno < t[j].seqno {
        assert t[j] in t;
        assert t[j] == r || t[j] in s[1..];
      }
    }
  }

  lemma {:induction false} SortMembers<T>(s: seq<Rec<T>>)
    ensures |SortBySeq(s)| == |s|
    ensures forall x :: x in s ==> x in SortBySeq(s)
    ensures forall x :: x in SortBySeq(s) ==> x in s
  {
    if s == [] {
    } else {
      SortMembers(s[1..]);
      InsertMembers(s[0], SortBySeq(s[1..]));
      assert s == [s[0]] + s[1..];
    }
  }

  lemma {:induction false} SortIncreasing<T>(s: seq<Rec<T>>)
    requires Distinct(s)
    ensures Increasing(SortBySeq(s))
  {
    if s == [] {
    } else {
      SortIncreasing(s[1..]);
      SortMembers(s[1..]);
      forall x | x in SortBySeq(s[1..]) ensures x.seqno != s[0].seqno {
        assert x in s[1..];
      }
      InsertKeepsOrder(s[0], SortBySeq(s[1..]));
    }
  }

  /** An increasing list is determined by its members. */
  lemma {:induction false} IncreasingUnique<T>(a: seq<Rec<T>>, b: seq<Rec<T>>)
    requires Increasing(a) && Increasing(b)
    requires forall x :: x in a ==> x in b
    requires forall x :: x in b ==> x in a
    ensures a == b
  {
    assert a != [] ==> a[0] in a;
    assert b != [] ==> b[0] in b;
    if a != [] {
      var i :| 0 <= i < |b| && b[i] == a[0];
      var j :| 0 <= j < |a| && a[j] == b[0];
      assert i == 0 && j == 0;
      forall x ensures x in a[1..] ==> x in b[1..] {
        TailMembers(a, x);
        TailMembers(b, x);
      }
      forall x ensures x in b[1..] ==> x in a[1..] {
        TailMembers(a, x);
        TailMembers(b, x);
      }
      IncreasingUnique(a[1..], b[1..]);
      assert a == [a[0]] + a[1..] && b == [b[0]] + b[1..];
    }
  }

  lemma AppendIncreasing<T>(s: seq<Rec<T>>, r: Rec<T>)
    requires Increasing(s)
    requires forall x :: x in s ==> x.seqno < r.seqno
    ensures Increasing(s + [r])
    ensures forall x :: x in s + [r] ==> x == r || x in s
  {}

  lemma TailMembers<T>(a: seq<Rec<T>>, x: Rec<T>)
    requires Increasing(a) && a != []
    ensures x in a[1..] <==> x in a && x != a[0]
  {}

  /** Sorting an already increasing list changes nothing. */
  lemma SortOfIncreasing<T>(s: seq<Rec<T>>)
    requires Increasing(s)
    ensures SortBySeq(s) == s
  {
    SortIncreasing(s);
    SortMembers(s);
    IncreasingUnique(SortBySeq(s), s);
  }
}
