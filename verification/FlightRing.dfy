/** flight_recorder.cpp as one thread sees it: the mapped ring, opened once and written in place. */
module FlightRing {
  import opened Errno
  import opened Records
  import opened RingProtocol

  const MAX_CAPACITY := 0x400_0000

  lemma CallKeepsInv(r: Ring, words: seq<int>)
    requires Inv(r) && |words| == r.width && LagOk(r)
    ensures Inv(AfterCall(r, words))
  {
    CallAlone(r, words);
    RunKeepsInv(r, CallActions(r, words));
  }

  /** The stores of one call: zero the number, store each word, publish the number. `trace` lists what the
      slots hold before the first and after each of them. */
  method StoreCall(cells: array<Rec<seq<int>>>, sn: nat, words: seq<int>, ghost r: Ring) returns (ghost trace: seq<seq<Rec<seq<int>>>>)
    requires Shape(r) && |words| == r.width && cells[..] == r.cells && sn == |r.log| + 1
    modifies cells
    ensures cells[..] == Midway(r, words, r.width + 2).cells && trace == Stages(r, words, r.width + 2)
  {
    var slot := (sn - 1) % cells.Length;
    trace := [cells[..]];
    assert r.cells[slot := r.cells[slot]] == r.cells;
    cells[slot] := cells[slot].(seqno := 0);
    CellStores(r.cells[slot], words, sn, 0);
    trace := trace + [cells[..]];
    var k := 0;
    while k < |words|
      invariant k <= |words| && cells[..] == Midway(r, words, k + 1).cells
      invariant trace == Stages(r, words, k + 1)
    {
      cells[slot] := cells[slot].(body := cells[slot].body[k := words[k]]);
      k := k + 1;
      CellStores(r.cells[slot], words, sn, k);
      trace := trace + [cells[..]];
    }
    cells[slot] := cells[slot].(seqno := sn);
    CellStores(r.cells[slot], words, sn, r.width + 1);
    trace := trace + [cells[..]];
  }

  class Recorder {
    const width: nat
    var mapped: bool
    var writeSeq: nat
    var cells: array<Rec<seq<int>>>
    /** History: the payload of every call so far. The file keeps only the last `capacity` of them. */
    ghost var log: seq<seq<int>>

    /** The ring between calls: every call so far has published. */
    ghost function Abs(): Ring
      reads this, cells
    {
      Ring(cells.Length, width, log, cells[..], seq(|log|, i => width + 2))
    }

    ghost predicate Valid()
      reads this, cells
    {
      mapped ==> writeSeq == |log| && cells.Length >= 2 && Inv(Abs())
    }

    constructor (width: nat)
      ensures Valid() && !mapped && this.width == width
    {
      this.width := width;
      mapped := false;
      writeSeq := 0;
      log := [];
      cells := new Rec<seq<int>>[0];
    }

    /** The capacity rules of flight_init; a second call on a mapped recorder is refused. */
    method Initialize(capacity: nat) returns (rc: int)
      requires Valid()
      modifies this
      ensures Valid()
      ensures rc == 0 <==> 2 <= capacity <= 0x400_0000 && !old(mapped)
      ensures rc == 0 ==> mapped && fresh(cells) && Init(Abs()) && Abs().cap == capacity
      ensures rc != 0 ==> rc == EINVAL && mapped == old(mapped) && cells == old(cells) && Abs() == old(Abs())
    {
      if capacity < 2 || capacity > MAX_CAPACITY || mapped {
        return EINVAL;
      }
      var zero := seq(width, k => 0);
      cells := new Rec<seq<int>>[capacity](i => Rec(0, zero));
      log := [];
      writeSeq := 0;
      mapped := true;
      InitInv(Abs());
      return 0;
    }

    /** flight_record: claim, then every store. Without a mapping nothing is written and 0 is returned.
        `trace` shows that each store is the step of the concurrent protocol. */
    method Record(words: seq<int>) returns (sn: nat, ghost trace: seq<seq<Rec<seq<int>>>>)
      requires Valid() && |words| == width
      modifies this, cells
      ensures Valid() && mapped == old(mapped) && cells == old(cells)
      ensures !mapped ==> sn == 0 && Abs() == old(Abs())
      ensures mapped ==> sn == |old(log)| + 1 && Abs() == old(AfterCall(Abs(), words))
      ensures mapped ==> trace == old(Stages(Abs(), words, width + 2))
    {
      if !mapped {
        return 0, [];
      }
      ghost var before := Abs();
      writeSeq := writeSeq + 1;
      sn := writeSeq;
      trace := StoreCall(cells, sn, words, before);
      log := log + [words];
      assert Abs() == AfterCall(before, words) by { MidwayEnds(before, words); }
      CallKeepsInv(before, words);
    }
  }
}
