/** Initial pools to start runs from. */
module SmallPool {
  import opened FiniteSets
  import opened CheckpointPool
  import opened PoolInvariant

  function Ids(n: nat, k: nat): (ids: set<SlotId>)
    ensures forall id :: id in ids <==> id.stream < n && id.index < k
  {
    var all := set i: nat, j: nat | i < n && j < k :: SlotId(i, j);
    assert forall id: SlotId :: id == SlotId(id.stream, id.index);
    all
  }

  function Streams(n: nat): (ids: seq<nat>)
    ensures |ids| == n && forall i :: 0 <= i < n ==> ids[i] == i
  {
    seq(n, i => i)
  }

  /** Streams 0 to n-1 with `k` slots each; two submitting threads and one poller. */
  function Start(n: nat, k: nat): Pool {
    Pool(Streams(n), k, map id | id in Ids(n, k) :: FRESH_SLOT, map st | st in Below(n) :: 0, 0, false, 0,
         map st | st in Below(n) :: [], map st | st in Below(n) :: 0, [], [], [Idle, Idle], [Poller(0, 0, 0, 0, Away)])
  }

  lemma StartIsInit(n: nat, k: nat)
    requires k >= 1
    ensures Init(Start(n, k)) && Inv(Start(n, k))
  {
    var p := Start(n, k);
    assert forall st: nat :: st in p.ids <==> st < n by {
      forall st: nat ensures st in p.ids <==> st < n { if st < n { assert p.ids[st] == st; } }
    }
    InitInv(p);
  }
}
