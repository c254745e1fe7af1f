/** flight_checkpoint.cpp as its callers use it: one manager object, its methods called one after the
    other. Each call is shown to be a run of the concurrent pool, so everything proved of the pool's
    runs holds of sequences of calls. */
module CheckpointManager {
  import opened Errno
  import opened FlightEvents
  import opened ScanOrder
  import opened CheckpointPool
  import opened PoolInvariant
  import opened PoolTheorems
  import opened SubmitCall
  import opened PollCall

  /** A refusal is passed on as a positive error number: itself if it is one, otherwise EIO, which is 5. */
  function Positive(rc: int): (r: int)
    ensures r > 0 && r in {rc, 5} && (rc > 0 ==> r == rc)
  {
    if rc > 0 then rc else EIO
  }

  /** How many DEVICE_CONFIRMED lines a piece of the log holds. */
  function Confirmations(lines: seq<Call>): nat {
    if lines == [] then 0
    else Confirmations(lines[..|lines| - 1]) + if IsConfirmed(lines[|lines| - 1]) then 1 else 0
  }

  function QueryCount(acts: seq<Action>): nat {
    if acts == [] then 0 else (if acts[0].Query? then 1 else 0) + QueryCount(acts[1..])
  }

  lemma {:induction false} QueryCountJoin(a: seq<Action>, b: seq<Action>)
    ensures QueryCount(a + b) == QueryCount(a) + QueryCount(b)
  {
    if a == [] {
      assert a + b == b;
    } else {
      assert (a + b)[1..] == a[1..] + b;
      QueryCountJoin(a[1..], b);
    }
  }

  class Manager {
    const k: nat
    var ids: seq<nat>
    var slots: map<SlotId, Slot>
    var cursors: map<nat, nat>
    var pollCursor: nat
    var polling: bool
    var log: seq<Call>
    // The device, and the history that ties log lines to what was recorded on it.
    var queue: map<nat, seq<Recording>>
    var done: map<nat, nat>
    var prov: seq<nat>
    var poller: Poller

    ghost function Abs(): Pool
      reads this
    {
      Pool(ids, k, slots, cursors, pollCursor, polling, 0, queue, done, log, prov, [Idle], [poller])
    }

    /** Between calls no thread is inside the manager. */
    ghost predicate Valid()
      reads this
    {
      Inv(Abs()) && !polling
    }

    constructor (slotsPerStream: nat)
      requires 1 <= slotsPerStream <= 1024
      ensures Valid() && Init(Abs()) && ids == [] && k == slotsPerStream
    {
      k := slotsPerStream;
      ids, slots, cursors, pollCursor, polling := [], map[], map[], 0, false;
      log, queue, done, prov := [], map[], map[], [];
      poller := Poller(0, 0, 0, 0, Away);
      new;
      InitInv(Abs());
    }

    /** flight_checkpoint_create. `complete` says whether the backend and all its functions are given. */
    static method Create(complete: bool, slotsPerStream: nat) returns (m: Manager?)
      ensures m == null <==> !complete || slotsPerStream == 0 || slotsPerStream > 1024
      ensures m != null ==> fresh(m) && m.Valid() && Init(m.Abs()) && m.ids == [] && m.k == slotsPerStream
    {
      if !complete || slotsPerStream == 0 || slotsPerStream > 1024 { return null; }
      m := new Manager(slotsPerStream);
    }

    /** The events of a new stream, created one by one. `createRc(i)` is what the backend answers for event
        `i`; the first refusal ends the loop, with `n` events to destroy. */
    method CreateEvents(id: nat, createRc: nat -> int) returns (rc: int, n: nat, pool: map<SlotId, Slot>)
      ensures n <= k && forall i: nat :: i < n ==> createRc(i) == 0
      ensures if n == k then rc == 0 else createRc(n) != 0 && rc == Positive(createRc(n))
      ensures WithFresh(slots, pool, id, n)
    {
      pool, n := slots, 0;
      while n < k
        invariant n <= k && (forall i: nat :: i < n ==> createRc(i) == 0) && WithFresh(slots, pool, id, n)
      {
        rc := createRc(n);
        if rc != 0 { return Positive(rc), n, pool; }
        pool := pool[SlotId(id, n) := FRESH_SLOT];
        n := n + 1;
      }
      rc := 0;
    }

    /** flight_checkpoint_register_stream, before traffic. `undone` counts the events created and destroyed
        again because a later one was refused. */
    method RegisterStream(id: nat, createRc: nat -> int) returns (rc: int, undone: nat)
      requires Valid() && Init(Abs())
      modifies this
      ensures Valid() && Init(Abs())
      ensures id in old(ids) ==> rc == EEXIST && undone == 0
      ensures id !in old(ids) && rc == 0 ==> forall i: nat :: i < k ==> createRc(i) == 0
      ensures id !in old(ids) && rc != 0 ==>
        undone < k && createRc(undone) != 0 && rc == Positive(createRc(undone)) && forall i: nat :: i < undone ==> createRc(i) == 0
      ensures rc == 0 ==> undone == 0 && ids == old(ids) + [id] && cursors == old(cursors)[id := 0]
      ensures rc != 0 ==> Abs() == old(Abs())
      ensures log == old(log) && pollCursor == old(pollCursor)
    {
      if id in ids { return EEXIST, 0; }
      var n, pool;
      rc, n, pool := CreateEvents(id, createRc);
      if rc != 0 { return rc, n; }
      ghost var p0 := Abs();
      slots := pool;
      ids := ids + [id];
      cursors := cursors[id := 0];
      queue := queue[id := []];
      done := done[id := 0];
      assert Abs() == Registered(p0, id, pool);
      RegisteredIsInit(p0, id, pool);
      InitInv(Abs());
      undone := 0;
    }

    /** The scan of submit: the first probe that meets a free slot, slots_per_stream if none does. */
    method FindFree(st: nat, start: nat) returns (n: nat)
      requires Valid() && st in ids && start == cursors[st]
      ensures n <= k && NoneFree(Abs(), st, n)
      ensures n < k ==> FoundAt(Abs(), st, n)
    {
      n := 0;
      while n < k && slots[SlotId(st, Visit(start, n, k, U32))].phase != FREE
        invariant n <= k && NoneFree(Abs(), st, n)
      {
        n := n + 1;
      }
    }

    /** The owner's part of submit when the backend records: number the reservation, store the ids,
        record, log and publish. */
    method Occupy(st: nat, sseq: nat, cid: nat, n: nat) returns (generation: nat)
      requires FoundAt(Abs(), st, n) && st in queue
      modifies this
      ensures generation == old(Abs()).slots[ProbedId(old(Abs()), st, n)].generation + 1
      ensures Abs() == AfterSubmit(old(Abs()), 0, st, sseq, cid, n)
      ensures log == old(log) + [Call(23, st, cid, sseq, generation, 1)]
    {
      ghost var p1 := AfterSubmit(Abs(), 0, st, sseq, cid, n);
      var id := SlotId(st, Visit(cursors[st], n, k, U32));
      var slot, q := slots[id], queue[st];
      generation := slot.generation + 1;
      slot := slot.(phase := RESERVED, holder := 0, generation := generation, submittedSeq := sseq, checkpointId := cid);
      slot := slot.(phase := PENDING, rec := |q|);
      var line := Call(CHECKPOINT, st, cid, sseq, generation, SUBMITTED);
      var recording := Recording(id.index, generation, sseq, cid, |log|, -1);
      assert slots[id := slot] == p1.slots && queue[st := q + [recording]] == p1.queue;
      cursors := cursors[st := (cursors[st] + 1) % U32];
      queue := queue[st := q + [recording]];
      log, prov := log + [line], prov + [|q|];
      slots := slots[id := slot];
      assert Abs() == p1;
    }

    method Commit(st: nat, sseq: nat, cid: nat, n: nat) returns (generation: nat, ghost acts: seq<Action>)
      requires Valid() && st in ids && sseq != 0 && n < k && NoneFree(Abs(), st, n) && FoundAt(Abs(), st, n)
      modifies this
      ensures Valid() && IsRun(old(Abs()), acts) && Exec(old(Abs()), acts) == Abs()
      ensures generation == old(Abs()).slots[ProbedId(old(Abs()), st, n)].generation + 1
      ensures Abs() == AfterSubmit(old(Abs()), 0, st, sseq, cid, n)
      ensures log == old(log) + [Call(23, st, cid, sseq, generation, 1)]
    {
      acts := SubmitIsRun(Abs(), 0, st, sseq, cid, n);
      generation := Occupy(st, sseq, cid, n);
    }

    /** The owner's part when the backend refuses: the number is used up and the slot given back. */
    method GiveBack(st: nat, sseq: nat, cid: nat, n: nat) returns (generation: nat, ghost acts: seq<Action>)
      requires Valid() && st in ids && sseq != 0 && n < k && NoneFree(Abs(), st, n) && FoundAt(Abs(), st, n)
      modifies this
      ensures Valid() && IsRun(old(Abs()), acts) && Exec(old(Abs()), acts) == Abs()
      ensures generation == old(Abs()).slots[ProbedId(old(Abs()), st, n)].generation + 1
      ensures Abs() == AfterFailure(old(Abs()), 0, st, sseq, cid, n)
      ensures log == old(log)
    {
      ghost var p1 := AfterFailure(Abs(), 0, st, sseq, cid, n);
      acts := FailureIsRun(Abs(), 0, st, sseq, cid, n);
      var id := SlotId(st, Visit(cursors[st], n, k, U32));
      var slot := slots[id];
      generation := slot.generation + 1;
      slot := slot.(phase := RESERVED, holder := 0, generation := generation, submittedSeq := sseq, checkpointId := cid);
      slot := slot.(phase := FREE);
      assert slots[id := slot] == p1.slots;
      cursors := cursors[st := (cursors[st] + 1) % U32];
      slots := slots[id := slot];
      assert Abs() == p1;
    }

    /** Every probe failed: the pool is reported full. */
    method NoteFull(st: nat, sseq: nat, cid: nat) returns (ghost acts: seq<Action>)
      requires Valid() && st in ids && sseq != 0 && NoneFree(Abs(), st, k)
      modifies this
      ensures Valid() && IsRun(old(Abs()), acts) && Exec(old(Abs()), acts) == Abs()
      ensures Abs() == AfterFull(old(Abs()), st, sseq, cid)
      ensures log == old(log) + [Call(23, st, cid, sseq, 0, 2)]
    {
      ghost var p0 := Abs();
      cursors := cursors[st := (cursors[st] + 1) % U32];
      log, prov := log + [Call(CHECKPOINT, st, cid, sseq, 0, POOL_FULL)], prov + [0];
      assert Abs() == AfterFull(p0, st, sseq, cid);
      acts := FullIsRun(p0, 0, st, sseq, cid);
    }

    /** flight_checkpoint_submit. `recordRc` is what the backend's record answers. `chosen` is the probe
        that found a free slot, slots_per_stream if none did; `acts` the run the call stands for. */
    method Submit(st: nat, sseq: nat, cid: nat, recordRc: int)
      returns (rc: int, generation: nat, ghost chosen: nat, ghost acts: seq<Action>)
      requires Valid()
      modifies this
      ensures Valid() && IsRun(old(Abs()), acts) && Exec(old(Abs()), acts) == Abs()
      ensures sseq == 0 ==> rc == EINVAL && acts == []
      ensures sseq != 0 && st !in old(ids) ==> rc == ENOENT && acts == []
      ensures sseq != 0 && st in old(ids) ==> Submitted(old(Abs()), Abs(), st, sseq, cid, recordRc, chosen, rc, generation)
      ensures rc == 0 ==> log == old(log) + [Call(23, st, cid, sseq, generation, 1)]
      ensures rc != 0 ==> log == if rc == EAGAIN && chosen == k then old(log) + [Call(23, st, cid, sseq, 0, 2)] else old(log)
      ensures sseq != 0 && st in old(ids) && old(Abs()).cursors[st] < U32 && NoSkew(old(Abs()).cursors[st], k, U32) ==>
        (chosen == k <==> forall i: nat :: i < k ==> old(Abs()).slots[SlotId(st, i)].phase != FREE)
    {
      ghost var p0 := Abs();
      rc, generation, chosen, acts := 0, 0, 0, [];
      if sseq == 0 { return EINVAL, 0, 0, []; }
      if st !in ids { return ENOENT, 0, 0, []; }
      var n := FindFree(st, cursors[st]);
      chosen := n;
      FullMeansNoneFree(p0, st, n);
      if n == k {
        acts := NoteFull(st, sseq, cid);
        return EAGAIN, 0, chosen, acts;
      }
      if recordRc != 0 {
        generation, acts := GiveBack(st, sseq, cid, n);
        return Positive(recordRc), generation, chosen, acts;
      }
      generation, acts := Commit(st, sseq, cid, n);
    }

    /** Not a call but the world: the device reaches the next event recorded on stream `st`. */
    method Complete(st: nat)
      requires Valid() && st in ids && done[st] < |queue[st]|
      modifies this
      ensures Valid() && Abs() == DoDevice(old(Abs()), st)
      ensures var acts := [DeviceCompletes(st)]; IsRun(old(Abs()), acts) && Exec(old(Abs()), acts) == Abs()
    {
      ghost var p0 := Abs();
      Snoc(p0, [], p0, DeviceCompletes(st));
      assert [] + [DeviceCompletes(st)] == [DeviceCompletes(st)];
      done := done[st := done[st] + 1];
      assert Abs() == DoDevice(p0, st);
    }

    /** What an answer writes: into the slot, and as lines. */
    static method Report(id: SlotId, before: Slot, rc: int) returns (slot: Slot, lines: seq<Call>, places: seq<nat>)
      requires before.phase == PENDING
      ensures slot == AnsweredSlot(before, rc)
      ensures lines == AnswerLines(id, before, rc) && places == AnswerPlaces(before, rc)
      ensures lines == [] <==> (rc == 0 && before.notReadyGen == before.generation)
                               || (rc !in {0, 1} && before.errorGen == before.generation)
      ensures lines != [] ==>
        lines == [Call(if rc == 1 then 24 else 23, id.stream, before.checkpointId, before.submittedSeq, before.generation,
                       if rc == 1 then 0 else if rc == 0 then 8 else 4)]
    {
      slot, lines, places := before, [], [];
      var gen := slot.generation;
      if rc == 1 {
        lines, places := [Call(DEVICE_CONFIRMED, id.stream, slot.checkpointId, slot.submittedSeq, gen, 0)], [slot.rec];
        slot := slot.(phase := FREE);
      } else if rc == 0 {
        if slot.notReadyGen != gen {
          lines, places := [Call(CHECKPOINT, id.stream, slot.checkpointId, slot.submittedSeq, gen, NOT_READY)], [0];
          slot := slot.(notReadyGen := gen);
        }
      } else {
        if slot.errorGen != gen {
          lines, places := [Call(CHECKPOINT, id.stream, slot.checkpointId, slot.submittedSeq, gen, QUERY_ERROR)], [0];
          slot := slot.(errorGen := gen);
        }
      }
    }

    /** One pending slot: query, report, release. */
    method AskSlot(id: SlotId, rc: int)
      requires id in slots && slots[id].phase == PENDING && id.stream in queue
      modifies this
      ensures Abs() == AfterAnswer(old(Abs()), 0, id, rc)
    {
      ghost var p1 := AfterAnswer(Abs(), 0, id, rc);
      var slot, lines, places := Report(id, slots[id], rc);
      var q, rec := queue[id.stream], slot.rec;
      if rc == 1 && rec < |q| { q := q[rec := q[rec].(conf := |log|)]; }
      assert (if rc == 1 && rec < |q| then queue[id.stream := q] else queue) == p1.queue;
      if rc == 1 && rec < |q| { queue := queue[id.stream := q]; }
      log, prov := log + lines, prov + places;
      slots := slots[id := slot];
      poller := Seen(poller);
      assert Abs() == p1;
    }

    /** One turn of poll's loop: a slot that is not pending is passed over, a pending one is queried. */
    method Turn(answer: int) returns (confirmed: nat, ghost acts: seq<Action>, ghost lines: seq<Call>)
      requires CanTurn(Abs(), answer)
      modifies this
      ensures Went(old(Abs()), Abs(), acts, lines) && |lines| <= 1 && confirmed == Confirmations(lines)
      ensures Abs() == AfterTurn(old(Abs()), answer) && QueryCount(acts) == poller.checked - old(poller).checked
    {
      ghost var p := Abs();
      var id := PollTarget(ids, k, poller.start, poller.offset);
      TurnTarget(p, id);
      if slots[id].phase == PENDING {
        confirmed, acts, lines := QuerySlot(id, answer);
      } else {
        PassOver(p);
        confirmed, acts, lines := 0, [Examine(0)], [];
        poller := poller.(offset := poller.offset + 1);
        assert Abs() == DoExamine(p, 0);
      }
    }

    method QuerySlot(id: SlotId, answer: int) returns (confirmed: nat, ghost acts: seq<Action>, ghost lines: seq<Call>)
      requires AboutToQuery(Abs(), 0, id, answer) && polling
      modifies this
      ensures Abs() == AfterAnswer(old(Abs()), 0, id, answer) && poller == Seen(old(poller))
      ensures Went(old(Abs()), Abs(), acts, lines) && |lines| <= 1
      ensures QueryCount(acts) == 1 && confirmed == Confirmations(lines)
    {
      ghost var p := Abs();
      lines := AnswerLines(id, slots[id], answer);
      acts := QueryActions(0, answer);
      AnswerWent(p, id, answer);
      AskSlot(id, answer);
      confirmed := if answer == 1 then 1 else 0;
    }

    /** Taking the polling flag and a start position. */
    method EnterPoll(budget: nat) returns (ghost acts: seq<Action>)
      requires Valid() && 0 < budget < U32 && |ids| * k > 0
      modifies this
      ensures Abs() == Started(old(Abs()), 0, budget) && Inv(Abs())
      ensures Went(old(Abs()), Abs(), acts, []) && QueryCount(acts) == 0
    {
      ghost var p0 := Abs();
      StartWent(p0, budget);
      acts := [Enter(0, budget), Advance(0)];
      polling := true;
      poller := Poller(budget, pollCursor, 0, 0, Scan);
      pollCursor := (pollCursor + budget) % U64;
      assert Abs() == Started(p0, 0, budget);
    }

    method LeavePoll() returns (ghost acts: seq<Action>)
      requires Scans(Abs()) && !MoreToScan(Abs())
      modifies this
      ensures Valid() && Went(old(Abs()), Abs(), acts, []) && QueryCount(acts) == 0
      ensures Abs() == DoLeave(old(Abs()), 0)
    {
      ghost var p := Abs();
      assert PollOk(p, 0);
      Snoc(p, [], p, Leave(0));
      acts := [] + [Leave(0)];
      poller := poller.(at := Away);
      polling := false;
      assert Abs() == DoLeave(p, 0);
    }

    /** Without registered streams the polling flag is taken and cleared again. */
    method EmptyPoll(budget: nat) returns (ghost acts: seq<Action>)
      requires Valid() && 0 < budget < U32 && |ids| * k == 0
      modifies this
      ensures Valid() && Went(old(Abs()), Abs(), acts, []) && QueryCount(acts) == 0
      ensures Abs() == old(Abs()).(polls := [Poller(budget, 0, 0, 0, Away)])
    {
      ghost var p0 := Abs();
      EmptyWent(p0, budget);
      acts := [Enter(0, budget), Advance(0)];
      poller := Poller(budget, 0, 0, 0, Away);
      assert Abs() == p0.(pollOwner := 0, polls := p0.polls[0 := Poller(budget, 0, 0, 0, Away)]);
    }

    /** One turn, with the run of the poll so far. */
    method TurnOn(answers: nat -> int, completed0: nat, ghost p1: Pool, ghost acts0: seq<Action>, ghost lines0: seq<Call>)
      returns (completed: nat, ghost acts: seq<Action>, ghost lines: seq<Call>)
      requires PollSoFar(p1, Abs(), answers, completed0, acts0, lines0) && MoreToScan(Abs())
      modifies this
      ensures PollSoFar(p1, Abs(), answers, completed, acts, lines) && poller.offset == old(poller).offset + 1
    {
      ghost var p := Abs();
      var confirmed;
      ghost var acts1, lines1;
      NextTurn(p1, p, answers, completed0, acts0, lines0);
      confirmed, acts1, lines1 := Turn(answers(poller.offset));
      TurnJoins(p1, p, Abs(), answers, completed0, acts0, lines0, confirmed, acts1, lines1);
      completed, acts, lines := completed0 + confirmed, acts0 + acts1, lines0 + lines1;
    }

    /** poll's loop. */
    method ScanSlots(answers: nat -> int) returns (completed: nat, ghost acts: seq<Action>, ghost lines: seq<Call>)
      requires CanScan(Abs(), answers) && poller.checked <= poller.budget
      modifies this
      ensures PollSoFar(old(Abs()), Abs(), answers, completed, acts, lines) && !MoreToScan(Abs())
    {
      ghost var p1 := Abs();
      completed, acts, lines := 0, [], [];
      assert p1.log + [] == p1.log;
      while poller.offset < |ids| * k && poller.checked < poller.budget
        invariant PollSoFar(p1, Abs(), answers, completed, acts, lines)
        decreases |ids| * k - poller.offset
      {
        completed, acts, lines := TurnOn(answers, completed, p1, acts, lines);
      }
    }

    /** A poll that finds streams. */
    method PollStreams(budget: nat, answers: nat -> int) returns (completed: nat, ghost acts: seq<Action>, ghost lines: seq<Call>)
      requires Valid() && Honest(Abs(), pollCursor, answers) && 0 < budget < U32 && |ids| * k > 0
      modifies this
      ensures Valid() && Went(old(Abs()), Abs(), acts, lines) && completed == Confirmations(lines) && QueryCount(acts) <= budget
      ensures CanScan(Started(old(Abs()), 0, budget), answers) && Abs() == AfterPoll(Started(old(Abs()), 0, budget), answers)
    {
      ghost var p0 := Abs();
      ghost var a := EnterPoll(budget);
      ghost var p1, b := Abs(), [];
      completed, b, lines := ScanSlots(answers);
      ghost var p2 := Abs();
      ghost var c := LeavePoll();
      StagesJoin(p0, p1, p2, Abs(), a, b, c, lines);
      acts := a + b + c;
    }

    /** flight_checkpoint_poll. `answers(o)` is what the backend answers for the slot at offset `o`, if it
        is queried; an answer of 1 is only given when every recording of the event has completed. A call
        that finds another poll under way changes nothing. */
    method Poll(budget: nat, answers: nat -> int) returns (completed: nat, ghost acts: seq<Action>)
      requires budget < U32 && Inv(Abs()) && (!polling ==> Honest(Abs(), pollCursor, answers))
      modifies this
      ensures Inv(Abs()) && polling == old(polling) && IsRun(old(Abs()), acts) && Exec(old(Abs()), acts) == Abs()
      ensures old(log) <= log && completed == Confirmations(log[|old(log)|..])
      ensures QueryCount(acts) <= budget
      ensures Kept(old(Abs()), Abs())
      ensures budget == 0 || old(polling) ==> completed == 0 && Abs() == old(Abs())
      ensures budget > 0 && !old(polling) && |ids| * k == 0 ==> Abs() == old(Abs()).(polls := [Poller(budget, 0, 0, 0, Away)])
      ensures budget > 0 && !old(polling) && |ids| * k > 0 ==>
        CanScan(Started(old(Abs()), 0, budget), answers) && Abs() == AfterPoll(Started(old(Abs()), 0, budget), answers)
    {
      if budget == 0 || polling { return 0, []; }
      ghost var p0, lines := Abs(), [];
      completed := 0;
      if |ids| * k == 0 {
        acts := EmptyPoll(budget);
      } else {
        completed, acts, lines := PollStreams(budget, answers);
      }
      assert log[|p0.log|..] == lines;
    }
  }

  /** What a poll leaves as it was: only the queries' lines and slots change. */
  ghost predicate Kept(p: Pool, p': Pool) {
    p'.ids == p.ids && p'.done == p.done && p'.cursors == p.cursors
    && forall d :: AllComplete(p, d) ==> AllComplete(p', d)
  }

  /** The poller has gone from `p` to `p'` by the steps `acts`, adding `lines` to the log. */
  ghost predicate Went(p: Pool, p': Pool, acts: seq<Action>, lines: seq<Call>) {
    IsRun(p, acts) && Exec(p, acts) == p' && p'.log == p.log + lines && Kept(p, p')
  }

  lemma KeptJoin(p: Pool, p1: Pool, p2: Pool)
    requires Kept(p, p1) && Kept(p1, p2)
    ensures Kept(p, p2)
  {}

  lemma LogJoin(p: Pool, p1: Pool, p2: Pool, la: seq<Call>, lb: seq<Call>)
    requires p1.log == p.log + la && p2.log == p1.log + lb
    ensures p2.log == p.log + (la + lb)
  {}

  lemma WentJoin(p: Pool, p1: Pool, p2: Pool, a: seq<Action>, b: seq<Action>, la: seq<Call>, lb: seq<Call>)
    requires Went(p, p1, a, la) && Went(p1, p2, b, lb)
    ensures Went(p, p2, a + b, la + lb)
  {
    RunJoin(p, a, b);
    KeptJoin(p, p1, p2);
    LogJoin(p, p1, p2, la, lb);
  }

  // ---- What a whole poll does ----

  /** `p` is further on in the poll that `p1` is in. */
  ghost predicate SamePoll(p1: Pool, p: Pool, answers: nat -> int) {
    && CanScan(p1, answers) && CanScan(p, answers) && AfterPoll(p, answers) == AfterPoll(p1, answers)
    && p.polls[0].budget == p1.polls[0].budget && p.polls[0].checked <= p.polls[0].budget
  }

  /** What the turns of a poll have done since it entered its loop in `p1`. */
  ghost predicate PollSoFar(p1: Pool, p: Pool, answers: nat -> int, completed: nat, acts: seq<Action>, lines: seq<Call>) {
    && SamePoll(p1, p, answers) && Went(p1, p, acts, lines) && completed == Confirmations(lines)
    && QueryCount(acts) == p.polls[0].checked - p1.polls[0].checked
  }

  lemma TurnJoins(p1: Pool, p: Pool, p': Pool, answers: nat -> int, completed: nat, a: seq<Action>, la: seq<Call>,
                  confirmed: nat, b: seq<Action>, lb: seq<Call>)
    requires PollSoFar(p1, p, answers, completed, a, la) && MoreToScan(p) && p' == AfterTurn(p, answers(p.polls[0].offset))
    requires Went(p, p', b, lb) && |lb| <= 1 && confirmed == Confirmations(lb)
    requires |p'.polls| == 1 && QueryCount(b) == p'.polls[0].checked - p.polls[0].checked
    ensures PollSoFar(p1, p', answers, completed + confirmed, a + b, la + lb) && p'.polls[0].offset == p.polls[0].offset + 1
  {
    TurnKeeps(p, answers);
    WentJoin(p1, p, p', a, b, la, lb);
    QueryCountJoin(a, b);
    ConfirmationsJoin(la, lb);
  }

  lemma NextTurn(p1: Pool, p: Pool, answers: nat -> int, completed: nat, acts: seq<Action>, lines: seq<Call>)
    requires PollSoFar(p1, p, answers, completed, acts, lines) && MoreToScan(p)
    ensures CanTurn(p, answers(p.polls[0].offset))
  {
    HonestTurn(p, answers);
  }

  /** A poll's loop follows its start, and its end follows the loop. */
  lemma StagesJoin(p: Pool, p1: Pool, p2: Pool, p3: Pool, a: seq<Action>, b: seq<Action>, c: seq<Action>, lines: seq<Call>)
    requires Went(p, p1, a, []) && Went(p1, p2, b, lines) && Went(p2, p3, c, [])
    requires QueryCount(a) == 0 && QueryCount(c) == 0
    ensures Went(p, p3, a + b + c, lines) && QueryCount(a + b + c) == QueryCount(b)
  {
    WentJoin(p, p1, p2, a, b, [], lines);
    WentJoin(p, p2, p3, a + b, c, [] + lines, []);
    QueryCountJoin(a, b);
    QueryCountJoin(a + b, c);
    assert [] + lines + [] == lines;
  }

  /** The one poller is inside its loop, between two slots. */
  ghost predicate Scans(p: Pool) {
    Inv(p) && p.polling && |p.polls| == 1 && p.polls[0].at.Scan?
  }

  /** The poller will examine another slot. */
  predicate MoreToScan(p: Pool) {
    |p.polls| == 1 && p.polls[0].offset < Total(p) && p.polls[0].checked < p.polls[0].budget
  }

  /** An answer of 1 is only given when every recording of the event has completed. */
  ghost predicate Honest(p: Pool, start: nat, answers: nat -> int) {
    p.k >= 1 && |p.ids| >= 1 ==>
      forall o: nat :: answers(o) == 1 ==> AllComplete(p, PollTarget(p.ids, p.k, start, o))
  }

  ghost predicate CanScan(p: Pool, answers: nat -> int) {
    Scans(p) && Honest(p, p.polls[0].start, answers)
  }

  lemma TurnTarget(p: Pool, id: SlotId)
    requires Scans(p) && MoreToScan(p)
    requires |p.ids| >= 1 && id == PollTarget(p.ids, p.k, p.polls[0].start, p.polls[0].offset)
    ensures id in p.slots && id.stream in p.queue && Enabled(p, Examine(0)) && Target(p, 0) == id
  {
    assert HasId(p, id);
  }

  ghost function AfterTurn(p: Pool, answer: int): Pool
    requires Scans(p) && MoreToScan(p)
  {
    assert |p.ids| >= 1;
    var id := PollTarget(p.ids, p.k, p.polls[0].start, p.polls[0].offset);
    TurnTarget(p, id);
    if p.slots[id].phase == PENDING then AfterAnswer(p, 0, id, answer)
    else p.(polls := [p.polls[0].(offset := p.polls[0].offset + 1)])
  }

  lemma HonestStays(p: Pool, p': Pool, start: nat, answers: nat -> int)
    requires Honest(p, start, answers) && Kept(p, p') && p'.k == p.k
    ensures Honest(p', start, answers)
  {}

  ghost predicate CanTurn(p: Pool, answer: int) {
    Scans(p) && MoreToScan(p) && |p.ids| >= 1
    && (answer == 1 ==> AllComplete(p, PollTarget(p.ids, p.k, p.polls[0].start, p.polls[0].offset)))
  }

  lemma HonestTurn(p: Pool, answers: nat -> int)
    requires CanScan(p, answers) && MoreToScan(p)
    ensures CanTurn(p, answers(p.polls[0].offset))
  {}

  lemma TurnKept(p: Pool, answer: int)
    requires CanTurn(p, answer)
    ensures var p' := AfterTurn(p, answer);
      && Scans(p') && Kept(p, p') && p'.k == p.k && p'.polls[0].start == p.polls[0].start
      && p'.polls[0].offset == p.polls[0].offset + 1 && p'.polls[0].budget == p.polls[0].budget
      && p.polls[0].checked <= p'.polls[0].checked <= p.polls[0].checked + 1
  {
    var id := PollTarget(p.ids, p.k, p.polls[0].start, p.polls[0].offset);
    TurnTarget(p, id);
    if p.slots[id].phase == PENDING { AnswerWent(p, id, answer); } else { PassOver(p); }
  }

  lemma TurnKeeps(p: Pool, answers: nat -> int)
    requires CanScan(p, answers) && MoreToScan(p)
    ensures var p' := AfterTurn(p, answers(p.polls[0].offset));
      && CanScan(p', answers) && p'.ids == p.ids && p'.k == p.k
      && p'.polls[0].offset == p.polls[0].offset + 1 && p'.polls[0].budget == p.polls[0].budget
      && p.polls[0].checked <= p'.polls[0].checked <= p.polls[0].checked + 1
  {
    HonestTurn(p, answers);
    TurnKept(p, answers(p.polls[0].offset));
    HonestStays(p, AfterTurn(p, answers(p.polls[0].offset)), p.polls[0].start, answers);
  }

  /** The rest of a poll: turns until the slots or the budget run out, then the flag is cleared. */
  ghost function AfterPoll(p: Pool, answers: nat -> int): Pool
    requires CanScan(p, answers)
    decreases Total(p) - p.polls[0].offset
  {
    if MoreToScan(p) then
      TurnKeeps(p, answers);
      AfterPoll(AfterTurn(p, answers(p.polls[0].offset)), answers)
    else DoLeave(p, 0)
  }

  lemma StartWent(p: Pool, budget: nat)
    requires Inv(p) && !p.polling && |p.polls| == 1 && 0 < budget < U32 && Total(p) > 0
    ensures Inv(Started(p, 0, budget)) && Went(p, Started(p, 0, budget), [Enter(0, budget), Advance(0)], [])
    ensures QueryCount([Enter(0, budget), Advance(0)]) == 0
  {
    assert PollOk(p, 0);
    StartIsRun(p, 0, budget);
    assert p.log + [] == p.log;
    assert [Enter(0, budget), Advance(0)][1..] == [Advance(0)] && [Advance(0)][1..] == [];
  }

  lemma EmptyWent(p: Pool, budget: nat)
    requires Inv(p) && !p.polling && |p.polls| == 1 && 0 < budget < U32 && Total(p) == 0
    ensures var p' := p.(pollOwner := 0, polls := p.polls[0 := Poller(budget, 0, 0, 0, Away)]);
      Inv(p') && Went(p, p', [Enter(0, budget), Advance(0)], [])
    ensures QueryCount([Enter(0, budget), Advance(0)]) == 0
  {
    assert PollOk(p, 0);
    EmptyIsRun(p, 0, budget);
    assert p.log + [] == p.log;
    assert [Enter(0, budget), Advance(0)][1..] == [Advance(0)] && [Advance(0)][1..] == [];
  }

  lemma AnswerWent(p: Pool, id: SlotId, rc: int)
    requires AboutToQuery(p, 0, id, rc) && |p.polls| == 1
    ensures var p' := AfterAnswer(p, 0, id, rc);
      && Inv(p') && Went(p, p', QueryActions(0, rc), AnswerLines(id, p.slots[id], rc))
      && p'.polling == p.polling && p'.polls == [Seen(p.polls[0])]
    ensures QueryCount(QueryActions(0, rc)) == 1
    ensures Confirmations(AnswerLines(id, p.slots[id], rc)) == (if rc == 1 then 1 else 0)
  {
    QueryIsRun(p, 0, id, rc);
    forall d | AllComplete(p, d) ensures AllComplete(AfterAnswer(p, 0, id, rc), d) { AnswerKeepsComplete(p, 0, id, rc, d); }
    OneQuery(rc);
  }

  lemma OneQuery(rc: int)
    ensures QueryCount(QueryActions(0, rc)) == 1
  {
    QueryCountJoin([Examine(0), LoadGen(0)], [Query(0, rc), Report(0), Release(0)]);
    assert QueryActions(0, rc) == [Examine(0), LoadGen(0)] + [Query(0, rc), Report(0), Release(0)];
    assert [LoadGen(0)][1..] == [] && [Examine(0), LoadGen(0)][1..] == [LoadGen(0)];
    assert [Query(0, rc), Report(0), Release(0)][1..] == [Report(0), Release(0)] && [Report(0), Release(0)][1..] == [Release(0)];
    assert [Release(0)][1..] == [];
  }

  lemma PassOver(p: Pool)
    requires Inv(p) && Enabled(p, Examine(0)) && p.slots[Target(p, 0)].phase != PENDING
    ensures Went(p, DoExamine(p, 0), [Examine(0)], []) && Inv(DoExamine(p, 0)) && QueryCount([Examine(0)]) == 0
    ensures |p.polls| == 1 ==> DoExamine(p, 0) == p.(polls := [p.polls[0].(offset := p.polls[0].offset + 1)])
  {
    Snoc(p, [], p, Examine(0));
    assert [] + [Examine(0)] == [Examine(0)];
  }

  lemma ConfirmationsJoin(a: seq<Call>, b: seq<Call>)
    requires |b| <= 1
    ensures Confirmations(a + b) == Confirmations(a) + Confirmations(b)
  {
    if b == [] {
      assert a + b == a;
    } else {
      assert (a + b)[..|a|] == a;
    }
  }

  /** The pool with one more stream. */
  function Registered(p: Pool, id: nat, slots: map<SlotId, Slot>): Pool {
    p.(ids := p.ids + [id], slots := slots, cursors := p.cursors[id := 0], queue := p.queue[id := []], done := p.done[id := 0])
  }

  /** `pool` is `slots` with the first `n` slots of stream `id` new and free. */
  ghost predicate WithFresh(slots: map<SlotId, Slot>, pool: map<SlotId, Slot>, id: nat, n: nat) {
    && (forall d :: d in pool ==> d in slots || (d.stream == id && d.index < n))
    && (forall d :: d in slots || (d.stream == id && d.index < n) ==> d in pool)
    && (forall d :: d in pool ==> pool[d] == (if d.stream == id && d.index < n then FRESH_SLOT else slots[d]))
  }

  lemma RegisteredIsInit(p: Pool, id: nat, slots: map<SlotId, Slot>)
    requires Init(p) && id !in p.ids && WithFresh(p.slots, slots, id, p.k)
    ensures Init(Registered(p, id, slots))
  {
    RegisteredShape(p, id, slots);
  }

  lemma RegisteredShape(p: Pool, id: nat, slots: map<SlotId, Slot>)
    requires Shape(p) && (forall t :: 0 <= t < |p.subs| ==> p.subs[t].Idle?) && WithFresh(p.slots, slots, id, p.k)
    requires forall q :: 0 <= q < |p.polls| ==> p.polls[q].at.Away?
    ensures Shape(Registered(p, id, slots))
  {}

  predicate FoundAt(p: Pool, st: nat, n: nat) {
    p.k >= 1 && st in p.cursors && ProbedId(p, st, n) in p.slots && p.slots[ProbedId(p, st, n)].phase == FREE
  }

  /** What a call of submit on a registered stream has done. */
  ghost predicate Submitted(p: Pool, p': Pool, st: nat, sseq: nat, cid: nat, recordRc: int, chosen: nat, rc: int, gen: nat) {
    && chosen <= p.k && p.k >= 1 && st in p.cursors && st in p.queue && |p.subs| == 1 && NoneFree(p, st, chosen)
    && if chosen == p.k then
         rc == EAGAIN && p' == AfterFull(p, st, sseq, cid)
       else
         && FoundAt(p, st, chosen)
         && (if recordRc == 0 then
               && rc == 0 && gen == p.slots[ProbedId(p, st, chosen)].generation + 1
               && p' == AfterSubmit(p, 0, st, sseq, cid, chosen)
             else
               rc == Positive(recordRc) && p' == AfterFailure(p, 0, st, sseq, cid, chosen))
  }

  /** Without skew a fruitless scan means a full pool. */
  lemma FullMeansNoneFree(p: Pool, st: nat, n: nat)
    requires Inv(p) && st in p.ids && n <= p.k && NoneFree(p, st, n)
    requires n < p.k ==> p.slots[ProbedId(p, st, n)].phase == FREE
    ensures p.cursors[st] < U32 && NoSkew(p.cursors[st], p.k, U32) ==>
      (n == p.k <==> forall i: nat :: i < p.k ==> p.slots[SlotId(st, i)].phase != FREE)
  {
    if p.cursors[st] < U32 && NoSkew(p.cursors[st], p.k, U32) {
      if n == p.k {
        forall i: nat | i < p.k ensures p.slots[SlotId(st, i)].phase != FREE {
          var m := Covers(p.cursors[st], p.k, U32, i);
          assert ProbedId(p, st, m) == SlotId(st, i);
        }
      } else {
        assert ProbedId(p, st, n) == SlotId(st, ProbedId(p, st, n).index);
      }
    }
  }
}
