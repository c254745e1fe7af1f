# HangAnalyzer: verified model

HangAnalyzer is a flight recorder for NPU workloads. Host threads write events into memory-mapped rings
that survive a crash; a checkpoint manager records device events on streams and logs when the device has
reached them; offline Python reads copies of the rings and reports how far every stream came, which ranks
entered which collective, and which waits form a cycle. This project models that chain in Dafny and proves
what its report may be trusted for.

`dafny verify dfyconfig.toml` checks everything.

## The parts

| file | models |
|---|---|
| `Records.dfy`, `Wrappers.dfy`, `Errno.dfy`, `FiniteSets.dfy`, `ModArith.dfy` | numbered records and sorting, optional results, error numbers, counting, remainders |
| `RingReaders.dfy` | both offline readers as loops over the slots of a file |
| `RingProtocol.dfy` | concurrent writers of a ring: claim, zero the number, store word by word, publish |
| `LiveReader.dfy` | `read_ring` with every load interleaved with writers |
| `LiveCopy.dfy` | a ring file copied word by word while it is written, and read from the copy |
| `FlightRing.dfy` | the recorder object: `flight_init`, `flight_record` over an array |
| `FlightEvents.dfy`, `CheckpointPool.dfy`, `PoolFrames.dfy`, `PoolInvariant.dfy`, `PoolTheorems.dfy` | submitters, pollers and device streams as interleaved atomic steps; what each step leaves alone; what every step keeps; safety over whole runs |
| `ScanOrder.dfy`, `PollFairness.dfy`, `PollBudget.dfy`, `ReadyConfirmed.dfy` | wrapping cursors, fairness of polling, what a poll's budget buys, confirmation within one round |
| `LogLines.dfy` | what each log line says about the step, the submission and the answer it was written for |
| `SubmitCall.dfy`, `PollCall.dfy`, `CheckpointManager.dfy`, `ManagerClient.dfy` | the manager object; each of its calls is a run of the concurrent pool; a client |
| `SmallPool.dfy`, `FullPool.dfy`, `PollSkew.dfy` | when EAGAIN means that the pool is full, and when one round of polling is enough |
| `Progress.dfy` | per-stream checkpoint progress of `analyze` |
| `Watermark.dfy`, `Discipline.dfy`, `EndToEnd.dfy` | when a checkpoint reported confirmed has completed on the device, from the device to the parsed ring copy |
| `PollDriver.dfy`, `ConfirmDriver.dfy`, `WatermarkExact.dfy`, `WatermarkLimits.dfy` | the exact condition for that, and what it costs callers |
| `CycleFinder.dfy`, `Dependencies.dfy` | `find_cycles` and the wait/record graph it is given |
| `CallbackPairing.dfy`, `RingPairing.dfy` | pairing of callback entries and exits on truncated history, and on a ring that concurrent writers filled |
| `Collectives.dfy` | the loss flag and missing collective participants |
| `SnapshotMerge.dfy` | merging snapshots of one process |
| `Layout.dfy` | C++ struct bytes against Python struct formats; labels |

## Main results

* **When may the report be trusted?** The report calls a checkpoint confirmed when a confirmation carries
  its `submitted_seq`, `checkpoint_id` and generation, or when a later checkpoint of the stream is confirmed.
  That the device has then completed it is not true of every run. The *recording guard*: an event is
  recorded behind logged recordings of its stream only, and none of them carries the same `submitted_seq`,
  `checkpoint_id` and generation. `Watermark.WatermarkSound`: runs in which every recording meets the guard
  have true reports at every moment and on every retained part of the log. `WatermarkExact.RecordGuardIsExact`:
  from every state such a run reaches, in a pool that has a poller, the next recording is safe if and only if
  it meets the guard.
  `Discipline` gives callers two ways to meet it: submit in turn on each stream and never reuse a recorded
  pair of `submitted_seq` and `checkpoint_id`, or use one slot per stream.
  `WatermarkLimits.OneSlotIsExact`: with no discipline at all, reports are always true if and only if
  `slots_per_stream` is 1. For every larger value `WatermarkLimits` gives a run of overlapping submissions
  with all numbers different, and a run of one thread that repeats a pair, whose reports are wrong.
* **End to end.** `EndToEnd.ReportedConfirmedHasCompleted`: run submitters, pollers, the device and all ring
  writers in any interleaving, copy the ring atomically at any moment, parse the copy and build the report. If
  the recordings met the guard, each checkpoint marked confirmed, exactly or by a later checkpoint, has
  completed on the device. It assumes that the copy is atomic, that streams complete in order, that the backend
  answers 1 only when every recording of the event has completed, and the lag assumption below.
  `EndToEnd.LiveCopyReportIsTrue` drops the atomic copy: the file may be copied word by word while the system
  runs, as long as no slot is stored to while that slot is copied.
* **The pool.** Reserved slots have one owner, at most one slot is queried, events are recorded again only
  when complete, a slot hands out the generations 1, 2, 3, ... once each, a confirmation answers one
  submission once, the submitted records of a stream outnumber the confirmed ones by at most
  `slots_per_stream`. From any state of a pool that has a poller a logged recording can be brought to its confirmation.
* **The log.** `LogLines.LineTellsStep`: over every run each bit of a line's flags stands for one action: SUBMITTED
  for a logged recording, POOL_FULL for a fruitless scan, NOT_READY and QUERY_ERROR for an answer of 0 and for an
  error; the line carries the numbers of that submission. `LogLines.AnswersAreLogged` adds the converse, although
  each report is made once for a generation. So on a complete log the analyzer sees a checkpoint as not ready if
  and only if such an answer was reported, and with the recording guard it was reported for that very recording.
* **The rings.** A copy yields exactly the published events of the last `capacity` numbers; a live read is never torn and
  misses nothing that stood still; the two readers agree on any file. The code relies on a *lag
  assumption*: when number s + capacity is claimed, the writer of s has published. `RingProtocol.LagIsExact`
  shows that this is the exact condition under which a claim is safe, and `RingProtocol.LagCanFail` that
  every fresh ring can be led to a state in which it fails.
* **Copies of live rings.** The watchdog copies ring files that are still written, and the slot-scanning reader
  loads each number once. `LiveCopy.WholeUnlessStored`: a record it returns is whole unless its slot was stored
  to while it was copied. `LiveCopy.HalfwayCanTear`: until the last word of a record is loaded, writers can still
  make the reader return it with words that are not its own.
* **Wrapping cursors.** The scans reduce a wrapped 32- or 64-bit sum modulo the number of slots.
  `ScanOrder.CoverageExact`: the scan meets every slot if and only if it does not wrap or the number of
  slots divides the word size. `FullPool.EagainExact`: over all states the pool can reach, EAGAIN means that
  no slot is free if and only if `slots_per_stream` divides 2^32; for every other value
  `FullPool.SpuriousEagain` leads from a fresh pool to a call that is told EAGAIN although a slot is free.
  `PollSkew.RoundExact`: polls whose budgets add up to the number of slots query every pending slot, in every
  state the pool can reach, if and only if the number of slots divides 2^64.
* **Cycles.** `find_cycles` terminates for every iteration order, reports simple cycles of real edges, no
  two of them rotations of each other, and every cycle of the graph passes the closing edge of a reported
  one. Normal hand-offs give no cycle; every cycle contains a wait whose record comes later.

Where a file name or line is cited below, the path is relative to the root of the repository.

## Model

| member | source | states |
|---|---|---|
| RingReaders.ReadEvents | flightrecorder/format.py:21-46 | refuses exactly the files without a whole header and the headers that are not version 1 with 64-byte events and capacity 2 or more; otherwise returns, in increasing order, exactly the records of the last capacity numbers that sit in the slot of their number, reading a short file as far as it goes |
| RingReaders.ReadRing | flightrecorder/mspti_ring.py:20-50 | refuses exactly truncated headers, magics, versions and sizes other than 1 with 128 and 2 with 192 bytes, and truncated files; otherwise returns exactly the records of the last capacity numbers that sit in the slot of their number, in increasing order |
| RingReaders.SlotScanMembers | flightrecorder/format.py:36-46 | for any slot contents the result is strictly increasing and holds exactly the records with 1 <= number <= write_seq < number + capacity that sit in the slot of their number |
| RingReaders.SeqScanMembers | flightrecorder/mspti_ring.py:30-48 | the sequence scan meets exactly the records that are live from a given number on, in increasing order |
| RingReaders.ReadersAgree | flightrecorder/mspti_ring.py:30-48 | on a full-length ring with arbitrary contents and any write_seq the two readers return the same list |
| RingProtocol.RunKeepsInv | src/flight_recorder.cpp:84-98 | in every run of concurrent writers that respects the lag assumption, the slot of each number of the window holds what the stage of its call implies, whatever the other calls do |
| RingProtocol.SnapshotRefinesLog | src/flight_recorder.cpp:84-98 | at any step of any such run an atomic copy reads, in order, as exactly the published records among the last capacity claimed numbers, with the words their callers passed; claimed, zeroed and half-written slots are not seen |
| RingProtocol.LagIsExact | src/flight_recorder.cpp:84-98 | from every state an orderly run reaches, and whatever payload the next call stores, its claim keeps all later copies faithful if and only if the previous user of its slot has published |
| RingProtocol.LagCanFail | src/flight_recorder.cpp:84-86 | from every fresh ring, as many claims as it has slots, none followed by a store, are an orderly run after which the next claim is unsafe with any payload |
| RingProtocol.CallAlone | src/flight_recorder.cpp:81-101 | a call that nothing interrupts is a run of the protocol and leaves its whole record published |
| RingProtocol.MidwayRuns | src/flight_recorder.cpp:84-98 | what the ring holds after the claim and the first n stores of an uninterrupted call is what the same n steps of the protocol make of it |
| LiveReader.NumberMeansPayload | src/hang_mspti.cpp:57-73 | a slot that carries number s holds all members, decoded, of the call that claimed s |
| LiveReader.NeverTorn | flightrecorder/mspti_ring.py:32-48 | whenever the reader, interleaved step by step with writers, has accepted a record, it is one of the last capacity numbers of the header read, its words are those of the claimant of that number, and the list is increasing |
| LiveReader.NothingMissed | flightrecorder/mspti_ring.py:30-48 | a finished live read contains every number that was published when the header was read and that is still one of the last capacity claimed when the read ends |
| LiveCopy.WholeUnlessStored | flightrecorder/watchdog.py:61 | a record that the slot scan of a word-by-word copy returns, taken while writers go on, is whole unless its slot was stored to while it was copied |
| LiveCopy.NothingMissed | flightrecorder/format.py:33-46 | every number that was published when the copy began and is still one of the last capacity claimed when it ends is returned whole |
| LiveCopy.HalfwayCanTear | flightrecorder/format.py:39-46 | from every state in which the copier has a record's number and not all its words, and nobody has claimed its slot again, orderly writers can make the reader return that number with words that are not its own |
| FlightRing.Recorder.Initialize | src/flight_recorder.cpp:56-79 | succeeds exactly for capacities from 2 to 2^26 on a recorder that is not open, and then the ring is empty; otherwise EINVAL and nothing changes |
| FlightRing.StoreCall | src/flight_recorder.cpp:86-98 | before the first store and after each, in order zero, words, number, the array holds what the protocol says |
| FlightRing.Recorder.Record | src/flight_recorder.cpp:81-101 | returns the next number and leaves the ring as one uninterrupted run of the concurrent protocol would, each store being the step of that run; without a mapping returns 0 and writes nothing |
| PoolInvariant.StepKeepsInv | src/flight_checkpoint.cpp:81-156 | every atomic step of submitters, pollers, device and host keeps the pool invariant, whatever the interleaving |
| PoolTheorems.SlotProtocol | src/flight_checkpoint.cpp:86-153 | in every reachable state a RESERVED slot has exactly one owning submitter, owned slots are RESERVED, and at most one slot is QUERYING |
| PoolTheorems.EventReusedOnlyWhenComplete | src/flight_checkpoint.cpp:103 | an event is recorded only by the owner of its RESERVED slot and only when the device has completed all its earlier recordings |
| PoolTheorems.GenerationsAreFresh | src/flight_checkpoint.cpp:100 | over every run a slot's submitters are given the generations 1, 2, 3, ... in order, as many as the slot's generation says, so none is given twice |
| PoolTheorems.ConfirmedOnce | src/flight_checkpoint.cpp:132-137 | every DEVICE_CONFIRMED line has exactly one SUBMITTED line of the same slot and generation; it comes earlier, carries the same ids, and no other line confirms it |
| PoolTheorems.PoolAccounting | src/flight_checkpoint.cpp:86-110 | at every moment the submitted lines of a stream outnumber its confirmed lines by exactly the open submissions, at most slots_per_stream |
| PoolTheorems.QuietPolling | src/flight_checkpoint.cpp:138-152 | while nothing is submitted and no answer is complete, any number of polls logs exactly the reports not given yet: at most two lines per slot on the device, then nothing |
| LogLines.LineTellsStep | src/flight_checkpoint.cpp:95-152 | every line of every run was added by one step that explains it: SUBMITTED, POOL_FULL, NOT_READY and QUERY_ERROR lines and DEVICE_CONFIRMED lines come exactly from a logged recording, a fruitless scan, an answer of 0, an error answer and an answer of 1, and carry the stream, checkpoint_id, submitted_seq and generation of the submission concerned |
| LogLines.AnswersAreLogged | src/flight_checkpoint.cpp:131-152 | over every run the log has a line reporting complete, not ready or an error for a tuple if and only if such an answer was reported for a recording with that tuple, although a repeated report of one generation is suppressed |
| LogLines.AnswerWasGiven | src/flight_checkpoint.cpp:130-131 | the answer a poller reports is what the backend said to that poller's query of the same slot and generation |
| LogLines.NotReadySeenExact | flightrecorder/analyzer.py:86-87 | on a complete log the analyzer sees a checkpoint tuple as not ready if and only if an answer of 0 was reported for a recording with that tuple |
| LogLines.NotReadyMeansAnswered | flightrecorder/analyzer.py:125-128 | in a run whose recordings meet the guard, a submission is seen as not ready if and only if an answer of 0 was reported for its very recording |
| ScanOrder.CoverageExact | src/flight_checkpoint.cpp:88-89 | a scan with a wrapping start visits every slot if and only if it does not wrap or the slot count divides the word size |
| ScanOrder.FullPoolExact | src/flight_checkpoint.cpp:86-99 | under exactly the same condition a submit that nothing interrupts finds a free slot for every occupancy of the pool that has one |
| FullPool.EagainExact | src/flight_checkpoint.cpp:86-99 | over all reachable states, a scan that nothing interrupts meets no free slot only when there is none, if and only if slots_per_stream divides 2^32 |
| FullPool.SpuriousEagain | src/flight_checkpoint.cpp:86-99 | for every other slots_per_stream, calls of one thread one after the other and each complete, lead a fresh pool to one more call of that thread that ends with POOL_FULL and EAGAIN although the last slot is free |
| FullPool.SkewedSubmitExample | src/flight_checkpoint.cpp:88-99 | three slots, the first two pending, and a cursor at 2^32 - 1: a reachable pool whose next submission is told EAGAIN although slot 2 is free |
| PollFairness.EveryPendingSlotIsQueried | src/flight_checkpoint.cpp:121-128 | in any run whose polls have budgets adding up to the number of slots, every slot pending at the start is queried, although slots that are not pending use no budget; the 64-bit cursor must not wrap within the first round unless the number of slots divides 2^64 |
| PollBudget.BudgetIsUsed | src/flight_checkpoint.cpp:121-129 | in any run between two moments without a poll under way whose polls take fewer slots than their budgets allow, every slot pending at the start is queried: a poll stops short of its budget only after a whole round; the cursor must not wrap unless the number of slots divides 2^64 |
| ReadyConfirmed.ReadyIsConfirmed | src/flight_checkpoint.cpp:121-137 | in such a run, under the same condition on the cursor, a slot for which the backend always answers complete gets the DEVICE_CONFIRMED line of its own submission |
| ReadyConfirmed.ReadyWithinOneRound | src/flight_checkpoint.cpp:115-156 | ceil(total / budget) polls are enough for both, under the same condition on the cursor |
| PollSkew.SkewedPollMisses | src/flight_checkpoint.cpp:121-125 | for every number of slots that does not divide 2^64 the pool reaches a state in which a poll whose budget is the number of slots leaves a pending slot unqueried |
| PollSkew.RoundExact | src/flight_checkpoint.cpp:121-128 | in every reachable idle state polls whose budgets add up to the number of slots query every pending slot, if and only if the number of slots divides 2^64 |
| SubmitCall.SubmitIsRun | src/flight_checkpoint.cpp:81-113 | a successful call of any thread is a run of the pool's atomic steps and ends with the slot pending, the recording queued and the SUBMITTED line logged |
| SubmitCall.FullIsRun | src/flight_checkpoint.cpp:95-99 | a call that meets no free slot is a run and leaves only the POOL_FULL line and the moved cursor |
| SubmitCall.FailureIsRun | src/flight_checkpoint.cpp:104-107 | a call whose backend record fails is a run that uses up a generation and gives the slot back |
| PollCall.QueryIsRun | src/flight_checkpoint.cpp:127-152 | claim, generation load, query, report and release of one slot are a run that ends with exactly the slot state the answer calls for and the lines that `LogLines` explains |
| CheckpointManager.Manager.Create | src/flight_checkpoint.cpp:49-58 | null exactly for an incomplete backend and for 0 or more than 1024 slots per stream; otherwise an initial state of the pool without streams |
| CheckpointManager.Manager.RegisterStream | src/flight_checkpoint.cpp:60-79 | EEXIST; or the error of the first event the backend refuses, with exactly the events created before it undone and nothing changed; or a new stream at the end of the list, the pool staying an initial state |
| CheckpointManager.Manager.Submit | src/flight_checkpoint.cpp:81-113 | which error is returned when, the line each outcome adds, the new state in each case, that the call is a run of the concurrent pool, and that without cursor skew EAGAIN is returned if and only if no slot is free |
| CheckpointManager.Manager.Report | src/flight_checkpoint.cpp:132-152 | an answer of 1 adds one DEVICE_CONFIRMED line, an answer of 0 one line with flags 8 and any other answer one with flags 4, unless that report was made for this generation before; the lines carry the slot's numbers |
| CheckpointManager.Manager.Poll | src/flight_checkpoint.cpp:115-156 | nothing for a zero budget or while another poll is under way; otherwise the whole new state; the call is a run of the concurrent pool with at most budget queries; the result counts the DEVICE_CONFIRMED lines added |
| ManagerClient.SubmitAndConfirm | src/flight_checkpoint.cpp:81-156 | create, register, submit, let the device reach the event, poll: generation 1, one completion, and a log of exactly the SUBMITTED and DEVICE_CONFIRMED lines |
| Progress.StatusesSplit | flightrecorder/analyzer.py:98-130 | statuses are a confirmed prefix up to the last exact confirmation and an unconfirmed suffix |
| Progress.EntryTells | flightrecorder/analyzer.py:96-130 | the entry of a stream, on the events of a parsed file: completed_seq and confirmed_through are of the highest-numbered submission with a matching confirmation, submitted_seq of the highest-numbered submission, the unconfirmed interval begins right behind and ends at the last; the counts are those of the submissions, of those with a confirmation, of those behind the last such one, and of these with a not-ready line; each mapping has its submission's ids, status and the number of its last confirmation |
| Progress.ConfirmedBehindExact | flightrecorder/analyzer.py:98-108 | a checkpoint reported confirmed stands at or before one with an exact confirmation |
| Progress.BehindExactIsConfirmed | flightrecorder/analyzer.py:98-108 | conversely, a submission at or before one with an exact confirmation is reported confirmed |
| Progress.WatermarkMonotone | flightrecorder/analyzer.py:88-130 | later events never lower the confirmed index nor downgrade a checkpoint's status |
| Progress.UnmatchedConfirmationIgnored | flightrecorder/analyzer.py:88-89 | a confirmation without generation, or matching no submitted tuple, changes no entry of the report wherever it stands |
| Progress.ListMappings | flightrecorder/analyzer.py:102-115 | the loop builds one mapping per checkpoint with the status of the specification |
| Progress.StreamReport | flightrecorder/analyzer.py:96-130 | the loops compute an entry that tells of the stream what its events show, as EntryTells states |
| Progress.ReportProgress | flightrecorder/analyzer.py:65-130 | the report has an entry for exactly the streams with a submission, and on a parsed file each tells what the events show |
| Watermark.StepKeepsOrder | src/flight_checkpoint.cpp:81-113 | guarded steps keep each stream's recordings in the order of their SUBMITTED lines, with distinct tuples |
| Watermark.ExactIsComplete | flightrecorder/analyzer.py:88-109 | a confirmation that matches a retained submission answers that very recording, which has completed |
| Watermark.WatermarkSound | flightrecorder/analyzer.py:88-130 | in every state of a run whose recordings meet the guard, and for every retained window of its log, each checkpoint marked confirmed has completed on the device |
| Discipline.DisciplinedIsTruthful | src/flight_checkpoint.cpp:81-113 | callers that do not overlap on a stream and do not submit a recorded submitted_seq again under the same checkpoint_id meet the guard, so their reports are true |
| Discipline.OneSlotIsTruthful | src/flight_checkpoint.cpp:86-113 | with one slot per stream any callers meet the guard, whatever they overlap or reuse |
| ConfirmDriver.LoggedCanBeConfirmed | src/flight_checkpoint.cpp:115-156 | from every state of a pool that has a poller and at most 2^64 slots, a logged recording can be brought to its DEVICE_CONFIRMED line without another submission and without the device passing it |
| WatermarkExact.ForbiddenMisleads | flightrecorder/analyzer.py:88-109 | in such a pool a recording that does not meet the guard leads, without any further submission, to a report that marks a checkpoint confirmed although it has not completed |
| WatermarkExact.RecordGuardIsExact | src/flight_checkpoint.cpp:103-109 | in such a pool, from every state a guarded run reaches, reports stay true in all guarded continuations of the next recording if and only if that recording meets the guard |
| Watermark.UnconfirmedFitsPool | flightrecorder/analyzer.py:101-124 | on a complete log unconfirmed_count never exceeds slots_per_stream, whatever the interleaving |
| WatermarkLimits.OverlapMisleads | src/flight_checkpoint.cpp:103-109 | for every slots_per_stream above 1, two threads submitting to one stream, every number used once, can have a checkpoint reported confirmed that has not completed |
| WatermarkLimits.ReusedPairMisleads | flightrecorder/analyzer.py:88-109 | for every slots_per_stream above 1, one thread that repeats one call, same submitted_seq and checkpoint_id, can have a checkpoint reported confirmed that has not completed |
| WatermarkLimits.OneSlotIsExact | flightrecorder/analyzer.py:88-130 | every run of every pool with k slots per stream has true reports in every retained window if and only if k is 1 |
| EndToEnd.WordsRoundTrip | src/flight_recorder.cpp:87-97 | storing the fields of an event word by word and parsing the words gives back the event |
| EndToEnd.DecodeIsUnpacked | flightrecorder/format.py:39-45 | decoding the words gives the event that unpacking the members of the struct gives |
| EndToEnd.RunKeeps | src/flight_recorder.cpp:81-101 | in every run of the whole system, with any callers, claimed numbers carry the pool's log lines, and pool and ring keep their invariants |
| EndToEnd.CopyIsRetained | flightrecorder/format.py:33-46 | the parsed copy of the ring is a retained window of the pool's log |
| EndToEnd.ReportedConfirmedHasCompleted | flightrecorder/analyzer.py:88-130 | for an atomic copy taken at any moment of any run of the whole system whose recordings meet the guard, each checkpoint the report marks confirmed has completed on the device |
| EndToEnd.DisciplinedReportIsTrue | flightrecorder/analyzer.py:88-130 | the same for callers that submit in turn and reuse no pair |
| EndToEnd.OneSlotReportIsTrue | flightrecorder/analyzer.py:88-130 | the same for any callers of a pool with one slot per stream |
| EndToEnd.LiveCopyReportIsTrue | flightrecorder/watchdog.py:57-62 | the same for a copy taken word by word while the system runs, if no slot is stored to while that slot is copied |
| CycleFinder.SegmentIsCycle | flightrecorder/analyzer.py:26-27 | the stack segment closed by a back edge is a simple cycle of real edges, all but the last of them edges the search descended along |
| CycleFinder.SegmentIsNew | flightrecorder/analyzer.py:28-29 | the test whether the cycle was listed before never rejects one |
| CycleFinder.Finder.Visit | flightrecorder/analyzer.py:23-32 | terminates; restores stack and visiting, marks the node visited, keeps everything reported so far, and uses only edges out of nodes it starts itself |
| CycleFinder.Finder.Follow | flightrecorder/analyzer.py:25-31 | after one edge its target is visited or the edge is a reported back edge |
| CycleFinder.WalkMeetsReport | flightrecorder/analyzer.py:21-36 | every closed walk of the graph passes the closing edge of a reported cycle |
| CycleFinder.NoRotations | flightrecorder/analyzer.py:26-29 | no two reported cycles are equal or rotations of each other |
| CycleFinder.FindCycles | flightrecorder/analyzer.py:21-36 | for every graph and every iteration order: only simple cycles of real edges, none twice even rotated, every cycle of the graph met, and the list is empty if and only if there is none |
| Dependencies.AddRecordEdges | flightrecorder/analyzer.py:161-170 | the loop adds exactly the edges from each record to the earlier waits of its stream |
| Dependencies.Collect | flightrecorder/analyzer.py:75-78 | the waits of all ranks, and for each rank and event its last retained record |
| Dependencies.BuildEdges | flightrecorder/analyzer.py:161-181 | on parsed files there is an edge from a wait to a record if and only if the record is of the event waited for and no record of that event on the rank has a higher number, and an edge from a record to a wait if and only if the wait stands earlier on the same stream |
| Dependencies.WaitHasEdge | flightrecorder/analyzer.py:171-181 | a retained wait has an edge if and only if its rank retains a record of its event |
| Dependencies.CycleShape | flightrecorder/analyzer.py:161-181 | every closed walk stays on one rank, alternates waits and records, and contains a wait before the last record of its event |
| Dependencies.HandOffsHaveNoCycle | flightrecorder/analyzer.py:157-160 | when every retained wait comes after the last record of its event, the graph has no closed walk |
| Dependencies.StreamCycles | flightrecorder/analyzer.py:156-196 | the reported list is empty if and only if that graph has no cycle, and empty when every retained wait comes after the last record of its event |
| CallbackPairing.KeysAgree | flightrecorder/mspti_ring.py:64-68 | two callbacks share a stack if and only if they agree in thread, callback id and domain |
| CallbackPairing.EntryIsListed | flightrecorder/mspti_ring.py:63-66 | whatever came before, an entry is listed when it is the last event, and events other than callbacks change no stack |
| CallbackPairing.TraceGrows | flightrecorder/mspti_ring.py:61-70 | every well-nested run meets the hypothesis: it may go on with any event that is no exit and with the exit of the innermost open call of any thread |
| CallbackPairing.StackIsOpen | flightrecorder/mspti_ring.py:62-70 | the stack of a thread holds an entry if and only if at no later moment have the exits of the thread outnumbered the entries behind it |
| CallbackPairing.FinishedCallIsGone | flightrecorder/mspti_ring.py:67-70 | whatever came before, an entry directly followed by the exit of its kind, thread and id leaves every stack as it was |
| CallbackPairing.PairingExact | flightrecorder/mspti_ring.py:61-70 | in a run in which every exit has the kind, thread and callback id that end the innermost open call of its thread, the stack of a key after any hole-free suffix holds exactly the calls of that key that are open in the full run and were entered in the suffix, in order |
| CallbackPairing.ReportedOpenIsOpen | flightrecorder/mspti_ring.py:61-72 | in such a run a call is listed for the window if and only if it was entered in the window and at no later moment have the exits of its thread outnumbered the entries behind it |
| RingPairing.ReadIsSuffix | flightrecorder/mspti_ring.py:30-48 | once all writers have published, reading the ring yields the last capacity events of the run, or all of them, without a hole |
| RingPairing.ListedIsOpen | flightrecorder/mspti_ring.py:52-72 | however concurrent writers interleaved, once all have published the report lists a call as open if and only if it is one of the last capacity events and still open in the full run |
| RingPairing.DecodeReadsBack | src/hang_mspti.cpp:61-71 | the report reads kind, thread, callback id and correlation id that the record function stored |
| CallbackPairing.Pair | flightrecorder/mspti_ring.py:62-70 | the loop over per-key stacks computes the specified stacks; an exit with an empty stack is ignored |
| CallbackPairing.OpenCalls | flightrecorder/mspti_ring.py:71-72 | exactly the calls left on the stack of some key, in increasing order of number |
| Collectives.LossFlagExact | flightrecorder/analyzer.py:150 | on any file contents ring_wrap_or_loss is false if and only if the parsed events are those numbered 1 to write_seq |
| Collectives.WrapRaisesFlag | flightrecorder/analyzer.py:150 | a ring that has wrapped always raises the flag |
| Collectives.UnflaggedIsWholeLog | flightrecorder/analyzer.py:150 | with the flag down the parsed copy is the whole log of the writers |
| Collectives.LastBeginMeaning | flightrecorder/analyzer.py:72-74 | a rank has an entry for an operation if and only if some retained HCCL_BEGIN carries its communicator and id, and it is the last of them |
| Collectives.GroupAll | flightrecorder/analyzer.py:72-74 | groups maps each operation and rank to that rank's last HCCL_BEGIN of it |
| Collectives.Report | flightrecorder/analyzer.py:182-194 | one entry per begun operation of the chosen communicator, with its entered and missing ranks, the types of the ranks' last entries, the mismatch flag and the ranks that show an end |
| Collectives.MissingMeansNeverBegan | flightrecorder/analyzer.py:183-187 | an expected rank with an unflagged file is listed as missing if and only if no HCCL_BEGIN of that communicator and operation stands anywhere in its log |
| SnapshotMerge.CombineMembers | flightrecorder/analyzer.py:283-285 | one merge is strictly increasing and holds the newer file's events, and the older one's where the newer has none of that number |
| SnapshotMerge.NewestWins | flightrecorder/analyzer.py:276-287 | the merged history holds, for each number, the event of the last readable file of the reported rank and pid that has it, and nothing else |
| SnapshotMerge.MergedIncreases | flightrecorder/analyzer.py:276-287 | the merged history is strictly increasing and invents nothing, whatever the files hold |
| SnapshotMerge.MergedIsUnion | flightrecorder/analyzer.py:276-287 | for files that agree where they overlap it is the union of what they retain |
| SnapshotMerge.OrderIrrelevant | flightrecorder/analyzer.py:276-287 | for such files it depends neither on the order of the paths nor on repetitions |
| SnapshotMerge.CopiesAgree | src/flight_recorder.cpp:84-98 | two copies of one ring, any number of writer steps apart, agree on every number both retain |
| SnapshotMerge.MergeTwo | flightrecorder/analyzer.py:283-285 | dictionary update and sort compute the specified merge |
| SnapshotMerge.Merge | flightrecorder/analyzer.py:276-287 | the loop yields, for each rank, the increasing history of exactly those newest events, and no history for a rank without such a file |
| Layout.BytesRoundTrip | include/flight_recorder.h:26-40 | an n-byte little-endian store of a value in range loads as that value |
| Layout.StructRoundTrip | flightrecorder/format.py:7-10 | members stored at naturally aligned offsets unpack to the same values through an unaligned format with pad bytes that puts them at the same places, whatever the bytes held before |
| Layout.StoredElsewhere | include/flight_recorder.h:26-40 | a store leaves all bytes outside the members alone |
| Layout.FlightHeaderRoundTrip | flightrecorder/format.py:7 | the flight header's C++ layout and Python format agree, and all values in range read back |
| Layout.FlightEventRoundTrip | flightrecorder/format.py:9-46 | the same for events; the type reads back as the name of its enumerator |
| Layout.KindsAreNamed | flightrecorder/format.py:12-18 | the kinds that the analysis tells apart have the names that the analyzer compares with |
| Layout.MsptiHeaderRoundTrip | flightrecorder/mspti_ring.py:10 | the same for the msPTI header |
| Layout.NameCopy | src/hang_mspti.cpp:46-51 | writes at most 63 bytes of the label and a NUL and leaves the bytes behind it; a null pointer gives an empty label |
| Layout.StrnLen | src/hang_mspti.cpp:48 | the length of the label, at most the bound |
| Layout.LabelReadsBack | flightrecorder/mspti_ring.py:41-43 | the field reads back as at most the first 63 bytes of the label, whatever it held before |
| Layout.SizesAgree | flightrecorder/mspti_ring.py:25-27 | the event sizes that the readers ask for are those of the structs: scalars, then one or two labels |
| Layout.HangEventRoundTrip | flightrecorder/mspti_ring.py:24-48 | scalars and labels of an msPTI event of either version read back, the detail of a version 1 event as empty |

## Left out

- Memory order: steps are sequentially consistent; the acquire and release orders of the atomics are not modelled.
- Integer width: cursors wrap at 32 and 64 bits and poll budgets are below 2^32 as in the code; `write_seq`, generations and log positions are unbounded.
- Process plumbing: fork and owner-PID checks, clocks, mmap, ftruncate and file errors, null managers, the CANN adapter, the msPTI callbacks and lifecycle, the watchdog and the AI CPU sampler.
- Manager lifetime: destroying a manager, and starting and stopping its poller thread, follow the documented control-path discipline and are not modelled; streams are registered before traffic.
- PoolInvariant.StepKeepsInv: host code is assumed not to record CHECKPOINT or DEVICE_CONFIRMED events of its own.
- History variables: the pool remembers the last owner of a slot, the queue place of each recording and the log lines that speak of it; no step of the code reads them.
- EndToEnd.ReportedConfirmedHasCompleted: a log line is written when its number is claimed; that the thread waits for its own stores before it goes on is not required, which only adds interleavings.
- WatermarkExact.RecordGuardIsExact: stated for pools that have a poller, since nothing is ever confirmed without one, and at most 2^64 slots, so that one round of the poll cursor meets every slot.
- LiveReader.NumberMeansPayload: the words of a payload are the decoded members; bytes of a label behind its NUL, which the copy leaves as they were, are not words. `Layout.LabelReadsBack` shows that they are never read.
- RingPairing.ListedIsOpen: while a writer is between its claim and its publication the read has a hole, and nothing is promised of the list.
- RingProtocol.SnapshotRefinesLog: stores are word by word; the copy is atomic, and `write_seq` is read with it. `LiveCopy` has the copy that is not.
- LiveCopy.WholeUnlessStored: words are loaded whole and in file order, `write_seq` first; which of the words of a disturbed slot are foreign is not told.
- FlightRing.Recorder.Record: timestamps and thread ids are words of the payload; `last_ns`, written only by a call that also logs, is left out.
- Progress.ReportProgress: the lists of warnings, stale confirmations and open host scopes, and the choice of the latest file per rank, are left out.
- Dependencies.BuildEdges: node names are values, not strings; the list of dependencies beside the graph is left out.
- CycleFinder.Finder.Visit: Python's recursion limit is not modelled.
- Collectives.Report: entries form a map; their printed order is left out.
- Layout.HangEventRoundTrip: labels are bytes; decoding them as UTF-8 is left out.
- Report, trace and JSON formatting and the results data only print what is modelled here.
