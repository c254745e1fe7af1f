/** The arguments of flight_record and the event kinds of flight_recorder.h. */
module FlightEvents {
  import opened Records

  datatype Call = Call(kind: nat, stream: nat, corr: nat, arg0: nat, arg1: nat, flags: nat)

  /** A parsed event: what the recorder itself adds, and the caller's arguments. */
  datatype Body = Body(timestamp: nat, pid: nat, tid: nat, device: nat, rank: nat, call: Call)

  type Event = Rec<Body>

  const HCCL_BEGIN: nat := 15
  const EVENT_RECORD: nat := 17
  const EVENT_WAIT: nat := 18
  const CHECKPOINT: nat := 23
  const DEVICE_CONFIRMED: nat := 24

  const SUBMITTED: nat := 1
  const POOL_FULL: nat := 2
  const QUERY_ERROR: nat := 4
  const NOT_READY: nat := 8

  /** A CHECKPOINT line whose SUBMITTED bit is set. */
  predicate IsSubmitted(c: Call) {
    c.kind == CHECKPOINT && c.flags % 2 == 1
  }

  predicate IsConfirmed(c: Call) {
    c.kind == DEVICE_CONFIRMED
  }

  predicate IsNotReady(c: Call) {
    c.kind == CHECKPOINT && (c.flags / 8) % 2 == 1
  }
}
