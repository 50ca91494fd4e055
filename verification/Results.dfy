/** Outcomes of fallible operations and the program's stable error codes. */
module Results {
  /** An error code is a 16-bit wire value; decoders accept any value in the range. */
  type ErrorCode = c: int | 0 <= c < 0x1_0000 witness 0

  const OK: ErrorCode := 0
  const INVALID_ARGUMENT: ErrorCode := 1
  const OUT_OF_RANGE: ErrorCode := 2
  const TOO_LARGE: ErrorCode := 4
  const INVALID_UTF8: ErrorCode := 5
  const NOT_FOUND: ErrorCode := 6
  const ALREADY_EXISTS: ErrorCode := 7
  const CONFLICT: ErrorCode := 8
  const INTERNAL: ErrorCode := 10
  const RESOURCE_EXHAUSTED: ErrorCode := 11
  const CANCELLED: ErrorCode := 13
  const NOT_READY: ErrorCode := 14
  const NOT_REGISTERED: ErrorCode := 15
  const UNKNOWN_JOB: ErrorCode := 20
  const UNKNOWN_GROUP: ErrorCode := 21
  const STALE_JOB_GENERATION: ErrorCode := 26
  const STALE_STEP: ErrorCode := 27
  const STALE_PHASE: ErrorCode := 28
  const STALE_INCARNATION: ErrorCode := 29
  const STALE_EPOCH: ErrorCode := 30
  const STALE_CONTRACT_GENERATION: ErrorCode := 31
  const STALE_TOPOLOGY_GENERATION: ErrorCode := 32
  const STALE_POLICY_GENERATION: ErrorCode := 33
  const STALE_BOOT_IDENTITY: ErrorCode := 34
  const INCARNATION_RETIRED: ErrorCode := 36
  const REPLAY_DETECTED: ErrorCode := 39
  const SEQUENCE_VIOLATION: ErrorCode := 40
  const JOB_RETIRED: ErrorCode := 41
  const MISSING_TOPOLOGY_EVIDENCE: ErrorCode := 51
  const NO_CAPACITY: ErrorCode := 53
  const CONSERVATIVE_UNKNOWN_PHASE: ErrorCode := 55
  const RATE_ABOVE_CEILING: ErrorCode := 57
  const CONTRACT_LIMIT_EXCEEDED: ErrorCode := 58
  const ISOLATION_ACTIVE: ErrorCode := 59
  const FLOW_NOT_ACTIVE: ErrorCode := 60
  const FLOW_ALREADY_CLOSED: ErrorCode := 61
  const STEP_NOT_ACTIVE: ErrorCode := 63
  const PHASE_NOT_ACTIVE: ErrorCode := 64
  const PHASE_ALREADY_CLOSED: ErrorCode := 66
  const POLICY_INVALIDATED: ErrorCode := 69
  const BURST_ALREADY_ACTIVE: ErrorCode := 72
  const BURST_NOT_ACTIVE: ErrorCode := 73
  const BAD_MAGIC: ErrorCode := 100
  const BAD_CHECKSUM: ErrorCode := 103
  const BAD_ENCODING: ErrorCode := 104
  const DUPLICATE_FIELD: ErrorCode := 106
  const UNKNOWN_FIELD: ErrorCode := 107
  const FIELD_ORDER_VIOLATION: ErrorCode := 108
  const TRAILING_GARBAGE: ErrorCode := 109
  const TOO_MANY_FIELDS: ErrorCode := 110
  const TRUNCATED: ErrorCode := 111
  const PROTOCOL_VIOLATION: ErrorCode := 114
  const IO_ERROR: ErrorCode := 116
  const UNSUPPORTED_PROTOCOL_VERSION: ErrorCode := 117
  const CORRUPT_STATE: ErrorCode := 150
  const INCOMPATIBLE_STATE: ErrorCode := 151
  const PARTIAL_STATE: ErrorCode := 152
  const STATE_TOO_LARGE: ErrorCode := 153

  datatype Option<+T> = None | Some(value: T)

  datatype Result<+T> = Success(value: T) | Failure(error: ErrorCode) {
    predicate IsFailure() {
      Failure?
    }

    function PropagateFailure<U>(): Result<U>
      requires Failure?
    {
      Failure(error)
    }

    function Extract(): T
      requires Success?
    {
      value
    }
  }
}
