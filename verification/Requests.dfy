/** The documents a helper and the agent exchange about one upgrade (internal/upgrade/types.go). */
module Requests {

  type TaskId = string

  /** What the agent asks for: the task, the two releases, and until when, on which boot, it may start. */
  datatype Request = Request(task: TaskId, digest: string, version: string, expected: string, boot: string, until: int,
                             parses: bool)

  /** A request that was read, and that parses. */
  predicate Heard(asked: seq<Request>, request: Request) {
    request in asked && request.parses
  }

  datatype Phase = Prepared | Activating | Activated | RollingBack | Succeeded | Failed | Indeterminate

  datatype Receipt = Receipt(request: Request, phase: Phase, nonce: string, binary: string)

  datatype Ready = Ready(task: TaskId, digest: string, version: string, nonce: string, binary: string, wellFormed: bool)

  datatype Found = Found(receipt: Receipt) | Absent | Unreadable

  datatype Clock = Reading(boot: string, elapsed: int) | NoReading

  predicate Final(phase: Phase) {
    phase.Succeeded? || phase.Failed? || phase.Indeterminate?
  }

  /** The phases in which something may have been changed. */
  predicate Active(phase: Phase) {
    phase.Activating? || phase.Activated? || phase.RollingBack?
  }

  /** The same immutable task: the digest stands for everything but its identifier. */
  predicate SameTask(a: Request, b: Request) {
    a.task == b.task && a.digest == b.digest
  }

  const TEN_MINUTES: int := 600_000_000_000

  /**
    * A reading of the boot clock that lets a request start: the same boot, before the deadline, and
    * no more than ten minutes before it.
    */
  predicate Permits(request: Request, boot: string, elapsed: int) {
    boot == request.boot && 0 <= elapsed < request.until && request.until - elapsed <= TEN_MINUTES
  }
}
