/** The system as handlers that commit one transaction at a time and may stop between any two:
    HTTP requests, runs of a reading job, its failure callback, and retries. */
module Handlers {
  import opened Database
  import opened Statements
  import opened Atomic

  type HandlerId = nat

  /** Where one run of `processReading` stands. */
  datatype Phase = Loading | Calling | Settling(verdict: Verdict) | Closing(verdict: Verdict)

  datatype Handler =
    | Request(op: Op)
    | Submitting(op: Op)
    | Enqueueing(reading: ReadingId)
    | Job(reading: ReadingId, phase: Phase)
    | JobFailed(reading: ReadingId, released: bool)
    | Retrying(reading: ReadingId)

  /** `jobs` are the readings ever put on the queue: a job may run again, stall, or run twice at once. */
  datatype System = System(db: Db, handlers: map<HandlerId, Handler>, jobs: set<ReadingId>)

  const Idle := System(EmptyDb, map[], {})

  /** Transactions that a request sends on its own, outside the reading engine. */
  predicate Standalone(op: Op) {
    match op
    case Adjust(_, a, _) => a != 0
    case RecordExecution(_, _, task, _) => task == Legibility
    case CreateWallet(_, _) | CreateReading(_, _) | CreateOrder(_, _, _, _) | Checkout(_, _, _) | Approve(_)
       | Terminate(_, _) | OpenSession(_, _, _) | ExpireSession(_) | CompleteSession(_, _) | TakeDailyUnlock(_) => true
    case _ => false
  }

  predicate CanStart(s: System, x: Handler) {
    match x
    case Request(op) => Standalone(op)
    case Submitting(op) => op.Submit?
    case Enqueueing(_) => false
    case Job(r, phase) => r in s.jobs && phase == Loading
    case JobFailed(r, released) => r in s.jobs && !released
    case Retrying(_) => true
  }

  /** The transaction a handler sends next. */
  predicate Wants(x: Handler, op: Op) {
    match x
    case Request(want) => op == want
    case Submitting(want) => op == want
    case Enqueueing(_) => false
    case Job(r, phase) => (
      match phase
      case Loading => op == StartProcessing(r)
      case Calling => op.RecordExecution? && op.reading == r && op.task == Interpretation
      case Settling(v) => op == if v == Delivered then Confirm(r) else Release(r)
      case Closing(v) => op == Finish(r, v))
    case JobFailed(r, released) => op == if released then MarkFailed(r) else Release(r)
    case Retrying(r) => op == Retry(r)
  }

  /** Where the handler stands once that transaction has committed. */
  function After(x: Handler, op: Op): Option<Handler>
    requires Wants(x, op)
  {
    match x
    case Request(_) => None
    case Submitting(_) => if op.Submit? then Some(Enqueueing(op.reading)) else None
    case Job(r, phase) => (
      match phase
      case Loading => Some(Job(r, Calling))
      case Calling => Some(Job(r, Settling(Verdicts(op.checks))))
      case Settling(v) => Some(Job(r, Closing(v)))
      case Closing(_) => None)
    case JobFailed(r, released) => if released then None else Some(JobFailed(r, true))
    case Retrying(r) => Some(Enqueueing(r))
  }

  function Resume(handlers: map<HandlerId, Handler>, h: HandlerId, next: Option<Handler>): map<HandlerId, Handler> {
    if next.Some? then handlers[h := next.value] else handlers - {h}
  }

  datatype Move =
    | Arrive(h: HandlerId, x: Handler)
    | Commit(h: HandlerId, op: Op)
    | Enqueue(h: HandlerId)
    | Halt(h: HandlerId)      // a crash, or an exception that reaches the caller

  ghost predicate Moves(s: System, m: Move, s': System) {
    match m
    case Arrive(h, x) => h !in s.handlers && CanStart(s, x) && s' == s.(handlers := s.handlers[h := x])
    case Commit(h, op) =>
      && h in s.handlers && Wants(s.handlers[h], op)
      && Committed(op, s.db, s'.db)
      && s' == System(s'.db, Resume(s.handlers, h, After(s.handlers[h], op)), s.jobs)
    case Enqueue(h) =>
      && h in s.handlers && s.handlers[h].Enqueueing?
      && s' == System(s.db, s.handlers - {h}, s.jobs + {s.handlers[h].reading})
    case Halt(h) => h in s.handlers && s' == s.(handlers := s.handlers - {h})
  }

  ghost predicate Next(s: System, s': System) {
    exists m :: Moves(s, m, s')
  }
}
