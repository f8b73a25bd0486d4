/** Rows, keys and errors of the Cloud SQL workflow authority.

    `Null` is SQL NULL and the empty string alike, as the `COALESCE(column, '')`
    of every read makes them. Times are nanoseconds of the database clock.
*/
module AuthorityTables {
  import opened Common

  const SECOND := 1_000_000_000
  const HOUR := 3600 * SECOND
  const DAY := 24 * HOUR

  datatype RunKey = RunKey(tenant: Id, run: Id)

  /** A key that is unique in a tenant rather than in a run. */
  datatype TenantKey = TenantKey(tenant: Id, id: Id)

  datatype RunState =
    | Created | Running | AwaitingInput | AwaitingApproval | Approved
    | Rejected | Succeeded | Failed | Cancelled | BudgetExhausted | DeadLettered

  predicate Terminal(state: RunState) {
    state.Rejected? || state.Succeeded? || state.Failed? || state.Cancelled? || state.BudgetExhausted?
    || state.DeadLettered?
  }

  /** The lifecycle edges open to TransitionRun. */
  predicate TransitionAllowed(from: RunState, to: RunState) {
    match from
    case Created => to.Running? || to.Cancelled?
    case Running =>
      to.AwaitingInput? || to.AwaitingApproval? || to.Succeeded? || to.Failed? || to.Cancelled?
      || to.BudgetExhausted? || to.DeadLettered?
    case AwaitingInput => to.Running? || to.Failed? || to.Cancelled? || to.BudgetExhausted?
    case AwaitingApproval => to.Failed? || to.Cancelled?
    case Approved => to.Running? || to.Succeeded? || to.Failed? || to.Cancelled? || to.DeadLettered?
    case _ => false
  }

  datatype Error =
    | Invalid | NotFound | Conflict | RevisionConflict | IdempotencyReuse
    | StaleLease | LeaseUnavailable | Exhausted
    | ConstraintViolation // an INSERT without ON CONFLICT that a key or trigger rejects

  /** What an event says beside the revision and state of its run. */
  datatype Note = Note(kind: EventKind, task: Id, attempt: Id, approval: Id, release: Id, code: Id, refs: seq<Id>)

  datatype EventKind =
    | RunCreated | RunTransitioned | ApprovalRecorded | CheckpointSealed | ReleaseCreated
    | LaunchRecorded | ReconciliationRecorded | TaskEnqueued | AttemptStarted | AttemptCompleted
    | LeaseExpired | RetryScheduled | TaskDeadLettered | EffectReserved | EffectCommitted

  function RunNote(kind: EventKind, approval: Id, release: Id, code: Id, refs: seq<Id>): Note {
    Note(kind, Null, Null, approval, release, code, refs)
  }

  function TaskNote(kind: EventKind, task: Id, attempt: Id, code: Id, refs: seq<Id>): Note {
    Note(kind, task, attempt, Null, Null, code, refs)
  }
}
