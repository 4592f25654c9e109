/** The vocabulary of the registration saga: statuses, step keys, rows, and the
    statement-level meaning of the SQL that changes one session's rows. */
module Domain {

  datatype Option<+T> = None | Some(value: T)

  datatype SessionStatus =
    | Started | InProgress | CodeSent | VerifyingEmail | ActivatingUser
    | Completed | TokensClaimed | Failed

  datatype StepStatus = StepPending | StepInProgress | StepCompleted | StepFailed

  datatype StepKey =
    | UserCreateProfile | AuthCreatePending | MailSendCode | VerifyEmailCode | ActivateUser

  datatype Session = Session(
    clientId: string, userId: string, email: string, username: string, status: SessionStatus)

  /** The step rows of one session; `(session_id, step_key)` is the primary key. */
  type Steps = map<StepKey, StepStatus>

  /** The rows createStartSteps inserts are all there. */
  predicate HasInitialSteps(steps: Steps) {
    UserCreateProfile in steps && AuthCreatePending in steps && MailSendCode in steps
  }

  predicate HasFailed(steps: Steps) {
    exists k :: k in steps && steps[k] == StepFailed
  }

  predicate AllCompleted(steps: Steps) {
    forall k :: k in steps ==> steps[k] == StepCompleted
  }

  /** The aggregate status of a step table, stated without any order on the rows. */
  function Aggregate(steps: Steps): SessionStatus {
    if HasFailed(steps) then Failed else if AllCompleted(steps) then CodeSent else InProgress
  }

  /** `UPDATE ... SET status=$1 WHERE ... AND NOT (status=completed AND $1=in_progress)`. */
  function UpdatedStep(steps: Steps, key: StepKey, status: StepStatus): Steps {
    if key in steps && !(steps[key] == StepCompleted && status == StepInProgress)
    then steps[key := status]
    else steps
  }

  /** `UPDATE registration_saga_sessions SET status=$1`: no row, no effect. */
  function UpdatedSession(session: Option<Session>, status: SessionStatus): Option<Session> {
    match session
    case None => None
    case Some(row) => Some(row.(status := status))
  }
}
