/** Lifecycle states of rollouts, stages and targets, and the legal transitions between them. */
module Lifecycle {

  datatype RolloutState =
    | Created | Validated | Armed | Running | Gated | Soaking | Advancing | Paused
    | Aborting | RollingBack | Failed | Completed | Retired
  {
    predicate Terminal() { Failed? || Completed? || Retired? }

    predicate CanPause() { Armed? || Running? || Gated? || Soaking? || Advancing? }

    predicate AdmitsDispatch() { Running? || Soaking? || Advancing? }

    /** Before any abort, rollback, failure or completion: the forward part of the lifecycle. */
    predicate Forward() {
      Created? || Validated? || Armed? || Running? || Gated? || Soaking? || Advancing? || Paused?
    }
  }

  datatype StageState =
    | StPending | StBlocked | StArmed | StRunning | StGated | StSoaking | StAdvancing
    | StSucceeded | StFailed | StAborted | StRolledBack | StSkipped
  {
    predicate Terminal() { StSucceeded? || StFailed? || StAborted? || StRolledBack? || StSkipped? }
  }

  datatype TargetState =
    | Pending | Dispatched | Unknown | Succeeded | TFailed | Cancelled
    | TRollingBack | RolledBack | RollbackFailed | Exhausted
  {
    predicate Terminal() {
      Succeeded? || TFailed? || Cancelled? || RolledBack? || RollbackFailed? || Exhausted?
    }

    /** States that count against every concurrency and blast-radius limit. */
    predicate Changing() { Dispatched? || Unknown? || TRollingBack? }
  }

  predicate LegalRollout(from: RolloutState, to: RolloutState) {
    from != to &&
    match from
    case Created => to.Validated? || to.Retired?
    case Validated => to.Armed? || to.Retired?
    case Armed => to.Running? || to.Gated? || to.Paused? || to.Aborting? || to.Failed? || to.Retired?
    case Running => to.Gated? || to.Soaking? || to.Advancing? || to.Paused? || to.Aborting? ||
                    to.RollingBack? || to.Failed? || to.Completed?
    case Gated => to.Running? || to.Advancing? || to.Paused? || to.Aborting? || to.RollingBack? ||
                  to.Failed? || to.Completed?
    case Soaking => to.Running? || to.Advancing? || to.Gated? || to.Paused? || to.Aborting? ||
                    to.RollingBack? || to.Failed? || to.Completed?
    case Advancing => to.Running? || to.Gated? || to.Paused? || to.Aborting? || to.RollingBack? ||
                      to.Failed? || to.Completed?
    case Paused => to.Armed? || to.Running? || to.Gated? || to.Soaking? || to.Advancing? ||
                   to.Aborting? || to.RollingBack? || to.Failed? || to.Retired?
    case Aborting => to.RollingBack? || to.Failed? || to.Completed? || to.Retired?
    case RollingBack => to.Failed? || to.Completed? || to.Retired?
    case Failed => to.Retired?
    case Completed => to.Retired?
    case Retired => false
  }

  predicate LegalStage(from: StageState, to: StageState) {
    from != to &&
    match from
    case StPending => to.StBlocked? || to.StArmed? || to.StGated? || to.StSkipped?
    case StBlocked => to.StArmed? || to.StAborted? || to.StSkipped?
    case StArmed => to.StRunning? || to.StGated? || to.StAborted? || to.StRolledBack? || to.StSkipped?
    case StRunning => to.StGated? || to.StSoaking? || to.StAdvancing? || to.StSucceeded? ||
                      to.StFailed? || to.StAborted? || to.StRolledBack?
    case StGated => to.StRunning? || to.StAdvancing? || to.StFailed? || to.StAborted? || to.StRolledBack?
    case StSoaking => to.StRunning? || to.StAdvancing? || to.StFailed? || to.StAborted? || to.StRolledBack?
    case StAdvancing => to.StRunning? || to.StSucceeded? || to.StFailed? || to.StAborted? || to.StRolledBack?
    case StSucceeded => to.StRolledBack?
    case StFailed => to.StRolledBack?
    case StAborted => to.StRolledBack?
    case StRolledBack => false
    case StSkipped => false
  }

  predicate LegalTarget(from: TargetState, to: TargetState) {
    from != to &&
    match from
    case Pending => to.Dispatched? || to.Cancelled? || to.Exhausted? || to.Unknown?
    case Dispatched => to.Pending? || to.Succeeded? || to.TFailed? || to.Cancelled? || to.Unknown? ||
                       to.Exhausted?
    case Unknown => to.Pending? || to.Dispatched? || to.Succeeded? || to.TFailed? || to.Cancelled? ||
                    to.Exhausted?
    case Succeeded => to.TRollingBack?
    case TFailed => to.TRollingBack? || to.Exhausted?
    case Cancelled => to.TRollingBack? || to.Exhausted?
    case TRollingBack => to.RolledBack? || to.RollbackFailed?
    case RolledBack => false
    case RollbackFailed => false
    case Exhausted => false
  }

  /** A state after `from` on some chain of legal transitions of length at most `n`. */
  ghost predicate Reaches(from: RolloutState, to: RolloutState, n: nat)
    decreases n
  {
    from == to || (n > 0 && exists mid :: LegalRollout(from, mid) && Reaches(mid, to, n - 1))
  }

  /** Once a rollout leaves the forward part of its lifecycle, no chain of legal transitions returns. */
  lemma {:induction false} ForwardIsNeverReentered(from: RolloutState, to: RolloutState, n: nat)
    requires !from.Forward() && Reaches(from, to, n)
    ensures !to.Forward()
    decreases n
  {
    if from != to {
      var mid :| LegalRollout(from, mid) && Reaches(mid, to, n - 1);
      ForwardIsNeverReentered(mid, to, n - 1);
    }
  }
}
