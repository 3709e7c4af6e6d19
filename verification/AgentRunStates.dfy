/** Agent Run states and their legal transitions, shared by the executor and the scheduler. */
module AgentRunStates {

  datatype RunState =
    | Created | Planning | Ready | Running | AwaitingApproval
    | Completed | Failed | Cancelled | Expired

  const MAX_ACTIVE_RUNS := 32

  predicate Terminal(s: RunState) {
    s.Completed? || s.Failed? || s.Cancelled? || s.Expired?
  }

  /** `LEGAL_TRANSITIONS`. */
  predicate LegalTransition(from: RunState, to: RunState) {
    match from
    case Created => to in {Planning, Cancelled, Expired}
    case Planning => to in {Ready, Failed, Cancelled, Expired}
    case Ready => to in {Running, Cancelled, Expired}
    case Running => to in {Running, AwaitingApproval, Completed, Failed, Cancelled, Expired}
    case AwaitingApproval => to in {Running, Failed, Cancelled, Expired}
    case _ => false
  }
}
