/** The incident state machine (packages/event-schema/src/index.ts). */
module Lifecycle {

  datatype State =
    | DETECTED | CORRELATED | TRIAGED | INVESTIGATING | DIAGNOSED | PROPOSED | REMEDIATION_PROPOSED
    | AWAITING_APPROVAL | APPROVED | AUTO_EXECUTION_READY | EXECUTING | EXECUTION_FAILED | VERIFYING
    | NOT_RECOVERED | UNKNOWN | STALE | RECONCILIATION_REQUIRED | REPROPOSED | REJECTED | EXPIRED
    | RESOLVED | ESCALATED | POSTMORTEM

  function AllowedTransitions(s: State): seq<State> {
    match s
    case DETECTED => [CORRELATED, TRIAGED, INVESTIGATING, RESOLVED]
    case CORRELATED => [PROPOSED, INVESTIGATING, RESOLVED]
    case TRIAGED => [INVESTIGATING, RESOLVED, PROPOSED, REMEDIATION_PROPOSED]
    case INVESTIGATING => [DIAGNOSED, PROPOSED, REMEDIATION_PROPOSED, ESCALATED, RESOLVED]
    case DIAGNOSED => [PROPOSED, REMEDIATION_PROPOSED, INVESTIGATING, ESCALATED]
    case PROPOSED => [AWAITING_APPROVAL, AUTO_EXECUTION_READY, RESOLVED, REMEDIATION_PROPOSED, INVESTIGATING]
    case REMEDIATION_PROPOSED => [AWAITING_APPROVAL, AUTO_EXECUTION_READY, EXECUTING, INVESTIGATING, RESOLVED]
    case AWAITING_APPROVAL => [APPROVED, REJECTED, EXPIRED, EXECUTING, REMEDIATION_PROPOSED, ESCALATED]
    case APPROVED => [EXECUTING, STALE, REJECTED, AWAITING_APPROVAL]
    case AUTO_EXECUTION_READY => [EXECUTING, AWAITING_APPROVAL, STALE]
    case EXECUTING => [VERIFYING, EXECUTION_FAILED, UNKNOWN, STALE, ESCALATED]
    case EXECUTION_FAILED => [REPROPOSED, INVESTIGATING, ESCALATED, POSTMORTEM]
    case VERIFYING => [RESOLVED, NOT_RECOVERED, UNKNOWN, ESCALATED, REMEDIATION_PROPOSED]
    case NOT_RECOVERED => [REPROPOSED, PROPOSED, ESCALATED, POSTMORTEM, INVESTIGATING]
    case UNKNOWN => [VERIFYING, RECONCILIATION_REQUIRED, ESCALATED, NOT_RECOVERED, RESOLVED]
    case STALE => [REPROPOSED, PROPOSED, INVESTIGATING, ESCALATED]
    case RECONCILIATION_REQUIRED => [EXECUTING, VERIFYING, ESCALATED, UNKNOWN]
    case REPROPOSED => [AWAITING_APPROVAL, AUTO_EXECUTION_READY, PROPOSED, INVESTIGATING]
    case REJECTED => [PROPOSED, REPROPOSED, POSTMORTEM]
    case EXPIRED => [PROPOSED, REPROPOSED, POSTMORTEM]
    case ESCALATED => [INVESTIGATING, AWAITING_APPROVAL, RESOLVED, POSTMORTEM, REPROPOSED]
    case RESOLVED => [POSTMORTEM, INVESTIGATING]
    case POSTMORTEM => []
  }

  predicate CanTransition(current: State, target: State) {
    target in AllowedTransitions(current)
  }

  // ---------------------------------------------------------------- runs

  /** A life: it starts in DETECTED and follows the table. */
  predicate Run(states: seq<State>) {
    states != [] && states[0] == DETECTED
    && forall i :: 0 < i < |states| ==> CanTransition(states[i - 1], states[i])
  }

  /** The states that only an execution leads to. */
  predicate AfterExecution(s: State) {
    s == EXECUTION_FAILED || s == VERIFYING || s == NOT_RECOVERED || s == UNKNOWN || s == RECONCILIATION_REQUIRED
  }

  /** The states from which a first execution starts. */
  predicate ClearedToExecute(s: State) {
    s == REMEDIATION_PROPOSED || s == AWAITING_APPROVAL || s == AUTO_EXECUTION_READY || s == APPROVED
  }

  /** Short of EXECUTING, no step leads to an outcome of an execution. */
  lemma OutcomeEntry(current: State, target: State)
    requires CanTransition(current, target) && AfterExecution(target)
    ensures current == EXECUTING || AfterExecution(current)
  {
  }

  /** No outcome of an execution is recorded before there was one. */
  lemma {:induction false} OutcomeNeedsExecution(states: seq<State>, i: int)
    requires Run(states) && 0 <= i < |states| && AfterExecution(states[i])
    ensures exists j :: 0 <= j < i && states[j] == EXECUTING
    decreases i
  {
    hide CanTransition;
    assert i > 0 && CanTransition(states[i - 1], states[i]);
    OutcomeEntry(states[i - 1], states[i]);
    if states[i - 1] != EXECUTING {
      OutcomeNeedsExecution(states, i - 1);
    }
  }

  /** EXECUTING is entered from a cleared state, or from the reconciliation of an earlier execution. */
  lemma ExecutionEntry(current: State)
    requires CanTransition(current, EXECUTING)
    ensures ClearedToExecute(current) || AfterExecution(current)
  {
  }

  /** The first execution starts from a proposed or approved remediation. */
  lemma {:induction false} FirstExecutionCleared(states: seq<State>, i: int)
    requires Run(states) && 0 <= i < |states| && states[i] == EXECUTING
    requires forall j :: 0 <= j < i ==> states[j] != EXECUTING
    ensures i > 0 && ClearedToExecute(states[i - 1])
  {
    hide CanTransition;
    assert i > 0 && CanTransition(states[i - 1], states[i]);
    ExecutionEntry(states[i - 1]);
    if AfterExecution(states[i - 1]) {
      OutcomeNeedsExecution(states, i - 1);
    }
  }

  /**
    Approval gate: an execution is preceded by AWAITING_APPROVAL, by the automatic gate, or by a
    bare proposal; in particular APPROVED itself always follows AWAITING_APPROVAL.
   */
  lemma {:induction false} FirstExecutionGated(states: seq<State>, i: int)
    requires Run(states) && 0 <= i < |states| && states[i] == EXECUTING
    ensures exists j :: 0 <= j < i && (states[j] == REMEDIATION_PROPOSED || states[j] == AWAITING_APPROVAL
                                       || states[j] == AUTO_EXECUTION_READY)
    decreases i
  {
    hide CanTransition;
    if exists j :: 0 <= j < i && states[j] == EXECUTING {
      var j :| 0 <= j < i && states[j] == EXECUTING;
      FirstExecutionGated(states, j);
    } else {
      FirstExecutionCleared(states, i);
      if states[i - 1] == APPROVED {
        ApprovedFromAwaiting(states, i - 1);
      }
    }
  }

  lemma ApprovedFromAwaiting(states: seq<State>, i: int)
    requires Run(states) && 0 <= i < |states| && states[i] == APPROVED
    ensures i > 0 && states[i - 1] == AWAITING_APPROVAL
  {
    assert i > 0 && CanTransition(states[i - 1], states[i]);
  }
}
