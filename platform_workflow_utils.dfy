/** PlatformWorkflowUtils.updateTracker: the tracker after one process
    outcome. */
module PlatformWorkflowUtils {
  import opened Wrappers
  import opened Model
  import opened TrackerUtils
  import opened TrackerProofs

  /** updateTracker: a success advances with nextStepOnSuccess, a failure
      with nextStepOnFailure, and an outcome with no case set is rejected.
      It fails exactly when the outcome is unset or the success transition
      finds no range for the current block. */
  function UpdateTracker(workflow: PlatformWorkflow, outcome: ProcessOutcome): (r: Result<Tracker, Error>)
    ensures r.Err? <==>
      || outcome.OutcomeNotSet?
      || (outcome.SuccessCase? && workflow.tracker.currentBlock !in workflow.tracker.ranges)
    ensures outcome.OutcomeNotSet? ==> r == Err(IllegalState)
    ensures outcome.FailureCase? ==> r.Ok? && r.value.errorRaised
  {
    match outcome
    case SuccessCase(_) => NextStepOnSuccess(workflow.tracker)
    case FailureCase(_) => Ok(NextStepOnFailure(workflow.tracker))
    case OutcomeNotSet => Err(IllegalState)
  }

  /** For an outcome with its case set, updateTracker is the transition of
      the workflow's tracker alone: the step list plays no part. */
  lemma UpdateTrackerIsTransition(workflow: PlatformWorkflow, outcome: ProcessOutcome)
    requires !outcome.OutcomeNotSet?
    ensures UpdateTracker(workflow, outcome) == Transition(workflow.tracker, outcome.SuccessCase?)
  {
  }

  /** Two workflows with the same tracker get the same update. */
  lemma UpdateTrackerIgnoresSteps(w1: PlatformWorkflow, w2: PlatformWorkflow, outcome: ProcessOutcome)
    requires w1.tracker == w2.tracker
    ensures UpdateTracker(w1, outcome) == UpdateTracker(w2, outcome)
  {
  }

  /** On a well-formed tracker that has not finished, every outcome with a
      case set is accepted and yields a well-formed tracker further on. */
  lemma UpdateTrackerAdvances(workflow: PlatformWorkflow, outcome: ProcessOutcome)
    requires WellFormed(workflow.tracker) && workflow.tracker.currentBlock != TYPE_NA
    requires !outcome.OutcomeNotSet?
    ensures var r := UpdateTracker(workflow, outcome);
      r.Ok? && WellFormed(r.value) && r.value.currentStep > workflow.tracker.currentStep
  {
    if outcome.SuccessCase? {
      SuccessPreservesWellFormed(workflow.tracker);
    } else {
      FailurePreservesWellFormed(workflow.tracker);
    }
  }
}
