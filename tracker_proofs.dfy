/** What the tracker transitions keep: a well-formed tracker stays well formed,
    every transition moves the cursor forward, and any run of outcomes ends
    the workflow within as many outcomes as there are steps left. The ranges
    recovered from a decorated workflow are well formed. */
module TrackerProofs {
  import opened Wrappers
  import opened Model
  import opened StepUtils
  import opened TrackerUtils
  import opened RangeProofs

  /** The position of a block in the execution order. */
  function Rank(b: Block): nat {
    match b
    case MAIN => 0
    case GENERAL_ERROR => 1
    case FINALLY => 2
    case _ => 3
  }

  /** Ranges of execution blocks only, each non-empty and before the
      termination index, and laid out in block order without overlap. */
  predicate RangesWellFormed(ranges: map<Block, BlockRange>, termination: int) {
    && (forall b :: b in ranges ==>
          && IsExecutionBlock(b)
          && 0 <= ranges[b].startIdx <= ranges[b].endIdx < termination)
    && (forall b1, b2 :: b1 in ranges && b2 in ranges && Rank(b1) < Rank(b2) ==>
          ranges[b1].endIdx < ranges[b2].startIdx)
  }

  /** A tracker either sits inside the range of its current block, or has
      finished (TYPE_NA at the termination index); a raised error lies at or
      before the cursor. */
  predicate WellFormed(t: Tracker) {
    && RangesWellFormed(t.ranges, t.termination)
    && 0 <= t.currentStep
    && (t.currentBlock == TYPE_NA ==> t.currentStep == t.termination)
    && (t.currentBlock != TYPE_NA ==>
          && t.currentBlock in t.ranges
          && t.ranges[t.currentBlock].startIdx <= t.currentStep <= t.ranges[t.currentBlock].endIdx)
    && (t.errorRaised ==> 0 <= t.errorRaisedStep <= t.currentStep)
  }

  /** One outcome applied to the tracker, as updateTracker dispatches it.
      A run is then a plain sequence of success/failure flags, with no
      payloads or headers. PlatformWorkflowUtils.UpdateTrackerIsTransition
      shows that updateTracker is this function on the workflow's tracker. */
  function Transition(t: Tracker, success: bool): Result<Tracker, Error> {
    if success then NextStepOnSuccess(t) else Ok(NextStepOnFailure(t))
  }

  /** A success inside a well-formed, unfinished tracker never throws, moves
      the cursor strictly forward and keeps the tracker well formed and its
      error bookkeeping untouched. */
  lemma SuccessPreservesWellFormed(t: Tracker)
    requires WellFormed(t) && t.currentBlock != TYPE_NA
    ensures NextStepOnSuccess(t).Ok?
    ensures var r := NextStepOnSuccess(t).value;
      && WellFormed(r)
      && r.currentStep > t.currentStep
      && r.errorRaised == t.errorRaised && r.errorRaisedStep == t.errorRaisedStep
  {
    var r := NextStepOnSuccess(t).value;
    var range := t.ranges[t.currentBlock];
    if t.currentStep == range.endIdx && r.currentBlock == FINALLY {
      assert Rank(t.currentBlock) < Rank(FINALLY);
    }
  }

  /** A success on a finished tracker throws: TYPE_NA never has a range. */
  lemma SuccessAfterEndThrows(t: Tracker)
    requires WellFormed(t) && t.currentBlock == TYPE_NA
    ensures NextStepOnSuccess(t) == Err(NullPointer)
  {
    assert !IsExecutionBlock(TYPE_NA);
  }

  /** A failure keeps the tracker well formed; it moves an unfinished tracker
      strictly forward and leaves a finished one at the termination index. */
  lemma FailurePreservesWellFormed(t: Tracker)
    requires WellFormed(t)
    ensures var r := NextStepOnFailure(t);
      && WellFormed(r)
      && (t.currentBlock != TYPE_NA ==> r.currentStep > t.currentStep)
      && (t.currentBlock == TYPE_NA ==> r.currentBlock == TYPE_NA && r.currentStep == t.termination)
  {
    var r := NextStepOnFailure(t);
    if t.currentBlock == MAIN && r.currentBlock == GENERAL_ERROR {
      assert Rank(MAIN) < Rank(GENERAL_ERROR);
    }
  }

  /** A failure inside GENERAL_ERROR ends the workflow and keeps the step of
      the first error. */
  lemma FailureInErrorBlockEnds(t: Tracker)
    requires WellFormed(t) && t.currentBlock == GENERAL_ERROR && t.errorRaised
    ensures NextStepOnFailure(t) == t.(currentBlock := TYPE_NA, currentStep := t.termination)
  {
  }

  /** Applies `outcomes` (true for success) one after the other and stops as
      soon as the workflow has finished. The result is well formed, its
      cursor advanced by at least one per outcome applied, and the error
      flag and first error step never go back. */
  function RunToEnd(t: Tracker, outcomes: seq<bool>): (r: Tracker)
    requires WellFormed(t)
    ensures WellFormed(r)
    ensures r.termination == t.termination && r.ranges == t.ranges
    ensures r.currentBlock == TYPE_NA || r.currentStep >= t.currentStep + |outcomes|
    ensures r.currentStep >= t.currentStep
    ensures t.errorRaised ==> r.errorRaised && r.errorRaisedStep <= t.errorRaisedStep
    decreases |outcomes|
  {
    if outcomes == [] || t.currentBlock == TYPE_NA then t
    else
      SuccessPreservesWellFormed(t);
      FailurePreservesWellFormed(t);
      RunToEnd(Transition(t, outcomes[0]).value, outcomes[1..])
  }

  /** Every run of at least termination - currentStep outcomes finishes the
      workflow: no outcome sequence keeps it going forever. */
  lemma RunFinishes(t: Tracker, outcomes: seq<bool>)
    requires WellFormed(t)
    requires |outcomes| >= t.termination - t.currentStep
    ensures RunToEnd(t, outcomes).currentBlock == TYPE_NA
  {
  }

  /** The ranges recovered from a decorated workflow of clean steps, at any
      non-negative base, are well formed for the index just past its last step. */
  lemma {:induction false} DecoratedRangesWellFormed(k: int, stepsMap: StepsMap)
    requires AllClean(stepsMap) && k >= 0
    ensures RangesWellFormed(BlockRanges(k, OrderedSteps(stepsMap)), k + |OrderedSteps(stepsMap)|)
  {
    var r := BlockRanges(k, OrderedSteps(stepsMap));
    var total := |OrderedSteps(stepsMap)|;
    assert total == |StepsOf(stepsMap, MAIN)| + |StepsOf(stepsMap, GENERAL_ERROR)| + |StepsOf(stepsMap, FINALLY)|;
    forall b | b in r
      ensures IsExecutionBlock(b) && 0 <= r[b].startIdx <= r[b].endIdx < k + total
    {
      RangesOfOrderedSteps(k, stepsMap, b);
    }
    forall b1, b2 | b1 in r && b2 in r && Rank(b1) < Rank(b2)
      ensures r[b1].endIdx < r[b2].startIdx
    {
      RangesOfOrderedSteps(k, stepsMap, b1);
      RangesOfOrderedSteps(k, stepsMap, b2);
    }
  }
}
