/** Position queries on a tracker (the TrackerDetails record). Both are
    pure: they return a value and leave the tracker as it is. */
module TrackerDetails {
  import opened Wrappers
  import opened Model

  /** Why the cursor cannot move to another block; the Java code reports
      these as Left strings ("Block [b] was not found", "attempt to move
      backwards (from c to idx s)", and the two terminal reasons the
      transitions produce themselves). */
  datatype JumpError =
    | BlockNotFound(target: Block)
    | MovedBackwards(from: int, to: int)
    | NowhereToAdvance            // success on the last step of a block with no successor
    | FailedOnBlock(block: Block) // failure outside MAIN

  /** lastStepInBlock: is the cursor on the end index of its block's range?
      A tracker whose current block has no range makes the Java map lookup
      return null and the call throw. */
  function LastStepInBlock(tracker: Tracker): (r: Result<bool, Error>)
    ensures r.Err? <==> tracker.currentBlock !in tracker.ranges
    ensures r.Err? ==> r.error == NullPointer
    ensures r.Ok? ==> (r.value <==> tracker.currentStep == tracker.ranges[tracker.currentBlock].endIdx)
  {
    if tracker.currentBlock in tracker.ranges then
      Ok(tracker.currentStep == tracker.ranges[tracker.currentBlock].endIdx)
    else
      Err(NullPointer)
  }

  /** jumpToBlock: the start index of `target`, provided the block has a
      range and the jump does not move the cursor backwards. */
  function JumpToBlock(tracker: Tracker, target: Block): (r: Result<(int, Block), JumpError>)
    ensures target !in tracker.ranges <==> r == Err(BlockNotFound(target))
    ensures r.Err? && r.error.MovedBackwards? <==>
      target in tracker.ranges && tracker.ranges[target].startIdx < tracker.currentStep
    ensures r.Err? && r.error.MovedBackwards? ==>
      r.error == MovedBackwards(tracker.currentStep, tracker.ranges[target].startIdx)
    ensures r.Ok? ==>
      && target in tracker.ranges
      && r.value == (tracker.ranges[target].startIdx, target)
      && r.value.0 >= tracker.currentStep
  {
    if target !in tracker.ranges then
      Err(BlockNotFound(target))
    else
      var idx := tracker.ranges[target].startIdx;
      if idx < tracker.currentStep then Err(MovedBackwards(tracker.currentStep, idx))
      else Ok((idx, target))
  }

  /** A jump succeeds exactly when the target has a range that starts at or
      after the cursor; equality is allowed. */
  lemma JumpSucceedsIff(tracker: Tracker, target: Block)
    ensures JumpToBlock(tracker, target).Ok? <==>
      target in tracker.ranges && tracker.currentStep <= tracker.ranges[target].startIdx
  {
  }
}
