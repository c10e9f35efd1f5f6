/** Flattening of the per-block step lists, recovery of block ranges from a
    decorated list, and the tracker's success/failure transitions
    (TrackerUtils). */
module TrackerUtils {
  import opened Wrappers
  import opened Model
  import opened StepUtils
  import opened TrackerDetails

  // ---------------------------------------------------------------------
  // orderedSteps

  /** The foldLeft of orderedSteps: append the decorated steps of each block
      of `blocks`, in order, to `acc`. */
  function AppendBlocks(acc: seq<Step>, stepsMap: StepsMap, blocks: seq<Block>): seq<Step>
    decreases |blocks|
  {
    if blocks == [] then acc
    else AppendBlocks(acc + MarkEdges(blocks[0], StepsOf(stepsMap, blocks[0])), stepsMap, blocks[1..])
  }

  /** orderedSteps: MAIN's decorated steps, then GENERAL_ERROR's, then
      FINALLY's, whatever order the map holds its keys in. */
  function OrderedSteps(stepsMap: StepsMap): (r: seq<Step>)
    ensures r == MarkEdges(MAIN, StepsOf(stepsMap, MAIN))
               + MarkEdges(GENERAL_ERROR, StepsOf(stepsMap, GENERAL_ERROR))
               + MarkEdges(FINALLY, StepsOf(stepsMap, FINALLY))
  {
    var r := AppendBlocks([], stepsMap, BlockOrder);
    assert BlockOrder[1..] == [GENERAL_ERROR, FINALLY];
    assert BlockOrder[1..][1..] == [FINALLY];
    r
  }

  // ---------------------------------------------------------------------
  // blockRanges

  /** The block a step's indicators speak for: the type of its first one. */
  function Owner(step: Step): Option<Block> {
    if step.indicators == [] then None else Some(step.indicators[0].blockType)
  }

  /** Some indicator of the list has this edge, whatever its block. */
  predicate HasEdge(indicators: seq<BlockIndicator>, edge: Edge) {
    exists j :: 0 <= j < |indicators| && indicators[j].edge == edge
  }

  /** The range a fold step starts from: the recorded one, or a fresh range
      whose indices are the protobuf default 0. */
  function RangeOrDefault(ranges: map<Block, BlockRange>, b: Block): BlockRange {
    if b in ranges then ranges[b] else BlockRange(b, 0, 0)
  }

  /** One step of the blockRanges fold, for the step at absolute index `idx`. */
  function Absorb(ranges: map<Block, BlockRange>, idx: int, step: Step): map<Block, BlockRange> {
    if step.indicators == [] then ranges
    else
      var b := step.indicators[0].blockType;
      var range := RangeOrDefault(ranges, b);
      var range := if HasEdge(step.indicators, START) then range.(startIdx := idx) else range;
      var range := if HasEdge(step.indicators, END) then range.(endIdx := idx) else range;
      ranges[b := range]
  }

  /** The fold over `steps`, whose first element sits at absolute index `idx`. */
  function FoldRanges(ranges: map<Block, BlockRange>, idx: int, steps: seq<Step>): map<Block, BlockRange>
    decreases |steps|
  {
    if steps == [] then ranges
    else FoldRanges(Absorb(ranges, idx, steps[0]), idx + 1, steps[1..])
  }

  /** blockRanges: the ranges recorded by the indicators of `steps`, each
      index being `currentStepIdx` plus the step's position. */
  function BlockRanges(currentStepIdx: int, steps: seq<Step>): map<Block, BlockRange> {
    FoldRanges(map[], currentStepIdx, steps)
  }

  // ---------------------------------------------------------------------
  // Transitions

  /** The tracker is allowed to move to the start of `b`. */
  predicate CanEnter(tracker: Tracker, b: Block) {
    b in tracker.ranges && tracker.currentStep <= tracker.ranges[b].startIdx
  }

  /** nextStepOnSuccess. Inside a block the cursor moves one step. On the last
      step of MAIN or GENERAL_ERROR it jumps to FINALLY when that jump is
      allowed; otherwise, and always from the other blocks, the workflow ends
      (TYPE_NA at the termination index). Only the block and the step change.
      A current block without a range makes lastStepInBlock throw. */
  function NextStepOnSuccess(tracker: Tracker): (r: Result<Tracker, Error>)
    ensures r.Err? <==> tracker.currentBlock !in tracker.ranges
    ensures r.Err? ==> r.error == NullPointer
    ensures r.Ok? ==>
      r.value.(currentBlock := tracker.currentBlock, currentStep := tracker.currentStep) == tracker
    ensures r.Ok? && tracker.currentStep != tracker.ranges[tracker.currentBlock].endIdx ==>
      r.value == tracker.(currentStep := tracker.currentStep + 1)
    ensures r.Ok? && tracker.currentStep == tracker.ranges[tracker.currentBlock].endIdx ==>
      if (tracker.currentBlock == MAIN || tracker.currentBlock == GENERAL_ERROR) && CanEnter(tracker, FINALLY)
      then r.value.currentBlock == FINALLY && r.value.currentStep == tracker.ranges[FINALLY].startIdx
      else r.value.currentBlock == TYPE_NA && r.value.currentStep == tracker.termination
  {
    match LastStepInBlock(tracker)
    case Err(e) => Err(e)
    case Ok(lastStep) =>
      if lastStep then
        var result: Result<(int, Block), JumpError> :=
          match tracker.currentBlock
          case MAIN => JumpToBlock(tracker, FINALLY)
          case GENERAL_ERROR => JumpToBlock(tracker, FINALLY)
          case FINALLY => Err(NowhereToAdvance)
          case UNRECOGNIZED => Err(NowhereToAdvance)
          case TYPE_NA => Err(NowhereToAdvance);
        var next := match result
          case Err(_) => (tracker.termination, TYPE_NA)
          case Ok(v) => v;
        Ok(tracker.(currentBlock := next.1, currentStep := next.0))
      else
        Ok(tracker.(currentStep := tracker.currentStep + 1))
  }

  /** nextStepOnFailure. From MAIN the cursor escalates to GENERAL_ERROR's
      start when that jump is allowed; otherwise, and from every other block,
      the workflow ends. The error flag is set, and the error step keeps the
      earliest failing index. */
  function NextStepOnFailure(tracker: Tracker): (r: Tracker)
    ensures r.errorRaised
    ensures !tracker.errorRaised ==> r.errorRaisedStep == tracker.currentStep
    ensures tracker.errorRaised ==>
      && r.errorRaisedStep <= tracker.errorRaisedStep
      && r.errorRaisedStep <= tracker.currentStep
      && (r.errorRaisedStep == tracker.errorRaisedStep || r.errorRaisedStep == tracker.currentStep)
    ensures r.termination == tracker.termination && r.ranges == tracker.ranges
    ensures if tracker.currentBlock == MAIN && CanEnter(tracker, GENERAL_ERROR)
      then r.currentBlock == GENERAL_ERROR && r.currentStep == tracker.ranges[GENERAL_ERROR].startIdx
      else r.currentBlock == TYPE_NA && r.currentStep == tracker.termination
  {
    var nextStep: Result<(int, Block), JumpError> :=
      match tracker.currentBlock
      case MAIN => JumpToBlock(tracker, GENERAL_ERROR)
      case _ => Err(FailedOnBlock(tracker.currentBlock));
    var newPosition := match nextStep
      case Err(_) => (tracker.termination, TYPE_NA)
      case Ok(v) => v;
    tracker.(
      currentBlock := newPosition.1,
      currentStep := newPosition.0,
      errorRaised := true,
      errorRaisedStep :=
        if tracker.errorRaised then Min(tracker.currentStep, tracker.errorRaisedStep)
        else tracker.currentStep)
  }

  function Min(a: int, b: int): int {
    if a <= b then a else b
  }
}
