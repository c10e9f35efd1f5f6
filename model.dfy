/** The data model: the protobuf messages the tracker core reads and writes,
    written as immutable value records. */
module Model {
  import opened Wrappers

  /** The protobuf enum BlockType. MAIN, GENERAL_ERROR and FINALLY are the
      ordered execution blocks; UNRECOGNIZED and TYPE_NA are the sentinels
      (TYPE_NA marks a finished workflow). */
  datatype Block = MAIN | GENERAL_ERROR | FINALLY | UNRECOGNIZED | TYPE_NA

  /** The declared iteration order of the execution blocks. */
  const BlockOrder: seq<Block> := [MAIN, GENERAL_ERROR, FINALLY]

  predicate IsExecutionBlock(b: Block) {
    b == MAIN || b == GENERAL_ERROR || b == FINALLY
  }

  /** The protobuf enum BlockEdge. */
  datatype Edge = START | END

  datatype BlockIndicator = BlockIndicator(blockType: Block, edge: Edge)

  /** A workflow step. Attributes are the step's inputs; indicators mark the
      step as the first and/or last step of a block. */
  datatype Step = Step(
    name: string,
    address: string,
    attributes: map<string, string>,
    indicators: seq<BlockIndicator>)

  /** Absolute, inclusive bounds of a block. Unset protobuf integers read as 0. */
  datatype BlockRange = BlockRange(blockType: Block, startIdx: int, endIdx: int)

  datatype Tracker = Tracker(
    currentBlock: Block,
    currentStep: int,
    errorRaised: bool,
    errorRaisedStep: int,
    termination: int,
    ranges: map<Block, BlockRange>)

  /** A payload body; its content is opaque to this core. */
  datatype Payload = Payload(body: string)

  datatype ProcessOutcomeSuccess = ProcessOutcomeSuccess(
    outputPayload: Option<Payload>,
    headers: map<string, string>)

  /** ProcessOutcome, by its oneof case: SUCCESS, FAILURE or OUTCOME_NOT_SET. */
  datatype ProcessOutcome =
    | SuccessCase(success: ProcessOutcomeSuccess)
    | FailureCase(errorMessage: string)
    | OutcomeNotSet

  datatype PlatformWorkflow = PlatformWorkflow(
    steps: seq<Step>,
    completedSteps: seq<string>,
    tracker: Tracker)

  datatype PlatformMessage = PlatformMessage(
    payloads: seq<Payload>,
    headers: map<string, string>,
    workflowLog: PlatformWorkflow)

  datatype ProcessInput = ProcessInput(
    payloads: seq<Payload>,
    attributes: map<string, string>)

  /** The exceptions the Java code lets escape. */
  datatype Error =
    | NullPointer                               // a protobuf map lookup returned null
    | IllegalState                              // an outcome with no case set
    | IndexOutOfBounds(index: int, length: int) // List.get outside the list
    | NoSuchElement                             // getFirst/getLast of an empty list

  /** The per-block step lists handed to the decorator; a None value stands
      for a key mapped to null. */
  type StepsMap = map<Block, Option<seq<Step>>>

  /** `stepsMap.getOrElse(block, List.empty())`, with a null value read as
      "no steps", which is what markEdges does with it. */
  function StepsOf(stepsMap: StepsMap, b: Block): (r: seq<Step>)
    ensures b !in stepsMap ==> r == []
    ensures b in stepsMap && stepsMap[b].None? ==> r == []
    ensures b in stepsMap && stepsMap[b].Some? ==> r == stepsMap[b].value
  {
    if b in stepsMap then
      match stepsMap[b]
      case Some(steps) => steps
      case None => []
    else []
  }
}
