# Step tracker of the gos-orc workflow model, in Dafny

A workflow is a flat list of steps. The list is split into three blocks that run in
order, as a try/catch/finally would: MAIN, GENERAL_ERROR and FINALLY. The first
and last step of each block carry START/END indicators. A `Tracker` holds:

- the current block and step index;
- whether an error was raised, and the index of the first failed step;
- the termination index;
- a map from each block to its absolute `[startIdx, endIdx]` range.

This project models the code that decorates, flattens and measures the step
lists, moves the tracker on each process outcome, and updates the platform
message around it. It proves what that code promises.

Modules, one per source file, plus the proofs that relate them:

- `Model`: the protobuf messages as immutable datatypes.
  - `BlockType` is `Block`, with the fixed order MAIN, GENERAL_ERROR, FINALLY and the sentinels UNRECOGNIZED and TYPE_NA.
  - A protobuf map miss is a missing key. A step list mapped to null is `None`.
  - Exceptions become the variants of `Error`.
- `StepUtils`: `markEdges`, `blockDecoration` and `indicators`.
- `TrackerDetails`: `lastStepInBlock` and `jumpToBlock`, with the Java `Either` lefts as `JumpError`.
- `TrackerUtils`: `orderedSteps`, `blockRanges`, `nextStepOnSuccess` and `nextStepOnFailure`.
- `RangeProofs`: a fold-free description of `blockRanges`, its offset shift, and the round trip through `orderedSteps`.
- `RulesUtils`: `fromRule`, and its equality with `orderedSteps`.
- `TrackerProofs`: what the transitions keep.
  - Well-formed trackers stay well formed.
  - On a well-formed, unfinished tracker, every outcome moves the cursor strictly forward. On a finished one, a failure keeps the cursor at termination and a success throws.
  - From a well-formed tracker, any run of outcomes ends the workflow within `termination - currentStep` outcomes.
  - For step lists that carry no indicators yet and a base index k >= 0, the ranges recovered from the decorated workflow are well formed.
- `Builders`: the two protobuf builders that are changed in place, as classes.
- `PlatformWorkflowUtils`: `updateTracker`.
- `PlatformMessageUtils`: `appendOutcome`, `handleSuccess`, `processInput`, `currentStep` and `maybeCurrentAddress`.
  - `handleSuccess` is a method over a builder, with its two `forEach` loops.
- `Navigation`: `hasMoreSteps`, `updateWorkflow` (a method over a builder) and `maybeStepAddress`.

Where the code and its documentation disagree, the model follows the code.
The doc comment of `markEdges` (`StepUtils.java:22`) says a lone step gets only
START. The code gives it START and then END, and so does the model.

## Model

| member | source | states |
|---|---|---|
| Model.StepsOf | src/main/java/com/orta/gos/model/rules/TrackerUtils.java:52 | the step list of a block is the mapped list, and is empty when the block is absent or mapped to null |
| StepUtils.Indicators | src/main/java/com/orta/gos/model/rules/StepUtils.java:51-54 | one indicator per edge, in order, each for the given block |
| StepUtils.BlockDecoration | src/main/java/com/orta/gos/model/rules/StepUtils.java:45-49 | the decorated step keeps name, address and attributes, keeps its old indicators as a prefix, and grows by one indicator per edge |
| StepUtils.BlockDecorationAppends | src/main/java/com/orta/gos/model/rules/StepUtils.java:45-54 | the appended indicators are exactly `(block, edge)` for each edge, in order |
| StepUtils.MarkEdges | src/main/java/com/orta/gos/model/rules/StepUtils.java:28-43 | the output has as many steps as the input |
| StepUtils.MarkEdgesExtends | src/main/java/com/orta/gos/model/rules/StepUtils.java:28-43 | every decorated step keeps the name, address and attributes of its input step, and that step's indicators as a prefix |
| StepUtils.MarkEdgesInterior | src/main/java/com/orta/gos/model/rules/StepUtils.java:40-41 | the steps strictly between the first and the last are returned unchanged |
| StepUtils.MarkEdgesEnds | src/main/java/com/orta/gos/model/rules/StepUtils.java:33-42 | a lone step gains START then END; otherwise the first step gains START and the last gains END |
| StepUtils.MarkEdgesShape | src/main/java/com/orta/gos/model/rules/StepUtils.java:28-43 | every step keeps its fields, with its indicators as a prefix; interior steps are returned unchanged; a lone step gains START then END; otherwise the first gains START and the last gains END |
| StepUtils.MarkEdgesOfClean | src/main/java/com/orta/gos/model/rules/StepUtils.java:33-42 | on steps without indicators: a lone step carries exactly START then END for the block; otherwise the first carries only START, the last only END, and the interior steps carry none |
| TrackerDetails.LastStepInBlock | src/main/java/com/orta/gos/model/rules/TrackerDetails.java:18-20 | throws (NullPointer) exactly when the current block has no range; otherwise true iff currentStep equals that range's endIdx |
| TrackerDetails.JumpToBlock | src/main/java/com/orta/gos/model/rules/TrackerDetails.java:22-29 | "not found" exactly when the target has no range; "moves backwards", with both indices, exactly when its start is before the cursor; otherwise `(startIdx, target)` with startIdx >= currentStep |
| TrackerDetails.JumpSucceedsIff | src/main/java/com/orta/gos/model/rules/TrackerDetails.java:22-29 | a jump succeeds iff the target has a range starting at or after the cursor (equality allowed) |
| TrackerUtils.AppendBlocks | src/main/java/com/orta/gos/model/rules/TrackerUtils.java:51-53 | no ensures of its own; RulesUtils.AppendBlocksIsFlatMap states it: the accumulator followed by the decorated steps of each listed block, in order |
| TrackerUtils.OrderedSteps | src/main/java/com/orta/gos/model/rules/TrackerUtils.java:50-54 | the result is markEdges of MAIN's steps, then of GENERAL_ERROR's, then of FINALLY's |
| TrackerUtils.Absorb | src/main/java/com/orta/gos/model/rules/TrackerUtils.java:75-90 | no ensures of its own; RangeProofs.AbsorbAt states it block by block |
| TrackerUtils.FoldRanges | src/main/java/com/orta/gos/model/rules/TrackerUtils.java:74-93 | no ensures of its own; RangeProofs.FoldRangesAt states it against the fold-free LastMark description, and RangeProofs.FoldRangesAppend and FoldRangesSkipsBare state how it composes |
| TrackerUtils.BlockRanges | src/main/java/com/orta/gos/model/rules/TrackerUtils.java:73-93 | no ensures of its own; RangeProofs.BlockRangesAt, BlockRangesShift and RangesOfOrderedSteps state it |
| TrackerUtils.NextStepOnSuccess | src/main/java/com/orta/gos/model/rules/TrackerUtils.java:95-119 | throws exactly when the current block has no range. Otherwise only block and step change. Off the last step: step + 1. On the last step of MAIN or GENERAL_ERROR: FINALLY's start when the jump is allowed. In every other case: TYPE_NA at termination |
| TrackerUtils.NextStepOnFailure | src/main/java/com/orta/gos/model/rules/TrackerUtils.java:121-144 | errorRaised is set. errorRaisedStep becomes the pre-transition step, or the minimum of it and the old errorRaisedStep (never larger). From MAIN: GENERAL_ERROR's start when the jump is allowed; otherwise TYPE_NA at termination. termination and ranges are kept |
| RangeProofs.LastMark | src/main/java/com/orta/gos/model/rules/TrackerUtils.java:79-88 | the position of the last step whose first indicator names the block and which carries the edge; none only when no step does |
| RangeProofs.AbsorbAt | src/main/java/com/orta/gos/model/rules/TrackerUtils.java:75-90 | a step without indicators changes nothing. Only the type of a step's first indicator is used. Its range, or a fresh one, gets startIdx on START and endIdx on END; the rest is kept |
| RangeProofs.FoldRangesAt | src/main/java/com/orta/gos/model/rules/TrackerUtils.java:73-93 | for any starting map: a block has a range iff it had one or some step names it; each index is base plus the last marking position, else the old value |
| RangeProofs.BlockRangesAt | src/main/java/com/orta/gos/model/rules/TrackerUtils.java:73-93 | blockRanges gives a block a range iff some step's first indicator names it. The range has that type. Each index is currentStepIdx plus the last marking position, and 0 when the edge is never marked |
| RangeProofs.BlockRangesShift | src/main/java/com/orta/gos/model/rules/TrackerUtils.java:86-88 | moving the base from 0 to k shifts every recorded index by k; unmarked edges stay 0 |
| RangeProofs.DoubleMarkedStep | src/main/java/com/orta/gos/model/rules/TrackerUtils.java:79-90 | a step marked START and END for a block yields a range with start == end == its index |
| RangeProofs.FoldRangesSkipsBare | src/main/java/com/orta/gos/model/rules/TrackerUtils.java:76-77 | steps without indicators leave the ranges unchanged |
| RangeProofs.FoldRangesAppend | src/main/java/com/orta/gos/model/rules/TrackerUtils.java:73-93 | folding a concatenation folds the second part from the absolute index where the first stopped |
| RangeProofs.FoldMarkedBlock | src/main/java/com/orta/gos/model/rules/TrackerUtils.java:73-93 | one decorated block of bare steps records exactly the range of its first and last index |
| RangeProofs.FoldThreeBlocks | src/main/java/com/orta/gos/model/rules/TrackerUtils.java:73-93 | decorated MAIN, GENERAL_ERROR and FINALLY blocks folded end to end from k record one range per non-empty block, laid out consecutively |
| RangeProofs.OrderedStepsBlockSlice | src/main/java/com/orta/gos/model/rules/TrackerUtils.java:50-54 | each block's decorated steps sit in the flattened list at the offset given by the lengths of the blocks before it |
| RangeProofs.BlockRangesOfOrderedSteps | src/main/java/com/orta/gos/model/rules/TrackerUtils.java:50-93 | for step lists that carry no indicators yet, blockRanges(k, orderedSteps(m)) is the map of one range per non-empty block, laid out consecutively from k |
| RangeProofs.RangesOfOrderedSteps | src/main/java/com/orta/gos/model/rules/TrackerUtils.java:50-93 | round trip, for step lists that carry no indicators yet: a block has a range iff it is an execution block with steps, and the range spans k + first position to k + last position of its steps |
| RulesUtils.FlatMapBlocks | src/main/java/com/orta/gos/model/rules/RulesUtils.java:25-28 | no ensures of its own; RulesUtils.AppendBlocksIsFlatMap and FromRule state it |
| RulesUtils.FromRule | src/main/java/com/orta/gos/model/rules/RulesUtils.java:24-29 | the output is MAIN's decorated steps, then GENERAL_ERROR's, then FINALLY's; its length is the sum of the three list lengths (absent or null blocks count 0) |
| RulesUtils.AppendBlocksIsFlatMap | src/main/java/com/orta/gos/model/rules/TrackerUtils.java:51-53 | the foldLeft of orderedSteps is the accumulator followed by the flatMap of fromRule, for any block list |
| RulesUtils.FromRuleIsOrderedSteps | src/main/java/com/orta/gos/model/rules/RulesUtils.java:24-29 | fromRule and orderedSteps return the same list |
| RulesUtils.FromRuleDependsOnLookups | src/main/java/com/orta/gos/model/rules/RulesUtils.java:24-29 | maps that give the same lists for the three blocks give the same result |
| TrackerProofs.Transition | src/main/java/com/orta/gos/model/utils/PlatformWorkflowUtils.java:35-39 | no ensures of its own; PlatformWorkflowUtils.UpdateTrackerIsTransition shows it is updateTracker's dispatch on the workflow's tracker |
| TrackerProofs.SuccessPreservesWellFormed | src/main/java/com/orta/gos/model/rules/TrackerUtils.java:95-119 | on a well-formed unfinished tracker, a success never throws, keeps the tracker well formed, moves the cursor strictly forward and keeps the error fields |
| TrackerProofs.SuccessAfterEndThrows | src/main/java/com/orta/gos/model/rules/TrackerDetails.java:18-20 | a success on a finished well-formed tracker throws, because TYPE_NA has no range |
| TrackerProofs.FailurePreservesWellFormed | src/main/java/com/orta/gos/model/rules/TrackerUtils.java:121-144 | a failure keeps a well-formed tracker well formed. It moves an unfinished one strictly forward, and keeps a finished one at TYPE_NA and termination |
| TrackerProofs.FailureInErrorBlockEnds | src/main/java/com/orta/gos/model/rules/TrackerUtils.java:124-142 | a failure inside GENERAL_ERROR ends the workflow at termination and keeps the first errorRaisedStep |
| TrackerProofs.RunToEnd | src/main/java/com/orta/gos/model/rules/TrackerUtils.java:95-144 | applying any outcomes until the workflow finishes keeps the tracker well formed and its termination and ranges. It advances at least one step per outcome applied, and never clears the error flag or raises errorRaisedStep |
| TrackerProofs.RunFinishes | src/main/java/com/orta/gos/model/rules/TrackerUtils.java:95-144 | from a well-formed tracker, every run of at least termination - currentStep outcomes ends at TYPE_NA |
| TrackerProofs.DecoratedRangesWellFormed | src/main/java/com/orta/gos/model/rules/TrackerUtils.java:50-93 | for step lists that carry no indicators yet and k >= 0, the ranges recovered from orderedSteps lie within the flattened list, in block order and without overlap |
| Builders.PlatformWorkflowBuilder.From | src/main/java/com/orta/gos/model/utils/Navigation.java:18 | a builder copied from a workflow builds that workflow |
| Builders.PlatformWorkflowBuilder.SetTracker | src/main/java/com/orta/gos/model/utils/PlatformMessageUtils.java:43-45 | only the tracker changes |
| Builders.PlatformWorkflowBuilder.AddCompletedSteps | src/main/java/com/orta/gos/model/utils/Navigation.java:21 | the name is appended to the completed steps; nothing else changes |
| Builders.PlatformWorkflowBuilder.RemoveSteps | src/main/java/com/orta/gos/model/utils/Navigation.java:22 | the step at the index is removed; nothing else changes |
| Builders.PlatformMessageBuilder.From | src/main/java/com/orta/gos/model/utils/PlatformMessageUtils.java:48 | a builder copied from a message builds that message |
| Builders.PlatformMessageBuilder.SetWorkflowLog | src/main/java/com/orta/gos/model/utils/PlatformMessageUtils.java:48-49 | only the workflow changes |
| Builders.PlatformMessageBuilder.AddPayloads | src/main/java/com/orta/gos/model/utils/PlatformMessageUtils.java:81-82 | the payload is appended; nothing else changes |
| Builders.PlatformMessageBuilder.PutHeaders | src/main/java/com/orta/gos/model/utils/PlatformMessageUtils.java:86-88 | the entry is put into the headers; nothing else changes |
| PlatformWorkflowUtils.UpdateTracker | src/main/java/com/orta/gos/model/utils/PlatformWorkflowUtils.java:34-45 | fails exactly when the outcome is unset (IllegalState) or a success finds no range for the current block; a failure always yields a tracker with errorRaised |
| PlatformWorkflowUtils.UpdateTrackerIsTransition | src/main/java/com/orta/gos/model/utils/PlatformWorkflowUtils.java:35-39 | a success is nextStepOnSuccess and a failure is nextStepOnFailure of the workflow's tracker |
| PlatformWorkflowUtils.UpdateTrackerIgnoresSteps | src/main/java/com/orta/gos/model/utils/PlatformWorkflowUtils.java:34-45 | the result depends only on the tracker, not on the step list |
| PlatformWorkflowUtils.UpdateTrackerAdvances | src/main/java/com/orta/gos/model/utils/PlatformWorkflowUtils.java:34-45 | on a well-formed unfinished tracker every set outcome is accepted and yields a well-formed tracker further on |
| PlatformMessageUtils.SuccessPayloads | src/main/java/com/orta/gos/model/utils/PlatformMessageUtils.java:64-66 | the output payload if the success has one, else nothing |
| PlatformMessageUtils.MergeHeaders | src/main/java/com/orta/gos/model/utils/PlatformMessageUtils.java:85-88 | the keys are the union of both key sets; existing values win; new keys take the incoming value |
| PlatformMessageUtils.MergeHeadersAddsNewEntries | src/main/java/com/orta/gos/model/utils/PlatformMessageUtils.java:85-88 | the merge is the existing map extended by the incoming entries whose keys are new |
| PlatformMessageUtils.NewEntries | src/main/java/com/orta/gos/model/utils/PlatformMessageUtils.java:86-87 | no ensures of its own; PlatformMessageUtils.MergeHeadersAddsNewEntries states that the existing headers extended by these entries are the merge |
| PlatformMessageUtils.AddAllPayloads | src/main/java/com/orta/gos/model/utils/PlatformMessageUtils.java:81-82 | after the loop, the builder's payloads are the old ones followed by the given ones; nothing else changes |
| PlatformMessageUtils.PutAllHeaders | src/main/java/com/orta/gos/model/utils/PlatformMessageUtils.java:85-88 | after the loop, the builder's headers are the old ones overridden by the given entries; payloads and workflow are kept |
| PlatformMessageUtils.PutAbsentHeaders | src/main/java/com/orta/gos/model/utils/PlatformMessageUtils.java:85-88 | after the loop, the builder's headers are the merge of the old ones with the incoming ones; nothing else changes |
| PlatformMessageUtils.HandleSuccess | src/main/java/com/orta/gos/model/utils/PlatformMessageUtils.java:79-91 | the built message has the success payload appended and the headers merged, and the builder's workflow is kept |
| PlatformMessageUtils.AppendOutcome | src/main/java/com/orta/gos/model/utils/PlatformMessageUtils.java:40-62 | fails exactly when updateTracker does, with its error. Otherwise the workflow gets the new tracker and keeps its steps and completed steps. A success appends the payload and merges the headers; a failure keeps payloads and headers |
| PlatformMessageUtils.ProcessInputOf | src/main/java/com/orta/gos/model/utils/PlatformMessageUtils.java:26-31 | fails (NoSuchElement) exactly when there is no payload or no step; otherwise exactly the last payload and the first step's attributes |
| PlatformMessageUtils.CurrentStep | src/main/java/com/orta/gos/model/utils/PlatformMessageUtils.java:108-116 | the step at the tracker's index iff the index is in bounds, else an out-of-bounds error with the index and the length |
| PlatformMessageUtils.MaybeCurrentAddress | src/main/java/com/orta/gos/model/utils/PlatformMessageUtils.java:93-106 | the address of the step at the tracker's index iff the index is in bounds, else nothing |
| PlatformMessageUtils.CurrentAddressOfCurrentStep | src/main/java/com/orta/gos/model/utils/PlatformMessageUtils.java:93-116 | the address lookup succeeds exactly when the step lookup does, and gives that step's address |
| Navigation.HasMoreSteps | src/main/java/com/orta/gos/model/utils/Navigation.java:11-13 | true iff the step list is non-empty |
| Navigation.Popped | src/main/java/com/orta/gos/model/utils/Navigation.java:19-23 | no ensures of its own; Navigation.UpdateWorkflow, PoppedKeepsNames and PopAll state it |
| Navigation.UpdateWorkflow | src/main/java/com/orta/gos/model/utils/Navigation.java:16-25 | with no steps the workflow is returned unchanged. Otherwise the first step is removed and its name is appended to the completed steps. The completed names followed by the queued names are preserved, and so is the tracker |
| Navigation.PoppedKeepsNames | src/main/java/com/orta/gos/model/utils/Navigation.java:19-23 | one pop keeps completed names followed by queued names |
| Navigation.PopAll | src/main/java/com/orta/gos/model/utils/Navigation.java:16-25 | popping once per step empties the queue and leaves all names, in order, after the earlier completed names |
| Navigation.MaybeStepAddress | src/main/java/com/orta/gos/model/utils/Navigation.java:28-31 | nothing iff there are no steps; otherwise the first step's address |
| Navigation.StepAddressAtStart | src/main/java/com/orta/gos/model/utils/Navigation.java:28-31 | with the tracker at index 0, it agrees with maybeCurrentAddress |

## Left out

- Logging (`Log.error`, `Log.errorf`) is left out. It never changes a result.
- `TrackerUtils.updateStepsBlocks` (`TrackerUtils.java:19-39`) is left out. It discards its fold and returns a copy of the tracker, so its only behaviour is the identity.
- The private helpers of `PlatformWorkflowUtils.java:47-103` are left out, because nothing calls them.
- Exception and `Either` message texts are left out. Each exception is an `Error` variant and each `Left` a `JumpError` variant.
- The sentinels are left out of the block iteration:
  - `orderedSteps` and `fromRule` iterate the protobuf `BlockType.values()`, which also lists the sentinels UNRECOGNIZED and TYPE_NA.
  - The model iterates MAIN, GENERAL_ERROR, FINALLY only. The declared order is that one, and the sentinels never receive steps.
  - Raw enum numbers, and map keys that are not enum members, are not modelled.
- The protobuf ranges map is keyed by the block's enum number. The model keys it by the block itself.
- The round trip through `blockRanges` holds only for step lists that carry no indicators before decoration.
  - An interior step that already carries an indicator for another block gives that block a range, even when the block has no steps.
  - `RangeProofs.BlockRangesOfOrderedSteps`, `RangeProofs.RangesOfOrderedSteps` and `TrackerProofs.DecoratedRangesWellFormed` therefore require `AllClean`.
- `StepUtils.Indicators`: does not model the IllegalArgumentException that the generated `setType` throws for UNRECOGNIZED (`StepUtils.java:51-54`). The model builds the indicator.
- `StepUtils.MarkEdges`: does not model the same exception for UNRECOGNIZED, which reaches it through `blockDecoration`. Its callers only pass MAIN, GENERAL_ERROR and FINALLY.
- `TrackerDetails.JumpToBlock`: does not model the IllegalArgumentException of `getNumber()` on UNRECOGNIZED (`TrackerDetails.java:23`). The model answers "not found" or a jump. Its callers only jump to GENERAL_ERROR or FINALLY.
- `TrackerUtils.BlockRanges`: does not model the IllegalArgumentException of `getNumber()` when a step's first indicator names UNRECOGNIZED (`TrackerUtils.java:83-84`). The model records a range under UNRECOGNIZED. Decorated workflows never carry such an indicator.
- A null step list is modelled at the map lookup (`Model.StepsOf`). `markEdges` itself takes a list, so its null guard is covered there.
- `TrackerUtils.NextStepOnSuccess`: does not model the 32-bit wrap-around of `currentStep + 1`. The model's integers are unbounded. The same holds for the index arithmetic of `blockRanges`.
- `Navigation.UpdateWorkflow`: returns the built workflow, not the builder. Every caller builds it straight away.
- `Builders.PlatformWorkflowBuilder.RemoveSteps`: requires an index inside the list. Out of range, the generated code throws, and the only caller never does that.
- `PlatformMessageUtils.PutAllHeaders`: iterates the header keys in an unspecified order. Java iterates a hash map, and the resulting map is the same either way.
- Serialisation, Quarkus and payload body formats are left out. Payload bodies and step attributes are opaque values.
