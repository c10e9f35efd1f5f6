/** RulesUtils.fromRule: the per-block step lists of a rule, decorated and
    flattened in block order. */
module RulesUtils {
  import opened Model
  import opened StepUtils
  import opened TrackerUtils

  /** The flatMap of markEdges over `blocks`. */
  function FlatMapBlocks(stepsMap: StepsMap, blocks: seq<Block>): (r: seq<Step>)
    decreases |blocks|
  {
    if blocks == [] then []
    else MarkEdges(blocks[0], StepsOf(stepsMap, blocks[0])) + FlatMapBlocks(stepsMap, blocks[1..])
  }

  /** fromRule: MAIN's decorated steps, then GENERAL_ERROR's, then FINALLY's;
      a block that is absent or mapped to null contributes nothing, so the
      length is the sum of the three list lengths. */
  function FromRule(stepsMap: StepsMap): (r: seq<Step>)
    ensures r == MarkEdges(MAIN, StepsOf(stepsMap, MAIN))
               + MarkEdges(GENERAL_ERROR, StepsOf(stepsMap, GENERAL_ERROR))
               + MarkEdges(FINALLY, StepsOf(stepsMap, FINALLY))
    ensures |r| == |StepsOf(stepsMap, MAIN)| + |StepsOf(stepsMap, GENERAL_ERROR)| + |StepsOf(stepsMap, FINALLY)|
  {
    var r := FlatMapBlocks(stepsMap, BlockOrder);
    assert BlockOrder[1..] == [GENERAL_ERROR, FINALLY];
    assert BlockOrder[1..][1..] == [FINALLY];
    assert r == MarkEdges(MAIN, StepsOf(stepsMap, MAIN))
              + (MarkEdges(GENERAL_ERROR, StepsOf(stepsMap, GENERAL_ERROR))
                 + (MarkEdges(FINALLY, StepsOf(stepsMap, FINALLY)) + []));
    r
  }

  /** The left fold of orderedSteps is the accumulator followed by the flatMap. */
  lemma {:induction false} AppendBlocksIsFlatMap(acc: seq<Step>, stepsMap: StepsMap, blocks: seq<Block>)
    ensures AppendBlocks(acc, stepsMap, blocks) == acc + FlatMapBlocks(stepsMap, blocks)
    decreases |blocks|
  {
    if blocks != [] {
      var head := MarkEdges(blocks[0], StepsOf(stepsMap, blocks[0]));
      var rest := FlatMapBlocks(stepsMap, blocks[1..]);
      AppendBlocksIsFlatMap(acc + head, stepsMap, blocks[1..]);
      assert acc + head + rest == acc + (head + rest);
    }
  }

  /** fromRule and orderedSteps compute the same list, for every block list. */
  lemma FromRuleIsOrderedSteps(stepsMap: StepsMap)
    ensures FromRule(stepsMap) == OrderedSteps(stepsMap)
  {
    AppendBlocksIsFlatMap([], stepsMap, BlockOrder);
    assert [] + FlatMapBlocks(stepsMap, BlockOrder) == FlatMapBlocks(stepsMap, BlockOrder);
  }

  /** Only what the three execution blocks look up matters: whether a block
      is absent, null or empty, and how the map was built, make no difference. */
  lemma FromRuleDependsOnLookups(m1: StepsMap, m2: StepsMap)
    requires forall b :: IsExecutionBlock(b) ==> StepsOf(m1, b) == StepsOf(m2, b)
    ensures FromRule(m1) == FromRule(m2)
  {
    assert IsExecutionBlock(MAIN) && IsExecutionBlock(GENERAL_ERROR) && IsExecutionBlock(FINALLY);
  }
}
