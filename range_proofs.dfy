/** What blockRanges computes, stated without the fold: a block gets a range
    exactly when some step's first indicator names it, and each index is the
    base plus the position of the LAST step that carries that edge for the
    block (0, the protobuf default, when none does). From that follow the
    offset shift and the round trip through orderedSteps. */
module RangeProofs {
  import opened Wrappers
  import opened Model
  import opened StepUtils
  import opened TrackerUtils

  /** The step speaks for block `b` (its first indicator) and carries `edge`. */
  predicate Marks(step: Step, b: Block, edge: Edge) {
    Owner(step) == Some(b) && HasEdge(step.indicators, edge)
  }

  /** Some step speaks for block `b`. */
  predicate Touches(steps: seq<Step>, b: Block) {
    exists i :: 0 <= i < |steps| && Owner(steps[i]) == Some(b)
  }

  /** The position of the last step that marks `edge` for `b`. */
  function LastMark(steps: seq<Step>, b: Block, edge: Edge): (r: Option<nat>)
    ensures r.Some? ==>
      && r.value < |steps|
      && Marks(steps[r.value], b, edge)
      && forall i :: r.value < i < |steps| ==> !Marks(steps[i], b, edge)
    ensures r.None? ==> forall i :: 0 <= i < |steps| ==> !Marks(steps[i], b, edge)
    decreases |steps|
  {
    if steps == [] then None
    else
      match LastMark(steps[1..], b, edge)
      case Some(j) => Some(j + 1)
      case None => if Marks(steps[0], b, edge) then Some(0) else None
  }

  /** The index a fold records for `edge` of `b`: base plus the last marking
      position, or whatever the starting range held. */
  function Recorded(steps: seq<Step>, b: Block, edge: Edge, idx: int, otherwise: int): int {
    match LastMark(steps, b, edge)
    case Some(j) => idx + j
    case None => otherwise
  }

  lemma {:induction false} TouchesCons(steps: seq<Step>, b: Block)
    requires steps != []
    ensures Touches(steps, b) <==> Owner(steps[0]) == Some(b) || Touches(steps[1..], b)
  {
    if Touches(steps, b) {
      var i :| 0 <= i < |steps| && Owner(steps[i]) == Some(b);
      if i > 0 { assert steps[1..][i - 1] == steps[i]; }
    }
    if Touches(steps[1..], b) {
      var i :| 0 <= i < |steps[1..]| && Owner(steps[1..][i]) == Some(b);
      assert steps[i + 1] == steps[1..][i];
    }
  }

  /** One fold step, seen from block `b`. */
  lemma AbsorbAt(ranges: map<Block, BlockRange>, idx: int, step: Step, b: Block)
    ensures var r := Absorb(ranges, idx, step);
      var base := RangeOrDefault(ranges, b);
      && (b in r <==> b in ranges || Owner(step) == Some(b))
      && RangeOrDefault(r, b).blockType == base.blockType
      && RangeOrDefault(r, b).startIdx == (if Marks(step, b, START) then idx else base.startIdx)
      && RangeOrDefault(r, b).endIdx == (if Marks(step, b, END) then idx else base.endIdx)
  {
  }

  lemma RecordedCons(steps: seq<Step>, b: Block, edge: Edge, idx: int, otherwise: int)
    requires steps != []
    ensures Recorded(steps, b, edge, idx, otherwise) ==
      Recorded(steps[1..], b, edge, idx + 1, if Marks(steps[0], b, edge) then idx else otherwise)
  {
  }

  lemma {:induction false} FoldRangesAt(ranges: map<Block, BlockRange>, idx: int, steps: seq<Step>, b: Block)
    ensures var r := FoldRanges(ranges, idx, steps);
      var base := RangeOrDefault(ranges, b);
      && (b in r <==> b in ranges || Touches(steps, b))
      && RangeOrDefault(r, b).blockType == base.blockType
      && RangeOrDefault(r, b).startIdx == Recorded(steps, b, START, idx, base.startIdx)
      && RangeOrDefault(r, b).endIdx == Recorded(steps, b, END, idx, base.endIdx)
    decreases |steps|
  {
    if steps != [] {
      var next := Absorb(ranges, idx, steps[0]);
      AbsorbAt(ranges, idx, steps[0], b);
      FoldRangesAt(next, idx + 1, steps[1..], b);
      TouchesCons(steps, b);
      RecordedCons(steps, b, START, idx, RangeOrDefault(ranges, b).startIdx);
      RecordedCons(steps, b, END, idx, RangeOrDefault(ranges, b).endIdx);
    }
  }

  /** The full description of blockRanges for one block. */
  lemma {:induction false} BlockRangesAt(currentStepIdx: int, steps: seq<Step>, b: Block)
    ensures var r := BlockRanges(currentStepIdx, steps);
      && (b in r <==> Touches(steps, b))
      && (b in r ==> r[b].blockType == b)
      && (b in r ==> r[b].startIdx == Recorded(steps, b, START, currentStepIdx, 0))
      && (b in r ==> r[b].endIdx == Recorded(steps, b, END, currentStepIdx, 0))
  {
    FoldRangesAt(map[], currentStepIdx, steps, b);
  }

  /** Shifting the base by k shifts every index that was recorded by k; an
      edge never marked keeps the protobuf default 0 whatever the base. */
  lemma {:induction false} BlockRangesShift(k: int, steps: seq<Step>, b: Block)
    ensures var r0 := BlockRanges(0, steps);
      var rk := BlockRanges(k, steps);
      && (b in rk <==> b in r0)
      && (b in rk ==> rk[b].blockType == r0[b].blockType)
      && (b in rk ==> rk[b].startIdx == if LastMark(steps, b, START).Some? then r0[b].startIdx + k else 0)
      && (b in rk ==> rk[b].endIdx == if LastMark(steps, b, END).Some? then r0[b].endIdx + k else 0)
  {
    BlockRangesAt(0, steps, b);
    BlockRangesAt(k, steps, b);
  }

  /** A single step marked START and END for a block not yet recorded adds
      the range that starts and ends at its index. */
  lemma {:induction false} FoldDoubleMarked(ranges: map<Block, BlockRange>, idx: int, step: Step, b: Block)
    requires step.indicators == [BlockIndicator(b, START), BlockIndicator(b, END)]
    requires b !in ranges
    ensures FoldRanges(ranges, idx, [step]) == ranges[b := BlockRange(b, idx, idx)]
  {
    assert step.indicators[0].edge == START;
    assert step.indicators[1].edge == END;
    assert [step][1..] == [];
    assert HasEdge(step.indicators, START) && HasEdge(step.indicators, END);
    var r := Absorb(ranges, idx, step);
    assert r == ranges[b := BlockRange(b, idx, idx)];
    assert FoldRanges(ranges, idx, [step]) == FoldRanges(r, idx + 1, []);
  }

  /** A single step marked START and END for its block yields start == end. */
  lemma {:induction false} DoubleMarkedStep(currentStepIdx: int, step: Step, b: Block)
    requires step.indicators == [BlockIndicator(b, START), BlockIndicator(b, END)]
    ensures BlockRanges(currentStepIdx, [step]) == map[b := BlockRange(b, currentStepIdx, currentStepIdx)]
  {
    FoldDoubleMarked(map[], currentStepIdx, step, b);
  }

  /** Steps without indicators are skipped. */
  lemma {:induction false} FoldRangesSkipsBare(ranges: map<Block, BlockRange>, idx: int, steps: seq<Step>)
    requires Bare(steps)
    ensures FoldRanges(ranges, idx, steps) == ranges
    decreases |steps|
  {
    if steps != [] {
      FoldRangesSkipsBare(ranges, idx + 1, steps[1..]);
    }
  }

  /** Folding a concatenation folds the second part from where the first left off. */
  lemma {:induction false} FoldRangesAppend(ranges: map<Block, BlockRange>, idx: int, s: seq<Step>, t: seq<Step>)
    ensures FoldRanges(ranges, idx, s + t) == FoldRanges(FoldRanges(ranges, idx, s), idx + |s|, t)
    decreases |s|
  {
    if s != [] {
      assert (s + t)[0] == s[0];
      assert (s + t)[1..] == s[1..] + t;
      FoldRangesAppend(Absorb(ranges, idx, s[0]), idx + 1, s[1..], t);
    } else {
      assert s + t == t;
    }
  }

  /** A block of two or more steps whose first step carries only START for
      `b`, whose last carries only END for `b`, and whose interior is bare,
      records exactly the range of its first and last index. */
  lemma {:induction false} FoldEdgeMarked(ranges: map<Block, BlockRange>, idx: int, b: Block, marked: seq<Step>)
    requires |marked| >= 2
    requires marked[0].indicators == [BlockIndicator(b, START)]
    requires marked[|marked| - 1].indicators == [BlockIndicator(b, END)]
    requires Bare(marked[1..|marked| - 1])
    requires b !in ranges
    ensures FoldRanges(ranges, idx, marked) == ranges[b := BlockRange(b, idx, idx + |marked| - 1)]
  {
    var n := |marked|;
    var first, middle, last := marked[0], marked[1..n - 1], marked[n - 1];
    var r1 := ranges[b := BlockRange(b, idx, 0)];
    assert marked == [first] + middle + [last];
    FoldOne(ranges, idx, first);
    assert !HasEdge(first.indicators, END);
    assert Absorb(ranges, idx, first) == r1;
    FoldRangesSkipsBare(r1, idx + 1, middle);
    FoldRangesAppend(ranges, idx, [first], middle);
    FoldOne(r1, idx + n - 1, last);
    assert !HasEdge(last.indicators, START);
    FoldRangesAppend(ranges, idx, [first] + middle, [last]);
  }

  /** Folding a single step is absorbing it. */
  lemma {:induction false} FoldOne(ranges: map<Block, BlockRange>, idx: int, step: Step)
    ensures FoldRanges(ranges, idx, [step]) == Absorb(ranges, idx, step)
  {
    assert [step][1..] == [];
  }

  /** One decorated block records exactly its own range. */
  lemma {:induction false} FoldMarkedBlock(ranges: map<Block, BlockRange>, idx: int, b: Block, marked: seq<Step>)
    requires MarkedBlock(b, marked)
    requires b !in ranges
    ensures FoldRanges(ranges, idx, marked) == WithBlock(ranges, idx, b, |marked|)
  {
    if |marked| == 1 {
      assert marked == [marked[0]];
      FoldDoubleMarked(ranges, idx, marked[0], b);
    } else if |marked| >= 2 {
      FoldEdgeMarked(ranges, idx, b, marked);
    }
  }

  /** The input steps carry no indicators yet. */
  predicate AllClean(stepsMap: StepsMap) {
    && Clean(StepsOf(stepsMap, MAIN))
    && Clean(StepsOf(stepsMap, GENERAL_ERROR))
    && Clean(StepsOf(stepsMap, FINALLY))
  }

  /** Where a block's steps begin in the flattened list: after the steps of
      every block before it in the declared order. */
  function Offset(stepsMap: StepsMap, b: Block): nat {
    var m, g, f := |StepsOf(stepsMap, MAIN)|, |StepsOf(stepsMap, GENERAL_ERROR)|, |StepsOf(stepsMap, FINALLY)|;
    match b
    case MAIN => 0
    case GENERAL_ERROR => m
    case FINALLY => m + g
    case _ => m + g + f
  }

  /** A block's part of three concatenated parts, found at its offset. */
  lemma {:induction false} SliceOfPart<T>(flat: seq<T>, m: seq<T>, g: seq<T>, f: seq<T>, off: nat, part: seq<T>)
    requires flat == m + g + f
    requires (off == 0 && part == m) || (off == |m| && part == g) || (off == |m| + |g| && part == f)
    ensures off + |part| <= |flat| && flat[off..off + |part|] == part
  {
    if off == 0 && part == m {
      assert flat[..|m|] == m;
    } else if off == |m| && part == g {
      assert flat[|m|..|m| + |g|] == g;
    } else {
      assert flat[|m| + |g|..] == f;
    }
  }

  /** Each execution block's decorated steps sit at [Offset, Offset + count)
      of the flattened list. */
  lemma {:induction false} OrderedStepsBlockSlice(stepsMap: StepsMap, b: Block)
    requires IsExecutionBlock(b)
    ensures var flat := OrderedSteps(stepsMap);
      && Offset(stepsMap, b) + |StepsOf(stepsMap, b)| <= |flat|
      && flat[Offset(stepsMap, b)..Offset(stepsMap, b) + |StepsOf(stepsMap, b)|] == MarkEdges(b, StepsOf(stepsMap, b))
  {
    var sm, sg, sf := StepsOf(stepsMap, MAIN), StepsOf(stepsMap, GENERAL_ERROR), StepsOf(stepsMap, FINALLY);
    var m, g, f := MarkEdges(MAIN, sm), MarkEdges(GENERAL_ERROR, sg), MarkEdges(FINALLY, sf);
    assert |m| == |sm| && |g| == |sg| && |f| == |sf|;
    var flat := OrderedSteps(stepsMap);
    assert flat == m + g + f;
    if b == MAIN {
      SliceOfPart(flat, m, g, f, 0, m);
    } else if b == GENERAL_ERROR {
      SliceOfPart(flat, m, g, f, |m|, g);
    } else {
      SliceOfPart(flat, m, g, f, |m| + |g|, f);
    }
  }

  /** The ranges a decorated workflow should carry, built block by block. */
  function ExpectedRanges(k: int, stepsMap: StepsMap): map<Block, BlockRange> {
    Layout(k, |StepsOf(stepsMap, MAIN)|, |StepsOf(stepsMap, GENERAL_ERROR)|, |StepsOf(stepsMap, FINALLY)|)
  }

  /** The ranges of MAIN, GENERAL_ERROR and FINALLY blocks of the given
      lengths laid end to end from index k; an empty block has no range. */
  function Layout(k: int, nm: nat, ng: nat, nf: nat): map<Block, BlockRange> {
    WithBlock(WithBlock(WithBlock(map[], k, MAIN, nm), k + nm, GENERAL_ERROR, ng), k + nm + ng, FINALLY, nf)
  }

  /** A decorated block, folded onto ranges that do not hold its block yet. */
  function WithBlock(ranges: map<Block, BlockRange>, idx: int, b: Block, count: nat): map<Block, BlockRange> {
    if count == 0 then ranges else ranges[b := BlockRange(b, idx, idx + count - 1)]
  }

  /** Two decorated blocks, MAIN then GENERAL_ERROR, folded one after the
      other, record one range per non-empty block. */
  lemma {:induction false} FoldTwoBlocks(k: int, m: seq<Step>, g: seq<Step>)
    requires MarkedBlock(MAIN, m) && MarkedBlock(GENERAL_ERROR, g)
    ensures FoldRanges(map[], k, m + g) == WithBlock(WithBlock(map[], k, MAIN, |m|), k + |m|, GENERAL_ERROR, |g|)
  {
    var r1 := WithBlock(map[], k, MAIN, |m|);
    FoldMarkedBlock(map[], k, MAIN, m);
    FoldMarkedBlock(r1, k + |m|, GENERAL_ERROR, g);
    FoldRangesAppend(map[], k, m, g);
  }

  /** Three decorated blocks, folded one after the other, record one range
      per non-empty block. */
  lemma {:induction false} FoldThreeBlocks(k: int, m: seq<Step>, g: seq<Step>, f: seq<Step>)
    requires MarkedBlock(MAIN, m) && MarkedBlock(GENERAL_ERROR, g) && MarkedBlock(FINALLY, f)
    ensures FoldRanges(map[], k, m + g + f) == Layout(k, |m|, |g|, |f|)
  {
    var r2 := WithBlock(WithBlock(map[], k, MAIN, |m|), k + |m|, GENERAL_ERROR, |g|);
    FoldTwoBlocks(k, m, g);
    FoldMarkedBlock(r2, k + |m| + |g|, FINALLY, f);
    FoldRangesAppend(map[], k, m + g, f);
  }

  /** The fold of a list laid out as three decorated blocks, given their
      lengths. This is FoldThreeBlocks with the lengths passed separately, so
      that its result matches ExpectedRanges term for term. The solver then
      does not have to relate |m|, |g| and |f| to the step lists again. */
  lemma {:induction false} FoldLayout(k: int, flat: seq<Step>, m: seq<Step>, g: seq<Step>, f: seq<Step>,
                                      nm: nat, ng: nat, nf: nat)
    requires flat == m + g + f && |m| == nm && |g| == ng && |f| == nf
    requires MarkedBlock(MAIN, m) && MarkedBlock(GENERAL_ERROR, g) && MarkedBlock(FINALLY, f)
    ensures FoldRanges(map[], k, flat) == Layout(k, nm, ng, nf)
  {
    FoldThreeBlocks(k, m, g, f);
  }

  /** orderedSteps over bare steps is three decorated blocks laid end to end. */
  lemma {:induction false} DecoratedLayout(stepsMap: StepsMap) returns (m: seq<Step>, g: seq<Step>, f: seq<Step>)
    requires AllClean(stepsMap)
    ensures OrderedSteps(stepsMap) == m + g + f
    ensures |m| == |StepsOf(stepsMap, MAIN)| && |g| == |StepsOf(stepsMap, GENERAL_ERROR)| && |f| == |StepsOf(stepsMap, FINALLY)|
    ensures MarkedBlock(MAIN, m) && MarkedBlock(GENERAL_ERROR, g) && MarkedBlock(FINALLY, f)
  {
    var sm, sg, sf := StepsOf(stepsMap, MAIN), StepsOf(stepsMap, GENERAL_ERROR), StepsOf(stepsMap, FINALLY);
    m, g, f := MarkEdges(MAIN, sm), MarkEdges(GENERAL_ERROR, sg), MarkEdges(FINALLY, sf);
    MarkEdgesOfClean(MAIN, sm);
    MarkEdgesOfClean(GENERAL_ERROR, sg);
    MarkEdgesOfClean(FINALLY, sf);
  }

  /** blockRanges of orderedSteps over bare steps is the expected layout. */
  lemma {:induction false} BlockRangesOfOrderedSteps(k: int, stepsMap: StepsMap)
    requires AllClean(stepsMap)
    ensures BlockRanges(k, OrderedSteps(stepsMap)) == ExpectedRanges(k, stepsMap)
  {
    var m, g, f := DecoratedLayout(stepsMap);
    FoldLayout(k, OrderedSteps(stepsMap), m, g, f,
      |StepsOf(stepsMap, MAIN)|, |StepsOf(stepsMap, GENERAL_ERROR)|, |StepsOf(stepsMap, FINALLY)|);
  }

  lemma ExpectedRangesAt(k: int, stepsMap: StepsMap, b: Block)
    ensures var r := ExpectedRanges(k, stepsMap);
      && (b in r <==> IsExecutionBlock(b) && |StepsOf(stepsMap, b)| > 0)
      && (b in r ==> r[b] == BlockRange(b, k + Offset(stepsMap, b), k + Offset(stepsMap, b) + |StepsOf(stepsMap, b)| - 1))
  {
  }

  /** Round trip: the ranges recovered from orderedSteps hold exactly one
      range per non-empty execution block, spanning the base plus the first
      and last positions of that block's steps. */
  lemma {:induction false} RangesOfOrderedSteps(k: int, stepsMap: StepsMap, b: Block)
    requires AllClean(stepsMap)
    ensures var r := BlockRanges(k, OrderedSteps(stepsMap));
      && (b in r <==> IsExecutionBlock(b) && |StepsOf(stepsMap, b)| > 0)
      && (b in r ==> r[b] == BlockRange(b, k + Offset(stepsMap, b), k + Offset(stepsMap, b) + |StepsOf(stepsMap, b)| - 1))
  {
    BlockRangesOfOrderedSteps(k, stepsMap);
    ExpectedRangesAt(k, stepsMap, b);
  }
}
