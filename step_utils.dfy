/** Decoration of one block's steps with START/END indicators
    (StepUtils.markEdges and its helpers). */
module StepUtils {
  import opened Model

  /** The indicators for `edges`, all of them for block `blockType`, in order. */
  function Indicators(blockType: Block, edges: seq<Edge>): (r: seq<BlockIndicator>)
    ensures |r| == |edges|
    ensures forall j :: 0 <= j < |edges| ==> r[j].blockType == blockType && r[j].edge == edges[j]
  {
    seq(|edges|, j requires 0 <= j < |edges| => BlockIndicator(blockType, edges[j]))
  }

  /** Name, address and attributes are kept, and the old indicators are a
      prefix of the new ones. */
  predicate Extends(decorated: Step, step: Step) {
    && decorated.name == step.name
    && decorated.address == step.address
    && decorated.attributes == step.attributes
    && |step.indicators| <= |decorated.indicators|
    && decorated.indicators[..|step.indicators|] == step.indicators
  }

  /** A copy of `step` with one indicator per edge appended after the ones it
      already has. */
  function BlockDecoration(step: Step, blockType: Block, edges: seq<Edge>): (r: Step)
    ensures Extends(r, step)
    ensures |r.indicators| == |step.indicators| + |edges|
  {
    step.(indicators := step.indicators + Indicators(blockType, edges))
  }

  /** The appended indicators are exactly one per edge, for `blockType`. */
  lemma BlockDecorationAppends(step: Step, blockType: Block, edges: seq<Edge>)
    ensures var r := BlockDecoration(step, blockType, edges);
      forall j :: 0 <= j < |edges| ==>
        r.indicators[|step.indicators| + j] == BlockIndicator(blockType, edges[j])
  {
  }

  /** markEdges: the first step gets START, the last gets END, a lone step
      gets both (START first); interior steps are returned as they are. */
  function MarkEdges(blockType: Block, input: seq<Step>): (r: seq<Step>)
    ensures |r| == |input|
  {
    if |input| == 0 then []
    else if |input| == 1 then [BlockDecoration(input[0], blockType, [START, END])]
    else
      var firstStep := BlockDecoration(input[0], blockType, [START]);
      var lastStep := BlockDecoration(input[|input| - 1], blockType, [END]);
      if |input| == 2 then [firstStep, lastStep]
      else [firstStep] + input[1..|input| - 1] + [lastStep]
  }

  /** Every decorated step keeps the fields of the step it came from, and
      that step's indicators as a prefix of its own. */
  lemma {:induction false} MarkEdgesExtends(blockType: Block, input: seq<Step>)
    ensures var r := MarkEdges(blockType, input);
      forall i :: 0 <= i < |input| ==> Extends(r[i], input[i])
  {
    var r, n := MarkEdges(blockType, input), |input|;
    forall i | 0 <= i < n
      ensures Extends(r[i], input[i])
    {
      if 0 < i < n - 1 {
        MarkEdgesInterior(blockType, input);
      }
    }
  }

  /** Interior steps of a block are returned as they are. */
  lemma {:induction false} MarkEdgesInterior(blockType: Block, input: seq<Step>)
    ensures var r := MarkEdges(blockType, input);
      forall i :: 0 < i < |input| - 1 ==> r[i] == input[i]
  {
    var r, n := MarkEdges(blockType, input), |input|;
    if n >= 3 {
      assert r[1..n - 1] == input[1..n - 1];
      forall i | 0 < i < n - 1
        ensures r[i] == input[i]
      {
        assert r[i] == r[1..n - 1][i - 1];
      }
    }
  }

  /** A lone step gains START then END; otherwise the first step gains START
      and the last gains END. */
  lemma {:induction false} MarkEdgesEnds(blockType: Block, input: seq<Step>)
    ensures var r := MarkEdges(blockType, input);
      && (|input| == 1 ==>
        r[0].indicators == input[0].indicators + [BlockIndicator(blockType, START), BlockIndicator(blockType, END)])
      && (|input| >= 2 ==>
        && r[0].indicators == input[0].indicators + [BlockIndicator(blockType, START)]
        && r[|r| - 1].indicators == input[|input| - 1].indicators + [BlockIndicator(blockType, END)])
  {
    var n := |input|;
    if n == 1 {
      BlockDecorationAppends(input[0], blockType, [START, END]);
    } else if n >= 2 {
      BlockDecorationAppends(input[0], blockType, [START]);
      BlockDecorationAppends(input[n - 1], blockType, [END]);
    }
  }

  /** What markEdges does to each step: every step keeps its fields and its
      indicators as a prefix, interior steps are untouched, a lone step gains
      START then END, otherwise the first gains START and the last END. */
  lemma {:induction false} MarkEdgesShape(blockType: Block, input: seq<Step>)
    ensures var r := MarkEdges(blockType, input);
      && (forall i :: 0 <= i < |input| ==> Extends(r[i], input[i]))
      && (forall i :: 0 < i < |input| - 1 ==> r[i] == input[i])
      && (|input| == 1 ==>
        r[0].indicators == input[0].indicators + [BlockIndicator(blockType, START), BlockIndicator(blockType, END)])
      && (|input| >= 2 ==>
        && r[0].indicators == input[0].indicators + [BlockIndicator(blockType, START)]
        && r[|r| - 1].indicators == input[|input| - 1].indicators + [BlockIndicator(blockType, END)])
  {
    MarkEdgesExtends(blockType, input);
    MarkEdgesInterior(blockType, input);
    MarkEdgesEnds(blockType, input);
  }

  /** No step carries an indicator yet. */
  predicate Clean(steps: seq<Step>) {
    forall i :: 0 <= i < |steps| ==> steps[i].indicators == []
  }

  /** No step carries an indicator, stated step by step from the front.
      It says what Clean says (CleanIsBare). The fold over the steps is
      recursive too, so proofs about the fold use this form. */
  predicate Bare(steps: seq<Step>)
    decreases |steps|
  {
    steps == [] || (steps[0].indicators == [] && Bare(steps[1..]))
  }

  lemma {:induction false} CleanIsBare(steps: seq<Step>)
    requires Clean(steps)
    ensures Bare(steps)
    decreases |steps|
  {
    if steps != [] {
      assert Clean(steps[1..]) by {
        forall i | 0 <= i < |steps[1..]| ensures steps[1..][i].indicators == [] {
          assert steps[1..][i] == steps[i + 1];
        }
      }
      CleanIsBare(steps[1..]);
    }
  }

  /** A decorated block of bare steps: a lone step carries START then END
      for `blockType`, otherwise the first carries only START, the last only
      END, and the steps in between carry nothing. */
  predicate MarkedBlock(blockType: Block, steps: seq<Step>) {
    && (|steps| == 1 ==> steps[0].indicators == [BlockIndicator(blockType, START), BlockIndicator(blockType, END)])
    && (|steps| >= 2 ==>
      && steps[0].indicators == [BlockIndicator(blockType, START)]
      && steps[|steps| - 1].indicators == [BlockIndicator(blockType, END)]
      && Bare(steps[1..|steps| - 1]))
  }

  /** On steps without indicators, markEdges leaves exactly the block markers. */
  lemma {:induction false} MarkEdgesOfClean(blockType: Block, input: seq<Step>)
    requires Clean(input)
    ensures MarkedBlock(blockType, MarkEdges(blockType, input))
  {
    MarkEdgesShape(blockType, input);
    if |input| >= 1 {
      assert input[0].indicators == [];
      assert input[|input| - 1].indicators == [];
    }
    if |input| >= 2 {
      var r, n := MarkEdges(blockType, input), |input|;
      var interior := input[1..n - 1];
      assert r[1..n - 1] == interior;
      assert Clean(interior) by {
        forall i | 0 <= i < |interior| ensures interior[i].indicators == [] {
          assert interior[i] == input[i + 1];
        }
      }
      CleanIsBare(interior);
    }
  }
}
