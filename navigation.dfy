/** Navigation: the older queue-style walk over a workflow, where the head
    of the step list is the next step and finished steps move, by name, to
    the completed list. */
module Navigation {
  import opened Wrappers
  import opened Model
  import opened Builders
  import opened PlatformMessageUtils

  /** hasMoreSteps: the step queue is not empty. */
  function HasMoreSteps(workflow: PlatformWorkflow): (r: bool)
    ensures r <==> |workflow.steps| > 0
  {
    workflow.steps != []
  }

  /** The names of `steps`, in order. */
  function Names(steps: seq<Step>): (r: seq<string>)
    ensures |r| == |steps|
    ensures forall i :: 0 <= i < |steps| ==> r[i] == steps[i].name
  {
    seq(|steps|, i requires 0 <= i < |steps| => steps[i].name)
  }

  /** The workflow after one pop: the head step leaves the queue and its
      name joins the completed list; an empty queue stays as it is. */
  function Popped(workflow: PlatformWorkflow): PlatformWorkflow {
    if workflow.steps == [] then workflow
    else workflow.(
      steps := workflow.steps[1..],
      completedSteps := workflow.completedSteps + [workflow.steps[0].name])
  }

  /** updateWorkflow: on a builder copied from `orig`, adds the first step's
      name to the completed steps and removes that step, when there is one.
      The completed names followed by the names still queued are the same
      list before and after, and the tracker is untouched. */
  method UpdateWorkflow(orig: PlatformWorkflow) returns (r: PlatformWorkflow)
    ensures r == Popped(orig)
    ensures !HasMoreSteps(orig) ==> r == orig
    ensures HasMoreSteps(orig) ==> |r.steps| == |orig.steps| - 1
    ensures r.completedSteps + Names(r.steps) == orig.completedSteps + Names(orig.steps)
    ensures r.tracker == orig.tracker
  {
    var builder := new PlatformWorkflowBuilder.From(orig);
    if HasMoreSteps(orig) {
      builder.AddCompletedSteps(orig.steps[0].name);
      builder.RemoveSteps(0);
    }
    r := builder.Build();
    PoppedKeepsNames(orig);
  }

  /** One pop moves a name from the front of the queue to the end of the
      completed list. */
  lemma PoppedKeepsNames(workflow: PlatformWorkflow)
    ensures Popped(workflow).completedSteps + Names(Popped(workflow).steps)
         == workflow.completedSteps + Names(workflow.steps)
  {
    if workflow.steps != [] {
      var names := Names(workflow.steps);
      assert names == [names[0]] + names[1..];
      assert Names(workflow.steps[1..]) == names[1..];
    }
  }

  /** The workflow after `n` pops. */
  function PopTimes(workflow: PlatformWorkflow, n: nat): PlatformWorkflow
    decreases n
  {
    if n == 0 then workflow else PopTimes(Popped(workflow), n - 1)
  }

  /** Popping as many times as there are steps empties the queue and leaves
      every step's name, in order, after the names completed before. */
  lemma {:induction false} PopAll(workflow: PlatformWorkflow)
    ensures var done := PopTimes(workflow, |workflow.steps|);
      && done.steps == []
      && done.completedSteps == workflow.completedSteps + Names(workflow.steps)
      && done.tracker == workflow.tracker
    decreases |workflow.steps|
  {
    if workflow.steps != [] {
      PopAll(Popped(workflow));
      PoppedKeepsNames(workflow);
    }
  }

  /** maybeStepAddress: the address of the head step, if the queue has one. */
  function MaybeStepAddress(message: PlatformMessage): (r: Option<string>)
    ensures r.None? <==> !HasMoreSteps(message.workflowLog)
    ensures r.Some? ==> r.value == message.workflowLog.steps[0].address
  {
    if message.workflowLog.steps == [] then None
    else Some(message.workflowLog.steps[0].address)
  }

  /** With the tracker at index 0, the queue-style lookup and the
      tracker-based lookup give the same address. */
  lemma StepAddressAtStart(message: PlatformMessage)
    requires message.workflowLog.tracker.currentStep == 0
    ensures MaybeStepAddress(message) == MaybeCurrentAddress(message)
  {
  }
}
