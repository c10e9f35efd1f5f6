/** The protobuf builders the message utilities change in place: a builder
    starts as a copy of a message, its setters and adders update its fields,
    and Build takes a snapshot of them. */
module Builders {
  import opened Model

  class PlatformWorkflowBuilder {
    var steps: seq<Step>
    var completedSteps: seq<string>
    var tracker: Tracker

    /** PlatformWorkflow.newBuilder(w): a builder holding a copy of `w`. */
    constructor From(w: PlatformWorkflow)
      ensures Build() == w
    {
      steps := w.steps;
      completedSteps := w.completedSteps;
      tracker := w.tracker;
    }

    /** The message holding the builder's current fields. */
    function Build(): PlatformWorkflow
      reads this
    {
      PlatformWorkflow(steps, completedSteps, tracker)
    }

    method SetTracker(t: Tracker)
      modifies this
      ensures Build() == old(Build()).(tracker := t)
    {
      tracker := t;
    }

    /** Appends one name to the repeated field completed_steps. */
    method AddCompletedSteps(name: string)
      modifies this
      ensures Build() == old(Build()).(completedSteps := old(completedSteps) + [name])
    {
      completedSteps := completedSteps + [name];
    }

    /** Removes the element at `index` of the repeated field steps; the
        generated code throws for an index outside the list. */
    method RemoveSteps(index: int)
      requires 0 <= index < |steps|
      modifies this
      ensures Build() == old(Build()).(steps := old(steps[..index] + steps[index + 1..]))
    {
      steps := steps[..index] + steps[index + 1..];
    }
  }

  class PlatformMessageBuilder {
    var payloads: seq<Payload>
    var headers: map<string, string>
    var workflowLog: PlatformWorkflow

    /** PlatformMessage.newBuilder(m): a builder holding a copy of `m`. */
    constructor From(m: PlatformMessage)
      ensures Build() == m
    {
      payloads := m.payloads;
      headers := m.headers;
      workflowLog := m.workflowLog;
    }

    function Build(): PlatformMessage
      reads this
    {
      PlatformMessage(payloads, headers, workflowLog)
    }

    method SetWorkflowLog(w: PlatformWorkflow)
      modifies this
      ensures Build() == old(Build()).(workflowLog := w)
    {
      workflowLog := w;
    }

    /** Appends one payload to the repeated field payloads. */
    method AddPayloads(p: Payload)
      modifies this
      ensures Build() == old(Build()).(payloads := old(payloads) + [p])
    {
      payloads := payloads + [p];
    }

    /** Puts one entry into the map field headers, replacing any value the
        key had. */
    method PutHeaders(key: string, value: string)
      modifies this
      ensures Build() == old(Build()).(headers := old(headers)[key := value])
    {
      headers := headers[key := value];
    }
  }
}
