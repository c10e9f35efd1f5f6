/** PlatformMessageUtils: the message after a process outcome, and the
    lookups of the current step and of the input of the next process. */
module PlatformMessageUtils {
  import opened Wrappers
  import opened Model
  import opened Builders
  import opened PlatformWorkflowUtils

  /** The payloads a success contributes: its output payload, if it has one. */
  function SuccessPayloads(success: ProcessOutcomeSuccess): (r: seq<Payload>)
    ensures |r| <= 1
    ensures r == [] <==> success.outputPayload.None?
    ensures r != [] ==> r[0] == success.outputPayload.value
  {
    match success.outputPayload
    case Some(p) => [p]
    case None => []
  }

  /** Headers after a success: every existing entry is kept as it is, and
      the incoming entries are added only for keys not already present. */
  function MergeHeaders(existing: map<string, string>, incoming: map<string, string>): (r: map<string, string>)
    ensures r.Keys == existing.Keys + incoming.Keys
    ensures forall k :: k in existing ==> r[k] == existing[k]
    ensures forall k :: k in incoming && k !in existing ==> r[k] == incoming[k]
  {
    map k | k in existing.Keys + incoming.Keys :: if k in existing then existing[k] else incoming[k]
  }

  /** The incoming entries whose keys are not in `existing`. */
  function NewEntries(existing: map<string, string>, incoming: map<string, string>): map<string, string> {
    map k | k in incoming && k !in existing :: incoming[k]
  }

  /** `payloads.forEach(builder::addPayloads)`. */
  method AddAllPayloads(builder: PlatformMessageBuilder, payloads: seq<Payload>)
    modifies builder
    ensures builder.Build() == old(builder.Build()).(payloads := old(builder.payloads) + payloads)
  {
    for i := 0 to |payloads|
      invariant builder.Build() == old(builder.Build()).(payloads := old(builder.payloads) + payloads[..i])
    {
      builder.AddPayloads(payloads[i]);
      assert payloads[..i + 1] == payloads[..i] + [payloads[i]];
    }
    assert payloads[..|payloads|] == payloads;
  }

  /** `entries.forEach(builder::putHeaders)`: puts every entry, in some
      order; the builder's headers end up extended by `entries`. */
  method PutAllHeaders(builder: PlatformMessageBuilder, entries: map<string, string>)
    modifies builder
    ensures builder.Build() == old(builder.Build()).(headers := old(builder.headers) + entries)
  {
    var start := builder.headers;
    var pending := entries.Keys;
    ghost var done: set<string> := {};
    while pending != {}
      invariant done + pending == entries.Keys && done !! pending
      invariant builder.headers == start + Restrict(entries, done)
      invariant builder.payloads == old(builder.payloads) && builder.workflowLog == old(builder.workflowLog)
      decreases |pending|
    {
      var key :| key in pending;
      builder.PutHeaders(key, entries[key]);
      RestrictGrows(start, entries, done, key);
      done := done + {key};
      pending := pending - {key};
    }
    RestrictAll(entries, done);
  }

  /** The entries of `m` whose keys are in `keys`. */
  function Restrict(m: map<string, string>, keys: set<string>): map<string, string> {
    map k | k in m && k in keys :: m[k]
  }

  lemma RestrictAll(m: map<string, string>, keys: set<string>)
    requires keys == m.Keys
    ensures Restrict(m, keys) == m
  {
  }

  /** Putting one more entry of `m` after a union extends the restriction. */
  lemma RestrictGrows(left: map<string, string>, m: map<string, string>, keys: set<string>, key: string)
    requires key in m
    ensures (left + Restrict(m, keys))[key := m[key]] == left + Restrict(m, keys + {key})
  {
  }

  /** The filtered forEach of handleSuccess: puts every incoming entry whose
      key the builder does not hold yet. */
  method PutAbsentHeaders(builder: PlatformMessageBuilder, incoming: map<string, string>)
    modifies builder
    ensures builder.Build() == old(builder.Build()).(headers := MergeHeaders(old(builder.headers), incoming))
  {
    PutAllHeaders(builder, NewEntries(builder.headers, incoming));
    MergeHeadersAddsNewEntries(old(builder.headers), incoming);
  }

  /** Merging is the existing map extended by the entries for new keys. */
  lemma MergeHeadersAddsNewEntries(existing: map<string, string>, incoming: map<string, string>)
    ensures MergeHeaders(existing, incoming) == existing + NewEntries(existing, incoming)
  {
  }

  /** handleSuccess: appends the success payloads, then puts each new header
      entry, and builds the message. */
  method HandleSuccess(builder: PlatformMessageBuilder, success: ProcessOutcomeSuccess) returns (r: PlatformMessage)
    modifies builder
    ensures r == builder.Build()
    ensures r == old(builder.Build()).(
      payloads := old(builder.payloads) + SuccessPayloads(success),
      headers := MergeHeaders(old(builder.headers), success.headers))
  {
    AddAllPayloads(builder, SuccessPayloads(success));
    PutAbsentHeaders(builder, success.headers);
    r := builder.Build();
  }

  /** appendOutcome: the workflow gets the tracker updateTracker computes and
      keeps its steps; a success appends its payload and its new headers, a
      failure leaves payloads and headers alone. It fails exactly when
      updateTracker does, with the same error. */
  method AppendOutcome(message: PlatformMessage, outcome: ProcessOutcome) returns (r: Result<PlatformMessage, Error>)
    ensures r.Err? <==> UpdateTracker(message.workflowLog, outcome).Err?
    ensures r.Err? ==> r.error == UpdateTracker(message.workflowLog, outcome).error
    ensures r.Ok? ==>
      && r.value.workflowLog.steps == message.workflowLog.steps
      && r.value.workflowLog.completedSteps == message.workflowLog.completedSteps
      && r.value.workflowLog.tracker == UpdateTracker(message.workflowLog, outcome).value
    ensures r.Ok? && outcome.SuccessCase? ==>
      && r.value.payloads == message.payloads + SuccessPayloads(outcome.success)
      && r.value.headers == MergeHeaders(message.headers, outcome.success.headers)
    ensures r.Ok? && outcome.FailureCase? ==>
      r.value.payloads == message.payloads && r.value.headers == message.headers
  {
    var newTracker := UpdateTracker(message.workflowLog, outcome);
    if newTracker.Err? {
      return Err(newTracker.error);
    }
    var workflowBuilder := new PlatformWorkflowBuilder.From(message.workflowLog);
    workflowBuilder.SetTracker(newTracker.value);
    var newWorkflow := workflowBuilder.Build();

    var builder := new PlatformMessageBuilder.From(message);
    builder.SetWorkflowLog(newWorkflow);

    match outcome
    case SuccessCase(success) =>
      var built := HandleSuccess(builder, success);
      r := Ok(built);
    case FailureCase(_) =>
      r := Ok(builder.Build());
    case OutcomeNotSet =>
      r := Err(IllegalState);
  }

  /** processInput: the last payload and the attributes of the first step;
      either list being empty makes getLast/getFirst throw. */
  function ProcessInputOf(message: PlatformMessage): (r: Result<ProcessInput, Error>)
    ensures r.Err? <==> message.payloads == [] || message.workflowLog.steps == []
    ensures r.Err? ==> r.error == NoSuchElement
    ensures r.Ok? ==>
      && r.value.payloads == [message.payloads[|message.payloads| - 1]]
      && r.value.attributes == message.workflowLog.steps[0].attributes
  {
    if message.payloads == [] || message.workflowLog.steps == [] then Err(NoSuchElement)
    else Ok(ProcessInput([message.payloads[|message.payloads| - 1]], message.workflowLog.steps[0].attributes))
  }

  /** currentStep: the step at the tracker's index, or the out-of-bounds
      error List.get raises. */
  function CurrentStep(message: PlatformMessage): (r: Result<Step, Error>)
    ensures var idx, steps := message.workflowLog.tracker.currentStep, message.workflowLog.steps;
      && (r.Ok? <==> 0 <= idx < |steps|)
      && (r.Ok? ==> r.value == steps[idx])
      && (r.Err? ==> r.error == IndexOutOfBounds(idx, |steps|))
  {
    var idx, steps := message.workflowLog.tracker.currentStep, message.workflowLog.steps;
    if 0 <= idx < |steps| then Ok(steps[idx]) else Err(IndexOutOfBounds(idx, |steps|))
  }

  /** maybeCurrentAddress: the address of the step at the tracker's index,
      or nothing when the index is outside the list. */
  function MaybeCurrentAddress(message: PlatformMessage): (r: Option<string>)
    ensures var idx, steps := message.workflowLog.tracker.currentStep, message.workflowLog.steps;
      && (r.Some? <==> 0 <= idx < |steps|)
      && (r.Some? ==> r.value == steps[idx].address)
  {
    var idx, steps := message.workflowLog.tracker.currentStep, message.workflowLog.steps;
    if 0 <= idx < |steps| then Some(steps[idx].address) else None
  }

  /** The two lookups agree: the address is present exactly when the step is,
      and it is that step's address. */
  lemma CurrentAddressOfCurrentStep(message: PlatformMessage)
    ensures MaybeCurrentAddress(message).Some? <==> CurrentStep(message).Ok?
    ensures CurrentStep(message).Ok? ==>
      MaybeCurrentAddress(message) == Some(CurrentStep(message).value.address)
  {
  }
}
