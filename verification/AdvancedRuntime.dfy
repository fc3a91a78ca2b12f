/** One Advanced attempt (workbench/advanced_runtime.py): the chat relay under a frame
    classifier, refined into one of seven states, with the durable lifecycle record
    kept along the way - once by a blocking runner, once by a streaming one. */
module AdvancedRuntime {
  import opened Outcomes
  import M = ConversationModels
  import opened ChatStream
  import L = ResponseLifecycle

  datatype AdvancedState =
    | CompleteState | StreamedState | CancelledState | TimedOutState
    | SchemaInvalidState | MalformedStreamState | UnavailableState

  datatype TraceStatus = TraceComplete | TraceCancelled | TraceTimedOut | TraceFailed | TraceUnavailable
  datatype WireOutcome = WireCompleted | WireCancelled | WireTimedOut | WireFailed | WireUnavailable

  function TurnStatusFor(s: AdvancedState): M.TurnStatus
  {
    match s
    case CompleteState | StreamedState => M.Complete
    case CancelledState => M.TurnStatus.Cancelled
    case TimedOutState => M.TurnStatus.Interrupted
    case SchemaInvalidState | MalformedStreamState | UnavailableState => M.Failed
  }

  function TraceStatusFor(s: AdvancedState): TraceStatus
  {
    match s
    case CompleteState | StreamedState => TraceComplete
    case CancelledState => TraceCancelled
    case TimedOutState => TraceTimedOut
    case SchemaInvalidState | MalformedStreamState => TraceFailed
    case UnavailableState => TraceUnavailable
  }

  function LifecycleFor(s: AdvancedState): L.LifecycleState
  {
    match s
    case CompleteState | StreamedState => L.LifecycleState.Completed
    case CancelledState => L.LifecycleState.Cancelled
    case TimedOutState => L.LifecycleState.TimedOut
    case SchemaInvalidState | MalformedStreamState | UnavailableState => L.LifecycleState.Interrupted
  }

  function WireFor(s: AdvancedState): WireOutcome
  {
    match s
    case CompleteState | StreamedState => WireCompleted
    case CancelledState => WireCancelled
    case TimedOutState => WireTimedOut
    case SchemaInvalidState => WireFailed
    case MalformedStreamState | UnavailableState => WireUnavailable
  }

  // -- the classifying transport ------------------------------------------------

  predicate Malformed(r: Read) { r.Yields? && r.frame.NotAMapping? }

  /** The wrapper raises on a frame that is not a mapping and passes everything else. */
  function Classified(script: Script): Script
  {
    (i: nat) => if Malformed(script(i)) then RaisesUnavailable else script(i)
  }

  /** It remembers whether it ever raised: whether such a frame was read. */
  predicate SawMalformed(script: Script, pulled: nat)
  {
    exists i | 0 <= i < pulled :: Malformed(script(i))
  }

  // -- settlement ------------------------------------------------------------------

  /** One attempt's inputs.  A refused request is one that cannot be built: an output mode
      that is not known, or a prompt or instructions out of bounds.  A `None` verdict is a
      validator that raises; a refused trace is a record that fails its schema check. */
  datatype Attempt = Attempt(requestRefused: bool, script: Script, cancel: Schedule, jsonSchema: bool, validator: string -> Option<bool>,
                             traceRefused: bool, usage: Option<L.SafeUsage>, durationMs: nat)

  datatype AdvancedResult = AdvancedResult(
    state: AdvancedState, turnStatus: M.TurnStatus, lifecycle: L.LifecycleState, text: string, streamed: bool,
    valid: Option<bool>, usage: L.SafeUsage, trace: TraceStatus)

  datatype AttemptError = RequestRefused | LifecycleRefused(error: L.LifecycleError) | ValidatorRaised | TraceRefused

  function ClassifyState(outcome: StreamOutcome, sawMalformed: bool): AdvancedState
  {
    match outcome
    case Completed => CompleteState
    case Cancelled => CancelledState
    case TimedOut => TimedOutState
    case ServingUnavailable => if sawMalformed then MalformedStreamState else UnavailableState
  }

  function Min(a: nat, b: nat): nat { if a <= b then a else b }

  function UsageOf(a: Attempt, reported: Option<(nat, nat)>): L.SafeUsage
  {
    if a.usage.Some? then a.usage.value
    else
      var tokens := if reported.Some? then reported.value else (0, 0);
      L.SafeUsage(Min(tokens.0, L.MAX_USAGE_TOKENS), Min(tokens.1, L.MAX_USAGE_TOKENS),
                  Some(Min(a.durationMs, L.MAX_USAGE_DURATION_MS)))
  }

  /** Whether the structured-output validator is consulted, and what it says. */
  function Verdict(a: Attempt, d: Relayed): Option<Option<bool>>
  {
    if d.outcome == Completed && a.jsonSchema then Some(a.validator(d.text)) else None
  }

  function SettledState(a: Attempt, d: Relayed, sawMalformed: bool): AdvancedState
  {
    var state := ClassifyState(d.outcome, sawMalformed);
    if state != CompleteState then state
    else if Verdict(a, d) == Some(Some(false)) then SchemaInvalidState
    else if DeltaCount(d.events, |d.events|) > 0 then StreamedState else CompleteState
  }

  function DeltaCount(events: seq<RelayEvent>, n: nat): nat
    requires n <= |events|
  {
    if n == 0 then 0 else DeltaCount(events, n - 1) + if events[n - 1].Delta? then 1 else 0
  }

  function ResultFor(a: Attempt, d: Relayed, sawMalformed: bool): AdvancedResult
  {
    var state := SettledState(a, d, sawMalformed);
    AdvancedResult(state, TurnStatusFor(state), LifecycleFor(state), d.text, DeltaCount(d.events, |d.events|) > 0,
                   if Verdict(a, d).Some? then Verdict(a, d).value else None,
                   UsageOf(a, d.usage), TraceStatusFor(state))
  }

  /** What the attempt gives when nothing in the lifecycle store refuses it. */
  function Alone(a: Attempt): Result<AdvancedResult, AttemptError>
  {
    var d := Drained(Classified(a.script), a.cancel);
    if a.requestRefused then Err(RequestRefused)
    else if Verdict(a, d) == Some(None) then Err(ValidatorRaised)
    else if a.traceRefused then Err(TraceRefused)
    else Ok(ResultFor(a, d, SawMalformed(a.script, d.pulled)))
  }

  // -- the durable side -----------------------------------------------------------------

  datatype Pumped = Pumped(rows: L.LifecycleRows, status: Result<nat, L.LifecycleError>)

  /** A sequence number drawn for each of the first `n` events, and every delta's
      number committed; the last number drawn is the one the terminal will commit. */
  function Pump(rows: L.LifecycleRows, actor: M.Actor, requestId: string, events: seq<RelayEvent>, n: nat): Pumped
    requires n <= |events|
  {
    if n == 0 then Pumped(rows, Ok(0))
    else
      var before := Pump(rows, actor, requestId, events, n - 1);
      if before.status.Err? then before else PumpOne(before.rows, actor, requestId, events[n - 1])
  }

  function PumpOne(rows: L.LifecycleRows, actor: M.Actor, requestId: string, event: RelayEvent): Pumped
  {
    var drawn := L.NextSeq(rows, actor, requestId);
    if drawn.Err? then Pumped(rows, Err(drawn.error))
    else if event.Terminal? then Pumped(drawn.value.0, Ok(drawn.value.1))
    else
      var committed := L.Advance(drawn.value.0, actor, requestId, L.InProgress, None, Some(drawn.value.1));
      if committed.Err? then Pumped(drawn.value.0, Err(committed.error)) else Pumped(committed.value, Ok(drawn.value.1))
  }

  datatype Ran = Ran(rows: L.LifecycleRows, result: Result<AdvancedResult, AttemptError>)

  /** Commit the refined terminal, then build the trace. */
  function SettleInto(rows: L.LifecycleRows, actor: M.Actor, requestId: string, a: Attempt, d: Relayed, seqNo: nat): Ran
  {
    var r := ResultFor(a, d, SawMalformed(a.script, d.pulled));
    if Verdict(a, d) == Some(None) then Ran(rows, Err(ValidatorRaised))
    else
      var done := L.Advance(rows, actor, requestId, r.lifecycle, Some(r.usage), Some(seqNo));
      if done.Err? then Ran(rows, Err(LifecycleRefused(done.error)))
      else if a.traceRefused then Ran(done.value, Err(TraceRefused))
      else Ran(done.value, Ok(r))
  }

  function RunsTo(rows: L.LifecycleRows, actor: M.Actor, cid: M.Id, requestId: string, a: Attempt): Ran
  {
    var begun := L.Begin(rows, actor, cid, requestId);
    if a.requestRefused then Ran(rows, Err(RequestRefused))
    else if begun.Err? then Ran(rows, Err(LifecycleRefused(begun.error)))
    else
      var d := Drained(Classified(a.script), a.cancel);
      var pumped := Pump(begun.value, actor, requestId, d.events, |d.events|);
      if pumped.status.Err? then Ran(pumped.rows, Err(LifecycleRefused(pumped.status.error)))
      else SettleInto(pumped.rows, actor, requestId, a, d, pumped.status.value)
  }

  // -- the two runners --------------------------------------------------------------------

  /** Draw a sequence number for one event; a delta also commits it as a heartbeat. */
  method RecordEvent(store: L.MemoryResponseLifecycleStore, actor: M.Actor, requestId: string, event: RelayEvent)
    returns (r: Result<nat, L.LifecycleError>)
    modifies store
    ensures Pumped(store.View(), r) == PumpOne(old(store.View()), actor, requestId, event)
  {
    hide L.Advance, L.NextSeq;
    r := store.AllocateSeq(actor, requestId);
    if r.Ok? && event.Delta? {
      var late := store.AdvanceResponse(actor, requestId, L.InProgress, None, Some(r.value));
      if late.Some? { return Err(late.value); }
    }
  }

  /** `run_advanced_stream`: drain the relay, heartbeat the lifecycle, settle. */
  method RunAdvancedStream(store: L.MemoryResponseLifecycleStore, actor: M.Actor, cid: M.Id, requestId: string, a: Attempt)
    returns (r: Result<AdvancedResult, AttemptError>)
    modifies store
    ensures Ran(store.View(), r) == RunsTo(old(store.View()), actor, cid, requestId, a)
  {
    hide L.Begin, Pump, PumpOne, Drained, DeltaCount, DeltasOf, Joined, SettleInto;
    if a.requestRefused { return Err(RequestRefused); }
    var refused := store.BeginResponse(actor, cid, requestId);
    if refused.Some? { return Err(LifecycleRefused(refused.value)); }
    ghost var begun := store.View();
    var relay := new ChatStreamRelay();
    var events, pulled := relay.Stream(Classified(a.script), a.cancel);
    ghost var d := Drained(Classified(a.script), a.cancel);
    var deltaCount, terminalSeq := 0, 0;
    PumpNone(begun, actor, requestId, events);
    for i := 0 to |events|
      invariant Pump(begun, actor, requestId, events, i) == Pumped(store.View(), Ok(terminalSeq))
      invariant deltaCount == DeltaCount(events, i) && Holds(relay, d)
    {
      PumpStops(begun, actor, requestId, events, i);
      CountNext(events, i);
      var drawn := RecordEvent(store, actor, requestId, events[i]);
      if drawn.Err? { return Err(LifecycleRefused(drawn.error)); }
      if events[i].Delta? { deltaCount := deltaCount + 1; }
      terminalSeq := drawn.value;
    }
    r := SettleAttempt(store, actor, requestId, a, d, relay, deltaCount, pulled, terminalSeq);
  }

  /** `stream_advanced_attempt` drained: the same, handing every delta on as it comes. */
  method StreamAdvancedAttempt(store: L.MemoryResponseLifecycleStore, actor: M.Actor, cid: M.Id, requestId: string, a: Attempt)
    returns (yielded: seq<RelayEvent>, r: Result<AdvancedResult, AttemptError>)
    modifies store
    ensures Ran(store.View(), r) == RunsTo(old(store.View()), actor, cid, requestId, a)
    ensures r.Ok? ==> yielded == DeltasOf(Drained(Classified(a.script), a.cancel).events)
  {
    hide L.Begin, Pump, PumpOne, Drained, DeltaCount, DeltasOf, Joined, SettleInto;
    yielded := [];
    NoDeltas();
    if a.requestRefused { return yielded, Err(RequestRefused); }
    var refused := store.BeginResponse(actor, cid, requestId);
    if refused.Some? { return yielded, Err(LifecycleRefused(refused.value)); }
    ghost var begun := store.View();
    var relay := new ChatStreamRelay();
    var events, pulled := relay.Stream(Classified(a.script), a.cancel);
    ghost var d := Drained(Classified(a.script), a.cancel);
    var deltaCount, terminalSeq := 0, 0;
    PumpNone(begun, actor, requestId, events);
    for i := 0 to |events|
      invariant Pump(begun, actor, requestId, events, i) == Pumped(store.View(), Ok(terminalSeq))
      invariant deltaCount == DeltaCount(events, i) && Holds(relay, d)
      invariant yielded == DeltasOf(events[..i])
    {
      PumpStops(begun, actor, requestId, events, i);
      CountNext(events, i);
      DeltasNext(events, i);
      var drawn := RecordEvent(store, actor, requestId, events[i]);
      if drawn.Err? { return yielded, Err(LifecycleRefused(drawn.error)); }
      if events[i].Delta? {
        deltaCount := deltaCount + 1;
        yielded := yielded + [events[i]];
      }
      terminalSeq := drawn.value;
    }
    assert events[..|events|] == events;
    assert d.events == events;
    r := SettleAttempt(store, actor, requestId, a, d, relay, deltaCount, pulled, terminalSeq);
  }

  predicate Holds(relay: ChatStreamRelay, d: Relayed)
    reads relay
  {
    relay.outcome == Some(d.outcome) && relay.PartialText() == d.text && relay.usageTokens == d.usage
  }

  function DeltasOf(events: seq<RelayEvent>): seq<RelayEvent>
  {
    if events == [] then []
    else if events[|events| - 1].Delta? then DeltasOf(events[..|events| - 1]) + [events[|events| - 1]]
    else DeltasOf(events[..|events| - 1])
  }

  lemma NoDeltas()
    ensures DeltasOf([]) == []
  { }

  lemma DeltasNext(events: seq<RelayEvent>, i: nat)
    requires i < |events|
    ensures DeltasOf(events[..i + 1]) == DeltasOf(events[..i]) + if events[i].Delta? then [events[i]] else []
  {
    assert events[..i + 1][..i] == events[..i];
  }

  lemma PumpNone(rows: L.LifecycleRows, actor: M.Actor, requestId: string, events: seq<RelayEvent>)
    ensures Pump(rows, actor, requestId, events, 0) == Pumped(rows, Ok(0)) && DeltaCount(events, 0) == 0
  { }

  lemma CountNext(events: seq<RelayEvent>, i: nat)
    requires i < |events|
    ensures DeltaCount(events, i + 1) == DeltaCount(events, i) + if events[i].Delta? then 1 else 0
  { }

  /** Once an event fails to be recorded, the whole run is refused with that error. */
  lemma {:induction false} PumpStops(rows: L.LifecycleRows, actor: M.Actor, requestId: string, events: seq<RelayEvent>, i: nat)
    requires i < |events| && Pump(rows, actor, requestId, events, i).status.Ok?
    ensures var one := PumpOne(Pump(rows, actor, requestId, events, i).rows, actor, requestId, events[i]);
            && Pump(rows, actor, requestId, events, i + 1) == one
            && (one.status.Err? ==> Pump(rows, actor, requestId, events, |events|) == one)
  {
    hide PumpOne;
    if Pump(rows, actor, requestId, events, i + 1).status.Err? {
      PumpStuck(rows, actor, requestId, events, i + 1, |events|);
    }
  }

  lemma {:induction false} PumpStuck(rows: L.LifecycleRows, actor: M.Actor, requestId: string, events: seq<RelayEvent>,
                                     i: nat, n: nat)
    requires i <= n <= |events| && Pump(rows, actor, requestId, events, i).status.Err?
    ensures Pump(rows, actor, requestId, events, n) == Pump(rows, actor, requestId, events, i)
  {
    hide PumpOne;
    if i < n { PumpStuck(rows, actor, requestId, events, i, n - 1); }
  }

  /** `_settle_advanced_attempt` */
  method SettleAttempt(store: L.MemoryResponseLifecycleStore, actor: M.Actor, requestId: string, a: Attempt, ghost d: Relayed,
                       relay: ChatStreamRelay, deltaCount: nat, pulled: nat, terminalSeq: nat)
    returns (r: Result<AdvancedResult, AttemptError>)
    requires Holds(relay, d)
    requires deltaCount == DeltaCount(d.events, |d.events|) && pulled == d.pulled
    modifies store
    ensures Ran(store.View(), r) == SettleInto(old(store.View()), actor, requestId, a, d, terminalSeq)
  {
    hide L.Advance, DeltaCount, Joined;
    var streamed := deltaCount > 0;
    var valid: Option<bool> := None;
    var state := ClassifyState(relay.outcome.value, SawMalformed(a.script, pulled));
    if state == CompleteState {
      if streamed { state := StreamedState; }
      if a.jsonSchema {
        valid := a.validator(relay.PartialText());
        if valid.None? { return Err(ValidatorRaised); }
        if !valid.value { state := SchemaInvalidState; }
      }
    }
    var usage := UsageOf(a, relay.usageTokens);
    var refused := store.AdvanceResponse(actor, requestId, LifecycleFor(state), Some(usage), Some(terminalSeq));
    if refused.Some? { return Err(LifecycleRefused(refused.value)); }
    if a.traceRefused { return Err(TraceRefused); }
    return Ok(AdvancedResult(state, TurnStatusFor(state), LifecycleFor(state), relay.PartialText(), streamed, valid,
                             usage, TraceStatusFor(state)));
  }

  // -- the classifier hides nothing from the relay -------------------------------------

  lemma {:induction false} ClassifiedText(script: Script, n: nat)
    ensures TextBefore(Classified(script), n) == TextBefore(script, n)
    ensures DeltasBefore(Classified(script), n) == DeltasBefore(script, n)
  {
    if n > 0 { ClassifiedText(script, n - 1); }
  }

  lemma {:induction false} ClassifiedEnd(script: Script, cancel: Schedule, from: nat)
    requires from <= MAX_STREAM_EVENTS
    ensures EndsAt(Classified(script), cancel, from) == EndsAt(script, cancel, from)
    decreases MAX_STREAM_EVENTS - from
  {
    EndStep(script, cancel, from);
    EndStep(Classified(script), cancel, from);
    ClassifiedText(script, from + 1);
    hide EndsAt, TextBefore, DeltasBefore;
    if GoesOn(script, cancel, from) { ClassifiedEnd(script, cancel, from + 1); }
  }

  /** The relay behaves over the classifier exactly as over the bare transport. */
  lemma ClassifierIsTransparent(script: Script, cancel: Schedule)
    ensures Drained(Classified(script), cancel) == Drained(script, cancel)
  {
    hide EndsAt, TextBefore, DeltasBefore, EndsWith, Completes, Classified;
    ClassifiedEnd(script, cancel, 0);
    ClassifiedText(script, EndsAt(script, cancel, 0));
    ClassifiedOutcome(script, cancel, EndsAt(script, cancel, 0));
  }

  lemma ClassifiedOutcome(script: Script, cancel: Schedule, n: nat)
    ensures EndsWith(Classified(script), cancel, n) == EndsWith(script, cancel, n)
    ensures Completes(Classified(script)(n)) == Completes(script(n))
    ensures Completes(script(n)) ==> Classified(script)(n) == script(n)
  { }

  /** An attempt is a malformed stream exactly when a frame that is not a mapping was read. */
  lemma MalformedExactly(a: Attempt)
    ensures var d := Drained(Classified(a.script), a.cancel);
            SettledState(a, d, SawMalformed(a.script, d.pulled)) == MalformedStreamState
            <==> exists i: nat :: i < d.pulled && Malformed(a.script(i))
  {
    hide Drained, DeltaCount, Malformed, Verdict;
    var d := Drained(Classified(a.script), a.cancel);
    if i: nat :| i < d.pulled && Malformed(a.script(i)) { MalformedEnds(a.script, a.cancel, i); }
  }

  /** A malformed frame that is read ends the stream, as an unavailable one. */
  lemma MalformedEnds(script: Script, cancel: Schedule, i: nat)
    requires i < Drained(Classified(script), cancel).pulled && Malformed(script(i))
    ensures Drained(Classified(script), cancel).outcome == ServingUnavailable
  {
    hide EndsAt, TextBefore, DeltasBefore, Completes;
    assert !GoesOn(Classified(script), cancel, i);
  }

  /** The four vocabularies say complete together, for the same two states. */
  lemma CompleteTogether(s: AdvancedState)
    ensures var complete := s in {CompleteState, StreamedState};
            && (TurnStatusFor(s) == M.Complete <==> complete)
            && (LifecycleFor(s) == L.LifecycleState.Completed <==> complete)
            && (WireFor(s) == WireCompleted <==> complete)
            && (TraceStatusFor(s) == TraceComplete <==> complete)
            && M.Terminal(TurnStatusFor(s)) && L.Settled(LifecycleFor(s))
  { }

  /** And that is exactly when the relay completed and the validator, if one is
      consulted, accepted the text. */
  lemma CompleteExactly(a: Attempt)
    requires Monotone(a.cancel) && Alone(a).Ok?
    ensures var r := Alone(a).value;
            && (r.turnStatus == M.Complete <==>
                  && (exists n :: CompletesCleanly(a.script, a.cancel, n))
                  && (a.jsonSchema ==> a.validator(r.text) == Some(true)))
            && (r.lifecycle == L.LifecycleState.Completed <==> r.turnStatus == M.Complete)
            && (r.trace == TraceComplete <==> r.turnStatus == M.Complete)
            && (WireFor(r.state) == WireCompleted <==> r.turnStatus == M.Complete)
  {
    ClassifierIsTransparent(a.script, a.cancel);
    CompletedExactly(a.script, a.cancel);
    var d := Drained(Classified(a.script), a.cancel);
    hide Drained, CompletesCleanly, DeltaCount, SettledState, TurnStatusFor;
    StateComplete(a, d, SawMalformed(a.script, d.pulled));
    CompleteTogether(Alone(a).value.state);
    var r := Alone(a).value;
    assert r.text == d.text && r.state == SettledState(a, d, SawMalformed(a.script, d.pulled));
    assert r.turnStatus == M.Complete <==> d.outcome == Completed && Verdict(a, d) != Some(Some(false));
    if d.outcome == Completed && a.jsonSchema {
      var answer := a.validator(d.text);
      assert Verdict(a, d) == Some(answer) && answer.Some?;
      assert answer == Some(answer.value);
      assert a.validator(r.text) == answer;
      assert answer == Some(true) <==> answer.value;
      assert Verdict(a, d) == Some(Some(false)) <==> !answer.value;
    }
  }

  lemma StateComplete(a: Attempt, d: Relayed, sawMalformed: bool)
    ensures SettledState(a, d, sawMalformed) in {CompleteState, StreamedState}
            <==> d.outcome == Completed && Verdict(a, d) != Some(Some(false))
  { }

  ghost predicate MalformedAt(script: Script, cancel: Schedule, n: nat)
  {
    Reaches(script, cancel, n) && !cancel(2 * n) && script(n).Yields? && script(n).frame.NotAMapping?
  }

  /** A clean completion at `n`, its text refused by the validator. */
  ghost predicate CompletesInvalid(a: Attempt, n: nat)
  {
    CompletesCleanly(a.script, a.cancel, n) && a.jsonSchema && a.validator(TextBefore(a.script, n)) == Some(false)
  }

  /** A clean completion at `n`, its text accepted by the validator or not asked about. */
  ghost predicate CompletesValid(a: Attempt, n: nat)
  {
    CompletesCleanly(a.script, a.cancel, n) && (a.jsonSchema ==> a.validator(TextBefore(a.script, n)) == Some(true))
  }

  ghost predicate DeltaBefore(script: Script, n: nat)
  {
    exists i: nat :: i < n && script(i).Yields? && script(i).frame.Mapping? && script(i).frame.kind == DeltaEvent
  }

  lemma {:induction false} SomeDelta(script: Script, n: nat)
    ensures DeltasBefore(script, n) != [] <==> DeltaBefore(script, n)
  {
    if n > 0 {
      SomeDelta(script, n - 1);
      if i: nat :| i < n && script(i).Yields? && script(i).frame.Mapping? && script(i).frame.kind == DeltaEvent {
        assert i < n - 1 ==> DeltaBefore(script, n - 1);
      }
    }
  }

  lemma {:induction false} AllCounted(events: seq<RelayEvent>, n: nat)
    requires n <= |events| && forall i | 0 <= i < n :: events[i].Delta?
    ensures DeltaCount(events, n) == n
  {
    if n > 0 { AllCounted(events, n - 1); }
  }

  /** A stream was streamed if any delta came before its end. */
  lemma StreamedWhere(script: Script, cancel: Schedule)
    ensures var d := Drained(script, cancel); DeltaCount(d.events, |d.events|) > 0 <==> DeltaBefore(script, d.ended)
  {
    var d := Drained(script, cancel);
    EndsThere(script, cancel);
    SomeDelta(script, d.ended);
    RelayIsBounded(script, cancel);
    hide Drained, DeltaBefore, DeltasBefore, TextBefore, Reaches, DeltaTexts;
    AllCounted(d.events, |d.events| - 1);
  }

  lemma MalformedWhere(script: Script, cancel: Schedule)
    requires Monotone(cancel)
    ensures var d := Drained(script, cancel);
            SawMalformed(script, d.pulled) <==> exists n :: MalformedAt(script, cancel, n)
  {
    var d := Drained(script, cancel);
    EndsThere(script, cancel);
    if n: nat :| MalformedAt(script, cancel, n) {
      EndsOnlyThere(script, cancel, n);
      hide Drained, TextBefore, DeltasBefore;
      assert Malformed(script(n)) && n < d.pulled;
    }
    hide Drained, TextBefore, DeltasBefore;
    if i: nat :| i < d.pulled && Malformed(script(i)) {
      assert i < d.ended ==> DeltaOrIgnored(script(i));
      assert i == d.ended;
      assert MalformedAt(script, cancel, i);
    }
  }

  lemma CompletedWhere(script: Script, cancel: Schedule)
    requires Monotone(cancel)
    ensures var d := Drained(script, cancel);
            && (d.outcome == Completed <==> CompletesCleanly(script, cancel, d.ended))
            && (forall n :: CompletesCleanly(script, cancel, n) ==> n == d.ended)
            && d.text == TextBefore(script, d.ended)
  {
    CompletedExactly(script, cancel);
    EndsThere(script, cancel);
    hide Drained, CompletesCleanly, Reaches, TextBefore, DeltasBefore;
  }

  /** The seven states of an attempt, each by its own condition on the script, the schedule
      and the validator. */
  lemma StateExactly(a: Attempt)
    requires Monotone(a.cancel) && Alone(a).Ok?
    ensures var s := Alone(a).value.state;
            && (s == TimedOutState <==> exists n :: TimesOutAt(a.script, a.cancel, n))
            && (s == CancelledState <==> exists n :: CancelsAt(a.script, a.cancel, n))
            && (s == MalformedStreamState <==> exists n :: MalformedAt(a.script, a.cancel, n))
            && (s == UnavailableState <==> (exists n :: FailsAt(a.script, a.cancel, n)) && !exists n :: MalformedAt(a.script, a.cancel, n))
            && (s == SchemaInvalidState <==> exists n :: CompletesInvalid(a, n))
            && (s == StreamedState <==> exists n :: CompletesValid(a, n) && DeltaBefore(a.script, n))
            && (s == CompleteState <==> exists n :: CompletesValid(a, n) && !DeltaBefore(a.script, n))
  {
    var d := Drained(a.script, a.cancel);
    hide Drained, TimesOutAt, CancelsAt, FailsAt, MalformedAt, DeltaBefore, DeltaCount, SawMalformed, Monotone, CompletesCleanly,
      TextBefore, Alone;
    ClassifierIsTransparent(a.script, a.cancel);
    AloneState(a);
    TimedOutExactly(a.script, a.cancel);
    CancelledExactly(a.script, a.cancel);
    UnavailableExactly(a.script, a.cancel);
    MalformedWhere(a.script, a.cancel);
    MalformedFails(a.script, a.cancel);
    CompletedWhere(a.script, a.cancel);
    StreamedWhere(a.script, a.cancel);
    Refined(a, d);
  }

  /** What each state means to the turn, the lifecycle record, the trace and the client; and
      the text, the verdict and the usage that go with it: the caller's usage if there is one,
      and otherwise the reported tokens, input first, and the latency, each up to its limit. */
  lemma ResultTells(a: Attempt)
    requires Alone(a).Ok?
    ensures var r, d := Alone(a).value, Drained(a.script, a.cancel);
            && (r.turnStatus, r.lifecycle, r.trace, WireFor(r.state))
               == (match r.state
                   case CompleteState | StreamedState => (M.Complete, L.LifecycleState.Completed, TraceComplete, WireCompleted)
                   case CancelledState => (M.TurnStatus.Cancelled, L.LifecycleState.Cancelled, TraceCancelled, WireCancelled)
                   case TimedOutState => (M.TurnStatus.Interrupted, L.LifecycleState.TimedOut, TraceTimedOut, WireTimedOut)
                   case SchemaInvalidState => (M.Failed, L.LifecycleState.Interrupted, TraceFailed, WireFailed)
                   case MalformedStreamState => (M.Failed, L.LifecycleState.Interrupted, TraceFailed, WireUnavailable)
                   case UnavailableState => (M.Failed, L.LifecycleState.Interrupted, TraceUnavailable, WireUnavailable))
            && r.text == d.text && (r.streamed <==> DeltaBefore(a.script, d.ended))
            && r.valid == (if d.outcome == Completed && a.jsonSchema then a.validator(d.text) else None)
            && r.usage == if a.usage.Some? then a.usage.value
                          else L.SafeUsage(AtMost(100_000_000, if d.usage.Some? then d.usage.value.0 else 0),
                                           AtMost(100_000_000, if d.usage.Some? then d.usage.value.1 else 0),
                                           Some(AtMost(86_400_000, a.durationMs)))
  {
    ClassifierIsTransparent(a.script, a.cancel);
    StreamedWhere(a.script, a.cancel);
    hide Drained, DeltaCount, SawMalformed, DeltaBefore, Classified, SettledState;
  }

  function AtMost(limit: nat, n: nat): nat { if n > limit then limit else n }

  /** And an attempt gives no result exactly when its request cannot be built, the validator
      raises on the text of a completed stream, or the trace is refused. */
  lemma NoResultExactly(a: Attempt)
    requires Monotone(a.cancel)
    ensures Alone(a).Err? <==> (|| a.requestRefused || a.traceRefused
                                || exists n :: CompletesCleanly(a.script, a.cancel, n) && a.jsonSchema
                                               && a.validator(TextBefore(a.script, n)) == None)
  {
    ClassifierIsTransparent(a.script, a.cancel);
    CompletedWhere(a.script, a.cancel);
    hide Drained, CompletesCleanly, TextBefore, DeltaCount, SawMalformed, SettledState;
  }

  lemma AloneState(a: Attempt)
    requires Alone(a).Ok?
    ensures var d := Drained(Classified(a.script), a.cancel);
            Alone(a).value.state == SettledState(a, d, SawMalformed(a.script, d.pulled)) && Verdict(a, d) != Some(None)
  {
    hide Drained, DeltaCount, SawMalformed;
  }

  lemma MalformedFails(script: Script, cancel: Schedule)
    ensures (exists n :: MalformedAt(script, cancel, n)) ==> exists n :: FailsAt(script, cancel, n)
  {
    if n: nat :| MalformedAt(script, cancel, n) {
      hide Reaches, TextBefore;
      assert FailsAt(script, cancel, n);
    }
  }

  /** How a completion is refined. */
  lemma Refined(a: Attempt, d: Relayed)
    requires d.outcome == Completed <==> CompletesCleanly(a.script, a.cancel, d.ended)
    requires forall n :: CompletesCleanly(a.script, a.cancel, n) ==> n == d.ended
    requires d.text == TextBefore(a.script, d.ended) && Verdict(a, d) != Some(None)
    ensures d.outcome == Completed && Verdict(a, d) == Some(Some(false)) <==> exists n :: CompletesInvalid(a, n)
    ensures d.outcome == Completed && Verdict(a, d) != Some(Some(false)) && DeltaBefore(a.script, d.ended)
            <==> exists n :: CompletesValid(a, n) && DeltaBefore(a.script, n)
    ensures d.outcome == Completed && Verdict(a, d) != Some(Some(false)) && !DeltaBefore(a.script, d.ended)
            <==> exists n :: CompletesValid(a, n) && !DeltaBefore(a.script, n)
  {
    hide CompletesCleanly, TextBefore, DeltaBefore;
    assert d.outcome == Completed && Verdict(a, d) == Some(Some(false)) ==> CompletesInvalid(a, d.ended);
    if d.outcome == Completed && Verdict(a, d) != Some(Some(false)) {
      if a.jsonSchema { VerdictIsOne(a.validator(d.text)); }
      assert CompletesValid(a, d.ended);
    }
  }

  lemma VerdictIsOne(v: Option<bool>)
    ensures v == None || v == Some(true) || v == Some(false)
  {
    match v
    case None =>
    case Some(b) => if b { assert v == Some(true); } else { assert v == Some(false); }
  }

  // -- what the durable record is left at ----------------------------------------------

  /** The number the last delta among the first `n` events committed. */
  function CommittedAfter(events: seq<RelayEvent>, n: nat, start: nat): nat
    requires n <= |events|
  {
    if n == 0 then 0 else if events[n - 1].Delta? then start + n else CommittedAfter(events, n - 1, start)
  }

  lemma {:induction false} CommittedBelow(events: seq<RelayEvent>, n: nat, start: nat)
    requires n <= |events|
    ensures CommittedAfter(events, n, start) <= start + n
  {
    if n > 0 { CommittedBelow(events, n - 1, start); }
  }

  /** Rows in which `requestId` is in progress, and what `n` recorded events make of them. */
  function AfterEvents(rows: L.LifecycleRows, key: L.Key, record: L.Response, events: seq<RelayEvent>, n: nat): L.LifecycleRows
    requires n <= |events|
  {
    var start := L.HighWater(rows, record.conversationId);
    L.LifecycleRows(rows.responses[key := record.(committed := CommittedAfter(events, n, start))],
                    if n == 0 then rows.seqs else rows.seqs[record.conversationId := start + n])
  }

  lemma {:induction false} PumpCloses(rows: L.LifecycleRows, actor: M.Actor, requestId: string, record: L.Response,
                                      events: seq<RelayEvent>, n: nat)
    requires n <= |events| && L.KeyOf(actor, requestId) in rows.responses
    requires rows.responses[L.KeyOf(actor, requestId)] == record && record.state == L.InProgress && record.committed == 0
    requires L.HighWater(rows, record.conversationId) + n <= L.MAX_SEQUENCE
    ensures Pump(rows, actor, requestId, events, n)
            == Pumped(AfterEvents(rows, L.KeyOf(actor, requestId), record, events, n),
                      Ok(if n == 0 then 0 else L.HighWater(rows, record.conversationId) + n))
  {
    hide Pump, PumpOne, AfterEvents, CommittedAfter, L.HighWater;
    if n == 0 {
      PumpNone(rows, actor, requestId, events);
      NothingRecorded(rows, L.KeyOf(actor, requestId), record, events);
    } else {
      var start := L.HighWater(rows, record.conversationId);
      var before := AfterEvents(rows, L.KeyOf(actor, requestId), record, events, n - 1);
      PumpCloses(rows, actor, requestId, record, events, n - 1);
      CommittedBelow(events, n - 1, start);
      AfterSome(rows, L.KeyOf(actor, requestId), record, events, n - 1);
      OneMore(before, actor, requestId, events[n - 1], record.(committed := CommittedAfter(events, n - 1, start)), start + n);
      NextAfter(rows, L.KeyOf(actor, requestId), record, events, n);
      PumpNext(rows, actor, requestId, events, n);
    }
  }

  lemma PumpNext(rows: L.LifecycleRows, actor: M.Actor, requestId: string, events: seq<RelayEvent>, n: nat)
    requires 0 < n <= |events| && Pump(rows, actor, requestId, events, n - 1).status.Ok?
    ensures Pump(rows, actor, requestId, events, n)
            == PumpOne(Pump(rows, actor, requestId, events, n - 1).rows, actor, requestId, events[n - 1])
  { }

  lemma NothingRecorded(rows: L.LifecycleRows, key: L.Key, record: L.Response, events: seq<RelayEvent>)
    requires key in rows.responses && rows.responses[key] == record && record.committed == 0
    ensures AfterEvents(rows, key, record, events, 0) == rows
  {
    assert rows.responses[key := record] == rows.responses;
  }

  lemma AfterSome(rows: L.LifecycleRows, key: L.Key, record: L.Response, events: seq<RelayEvent>, n: nat)
    requires n <= |events|
    ensures var start, after := L.HighWater(rows, record.conversationId), AfterEvents(rows, key, record, events, n);
            && L.HighWater(after, record.conversationId) == start + n && key in after.responses
            && after.responses[key] == record.(committed := CommittedAfter(events, n, start))
  {
    hide CommittedAfter;
  }

  lemma NextAfter(rows: L.LifecycleRows, key: L.Key, record: L.Response, events: seq<RelayEvent>, n: nat)
    requires 0 < n <= |events|
    ensures var start := L.HighWater(rows, record.conversationId);
            var before, after := AfterEvents(rows, key, record, events, n - 1), AfterEvents(rows, key, record, events, n);
            after == L.LifecycleRows(
              if events[n - 1].Delta? then before.responses[key := record.(committed := start + n)] else before.responses,
              before.seqs[record.conversationId := start + n])
  { }

  lemma OneMore(rows: L.LifecycleRows, actor: M.Actor, requestId: string, event: RelayEvent, record: L.Response, next: nat)
    requires L.KeyOf(actor, requestId) in rows.responses && rows.responses[L.KeyOf(actor, requestId)] == record
    requires record.state == L.InProgress && record.committed < next == L.HighWater(rows, record.conversationId) + 1
    requires next <= L.MAX_SEQUENCE
    ensures PumpOne(rows, actor, requestId, event)
            == Pumped(L.LifecycleRows(
                 if event.Delta? then rows.responses[L.KeyOf(actor, requestId) := record.(committed := next)] else rows.responses,
                 rows.seqs[record.conversationId := next]), Ok(next))
  { }

  /** The durable record and the allocator once an attempt that met no refusal is done. */
  function SettledRows(rows: L.LifecycleRows, actor: M.Actor, cid: M.Id, requestId: string, a: Attempt): L.LifecycleRows
  {
    var d := Drained(Classified(a.script), a.cancel);
    var r := ResultFor(a, d, SawMalformed(a.script, d.pulled));
    var last := L.HighWater(rows, cid) + |d.events|;
    L.LifecycleRows(
      rows.responses[L.KeyOf(actor, requestId) := L.Response(requestId, cid, actor, r.lifecycle, r.usage, 2, last)],
      rows.seqs[cid := last])
  }

  /** With a fresh request id and room in the conversation's sequence, an attempt gives
      what it gives alone, whatever else the store holds.  A request that cannot be built
      changes nothing; otherwise, unless the validator raises, its record ends at its
      refined terminal, committed at the number of its last event, every event having
      drawn the next number of the conversation. */
  lemma AttemptSettles(rows: L.LifecycleRows, actor: M.Actor, cid: M.Id, requestId: string, a: Attempt)
    requires L.Begin(rows, actor, cid, requestId).Ok?
    requires L.HighWater(rows, cid) + |Drained(Classified(a.script), a.cancel).events| <= L.MAX_SEQUENCE
    ensures var ran := RunsTo(rows, actor, cid, requestId, a);
            && ran.result == Alone(a)
            && (if a.requestRefused then ran.rows == rows
                else Alone(a) != Err(ValidatorRaised) ==> ran.rows == SettledRows(rows, actor, cid, requestId, a))
  {
    hide Drained, DeltaCount, SawMalformed, Pump, CommittedAfter, SettleInto, SettledRows, AfterEvents, L.Begin, Verdict, ResultFor;
    if !a.requestRefused {
      hide Alone;
      var d := Drained(Classified(a.script), a.cancel);
      var begun := L.Begin(rows, actor, cid, requestId).value;
      BegunRecord(rows, actor, cid, requestId);
      CommittedBeforeTerminal(a, L.HighWater(rows, cid));
      PumpCloses(begun, actor, requestId, begun.responses[L.KeyOf(actor, requestId)], d.events, |d.events|);
      SettleAfter(rows, begun, actor, cid, requestId, a, d);
    }
  }

  lemma BegunRecord(rows: L.LifecycleRows, actor: M.Actor, cid: M.Id, requestId: string)
    requires L.Begin(rows, actor, cid, requestId).Ok?
    ensures var begun, key := L.Begin(rows, actor, cid, requestId).value, L.KeyOf(actor, requestId);
            && key in begun.responses && L.HighWater(begun, cid) == L.HighWater(rows, cid)
            && begun.responses[key] == L.Response(requestId, cid, actor, L.InProgress, L.NO_USAGE, 1, 0)
  { }

  lemma SettleAfter(rows: L.LifecycleRows, begun: L.LifecycleRows, actor: M.Actor, cid: M.Id, requestId: string, a: Attempt,
                    d: Relayed)
    requires !a.requestRefused && L.Begin(rows, actor, cid, requestId) == Ok(begun) && d == Drained(Classified(a.script), a.cancel)
    requires L.HighWater(rows, cid) + |d.events| <= L.MAX_SEQUENCE
    requires CommittedAfter(d.events, |d.events|, L.HighWater(rows, cid)) < L.HighWater(rows, cid) + |d.events| && d.events != []
    ensures var key, last := L.KeyOf(actor, requestId), L.HighWater(rows, cid) + |d.events|;
            var ran := SettleInto(AfterEvents(begun, key, begun.responses[key], d.events, |d.events|), actor, requestId, a, d, last);
            && ran.result == Alone(a)
            && (Alone(a) != Err(ValidatorRaised) ==> ran.rows == SettledRows(rows, actor, cid, requestId, a))
  {
    hide Drained, DeltaCount, SawMalformed, CommittedAfter, SettledState, UsageOf, L.Advance, L.Begin, AfterEvents;
    var r := ResultFor(a, d, SawMalformed(a.script, d.pulled));
    CompleteTogether(r.state);
    hide TurnStatusFor, TraceStatusFor, LifecycleFor;
    FinalAdvance(rows, begun, actor, cid, requestId, d.events, r.lifecycle, r.usage);
  }

  /** Committing the terminal of a record all of whose events are recorded. */
  lemma FinalAdvance(rows: L.LifecycleRows, begun: L.LifecycleRows, actor: M.Actor, cid: M.Id, requestId: string,
                     events: seq<RelayEvent>, state: L.LifecycleState, usage: L.SafeUsage)
    requires L.Begin(rows, actor, cid, requestId) == Ok(begun) && L.Settled(state) && events != []
    requires L.HighWater(rows, cid) + |events| <= L.MAX_SEQUENCE
    requires CommittedAfter(events, |events|, L.HighWater(rows, cid)) < L.HighWater(rows, cid) + |events|
    ensures var key, last := L.KeyOf(actor, requestId), L.HighWater(rows, cid) + |events|;
            key in begun.responses
            && L.Advance(AfterEvents(begun, key, begun.responses[key], events, |events|), actor, requestId, state, Some(usage), Some(last))
               == Ok(L.LifecycleRows(rows.responses[key := L.Response(requestId, cid, actor, state, usage, 2, last)],
                                     rows.seqs[cid := last]))
  {
    var key, last := L.KeyOf(actor, requestId), L.HighWater(rows, cid) + |events|;
    var committed := CommittedAfter(events, |events|, L.HighWater(rows, cid));
    hide CommittedAfter, AfterEvents, Recorded, L.Advance, L.Begin, L.KeyOf, L.HighWater;
    BegunRows(rows, begun, actor, cid, requestId);
    AllRecorded(rows, actor, cid, requestId, events);
    TerminalAdvance(rows, actor, cid, requestId, committed, last, state, usage);
  }

  lemma BegunRows(rows: L.LifecycleRows, begun: L.LifecycleRows, actor: M.Actor, cid: M.Id, requestId: string)
    requires L.Begin(rows, actor, cid, requestId) == Ok(begun)
    ensures var key, record := L.KeyOf(actor, requestId), L.Response(requestId, cid, actor, L.InProgress, L.NO_USAGE, 1, 0);
            begun == L.LifecycleRows(rows.responses[key := record], rows.seqs)
            && key in begun.responses && begun.responses[key] == record
  { }

  /** Rows in which a response is in progress, its last delta's number committed. */
  function Recorded(rows: L.LifecycleRows, actor: M.Actor, cid: M.Id, requestId: string, committed: nat, last: nat): L.LifecycleRows
  {
    L.LifecycleRows(
      rows.responses[L.KeyOf(actor, requestId) := L.Response(requestId, cid, actor, L.InProgress, L.NO_USAGE, 1, committed)],
      rows.seqs[cid := last])
  }

  lemma AllRecorded(rows: L.LifecycleRows, actor: M.Actor, cid: M.Id, requestId: string, events: seq<RelayEvent>)
    requires events != []
    ensures var key, record := L.KeyOf(actor, requestId), L.Response(requestId, cid, actor, L.InProgress, L.NO_USAGE, 1, 0);
            var start := L.HighWater(rows, cid);
            AfterEvents(L.LifecycleRows(rows.responses[key := record], rows.seqs), key, record, events, |events|)
            == Recorded(rows, actor, cid, requestId, CommittedAfter(events, |events|, start), start + |events|)
  {
    var key, record := L.KeyOf(actor, requestId), L.Response(requestId, cid, actor, L.InProgress, L.NO_USAGE, 1, 0);
    var last := record.(committed := CommittedAfter(events, |events|, L.HighWater(rows, cid)));
    hide CommittedAfter;
    assert rows.responses[key := record][key := last] == rows.responses[key := last];
  }

  lemma TerminalAdvance(rows: L.LifecycleRows, actor: M.Actor, cid: M.Id, requestId: string, committed: nat, last: nat,
                        state: L.LifecycleState, usage: L.SafeUsage)
    requires committed < last <= L.MAX_SEQUENCE && L.Settled(state)
    ensures L.Advance(Recorded(rows, actor, cid, requestId, committed, last), actor, requestId, state, Some(usage), Some(last))
            == Ok(L.LifecycleRows(
                 rows.responses[L.KeyOf(actor, requestId) := L.Response(requestId, cid, actor, state, usage, 2, last)],
                 rows.seqs[cid := last]))
  {
    var key, done := L.KeyOf(actor, requestId), L.Response(requestId, cid, actor, state, usage, 2, last);
    var before := Recorded(rows, actor, cid, requestId, committed, last);
    assert before.responses[key := done] == rows.responses[key := done];
  }

  lemma CommittedBeforeTerminal(a: Attempt, start: nat)
    ensures var events := Drained(Classified(a.script), a.cancel).events;
            events != [] && CommittedAfter(events, |events|, start) < start + |events|
  {
    var d := Drained(Classified(a.script), a.cancel);
    assert d.events[|d.events| - 1] == Terminal(d.outcome) by { hide EndsAt, DeltasBefore; }
    CommittedBelow(d.events, |d.events| - 1, start);
    hide Drained;
  }
}
