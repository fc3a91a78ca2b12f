/** The bounded stream relay (workbench/chat_stream.py).

    The transport is an arbitrary infinite script: `script(i)` is what the i-th call
    of `next` does.  The cancel flag is an arbitrary schedule, set forever once set:
    `cancel(2 * i)` is its value just before the i-th read, `cancel(2 * i + 1)` just
    after it. */
module ChatStream {
  import opened Outcomes
  import ConversationModels

  const MAX_STREAM_EVENTS := 10000
  const MAX_OUTPUT_CHARS := 100000

  datatype StreamOutcome = Completed | Cancelled | TimedOut | ServingUnavailable

  /** A count in a usage block; `None` for anything that is not an integer. */
  datatype UsageBlock = UsageBlock(inputTokens: Option<int>, outputTokens: Option<int>)

  /** An event's `type`: a comparison with a value that cannot be hashed raises. */
  datatype EventType = DeltaEvent | CompletedEvent | FailureEvent | OtherEvent | UnhashableType

  datatype Frame =
    | Mapping(kind: EventType, delta: Option<string>, usage: Option<UsageBlock>)
    | NotAMapping

  datatype Read = Yields(frame: Frame) | Stops | RaisesTimeout | RaisesUnavailable | RaisesOther

  datatype RelayEvent = Delta(text: string) | Terminal(outcome: StreamOutcome)

  type Script = nat -> Read
  type Schedule = nat -> bool

  ghost predicate Monotone(cancel: Schedule)
  {
    forall i: nat, j: nat :: i <= j && cancel(i) ==> cancel(j)
  }

  function TurnStatusOf(o: StreamOutcome): ConversationModels.TurnStatus
  {
    match o
    case Completed => ConversationModels.Complete
    case Cancelled => ConversationModels.Cancelled
    case TimedOut => ConversationModels.Interrupted
    case ServingUnavailable => ConversationModels.Failed
  }

  function Count(reported: Option<int>): nat
  {
    if reported.Some? && reported.value >= 0 then reported.value else 0
  }

  function ParseCompletedUsage(frame: Frame): Option<(nat, nat)>
    requires frame.Mapping?
  {
    if frame.usage.None? then None
    else Some((Count(frame.usage.value.inputTokens), Count(frame.usage.value.outputTokens)))
  }

  function DeltaText(frame: Frame): string
    requires frame.Mapping?
  {
    if frame.delta.Some? then frame.delta.value else ""
  }

  // -- what a run of the relay should be ---------------------------------------

  /** The frame itself lets the stream go on: a text delta, or one to be ignored. */
  predicate Passes(r: Read)
  {
    r.Yields? && r.frame.Mapping? && r.frame.kind in {DeltaEvent, OtherEvent}
  }

  predicate Completes(r: Read)
  {
    r.Yields? && r.frame.Mapping? && r.frame.kind == CompletedEvent
  }

  function TextOf(r: Read): string
  {
    if r.Yields? && r.frame.Mapping? && r.frame.kind == DeltaEvent then DeltaText(r.frame) else ""
  }

  /** The text of the first `n` frames. */
  function TextBefore(script: Script, n: nat): string
  {
    if n == 0 then "" else TextBefore(script, n - 1) + TextOf(script(n - 1))
  }

  function DeltasBefore(script: Script, n: nat): seq<RelayEvent>
  {
    if n == 0 then []
    else if script(n - 1).Yields? && script(n - 1).frame.Mapping? && script(n - 1).frame.kind == DeltaEvent
    then DeltasBefore(script, n - 1) + [Delta(TextOf(script(n - 1)))]
    else DeltasBefore(script, n - 1)
  }

  /** The stream gets past its n-th read. */
  predicate GoesOn(script: Script, cancel: Schedule, n: nat)
  {
    && !cancel(2 * n) && Passes(script(n)) && !cancel(2 * n + 1)
    && n < MAX_STREAM_EVENTS && |TextBefore(script, n + 1)| <= MAX_OUTPUT_CHARS
  }

  /** How it ends at a read it does not get past. */
  function EndsWith(script: Script, cancel: Schedule, n: nat): StreamOutcome
  {
    if cancel(2 * n) then Cancelled
    else match script(n)
      case RaisesTimeout => TimedOut
      case RaisesUnavailable | RaisesOther => ServingUnavailable
      case Stops => if cancel(2 * n + 1) then Cancelled else ServingUnavailable
      case Yields(frame) =>
        if frame.NotAMapping? || frame.kind == UnhashableType then ServingUnavailable
        else if cancel(2 * n + 1) then Cancelled
        else if n < MAX_STREAM_EVENTS && frame.kind == CompletedEvent then Completed
        else ServingUnavailable
  }

  /** The read at which the stream ends. */
  function EndsAt(script: Script, cancel: Schedule, from: nat): (n: nat)
    requires from <= MAX_STREAM_EVENTS
    ensures from <= n <= MAX_STREAM_EVENTS && !GoesOn(script, cancel, n)
    ensures forall i | from <= i < n :: GoesOn(script, cancel, i)
    decreases MAX_STREAM_EVENTS - from
  {
    if GoesOn(script, cancel, from) then EndsAt(script, cancel, from + 1) else from
  }

  datatype Relayed = Relayed(events: seq<RelayEvent>, outcome: StreamOutcome, text: string,
                             usage: Option<(nat, nat)>, ended: nat, pulled: nat)

  /** Everything a drained relay leaves: its events, and the fields it exposes. */
  function Drained(script: Script, cancel: Schedule): Relayed
  {
    var n := EndsAt(script, cancel, 0);
    var outcome := EndsWith(script, cancel, n);
    Relayed(DeltasBefore(script, n) + [Terminal(outcome)], outcome, TextBefore(script, n),
            if !cancel(2 * n) && Completes(script(n)) then ParseCompletedUsage(script(n).frame) else None,
            n, if cancel(2 * n) then n else n + 1)
  }

  lemma EndStep(script: Script, cancel: Schedule, n: nat)
    requires n <= MAX_STREAM_EVENTS
    ensures EndsAt(script, cancel, n) == if GoesOn(script, cancel, n) then EndsAt(script, cancel, n + 1) else n
  { }

  lemma NextText(script: Script, n: nat)
    ensures TextBefore(script, n + 1) == TextBefore(script, n) + TextOf(script(n))
    ensures DeltasBefore(script, n + 1) == DeltasBefore(script, n)
              + if script(n).Yields? && script(n).frame.Mapping? && script(n).frame.kind == DeltaEvent
                then [Delta(TextOf(script(n)))] else []
  { }

  lemma NothingYet(script: Script)
    ensures Joined([]) == TextBefore(script, 0) == "" && DeltasBefore(script, 0) == []
  { }

  /** A stream that goes on stays within both limits, and its read passed. */
  lemma EndIsBounded(script: Script, cancel: Schedule, n: nat)
    ensures GoesOn(script, cancel, n) ==>
              n < MAX_STREAM_EVENTS && |TextBefore(script, n + 1)| <= MAX_OUTPUT_CHARS
              && script(n).Yields? && script(n).frame.Mapping? && script(n).frame.kind in {DeltaEvent, OtherEvent}
  { }

  // -- the relay -----------------------------------------------------------------

  datatype Interpretation = Ignore | Emit(text: string) | Settle(outcome: StreamOutcome) | Raise

  class ChatStreamRelay {
    var outcome: Option<StreamOutcome>
    var parts: seq<string>
    var chars: nat
    var usageTokens: Option<(nat, nat)>

    constructor ()
      ensures Fresh()
    {
      outcome, parts, chars, usageTokens := None, [], 0, None;
    }

    predicate Fresh()
      reads this
    {
      outcome.None? && parts == [] && chars == 0 && usageTokens.None?
    }

    function PartialText(): string
      reads this
    {
      Joined(parts)
    }

    method RecordDelta(text: string) returns (ok: bool)
      modifies this`parts, this`chars
      ensures ok == (old(chars) + |text| <= MAX_OUTPUT_CHARS)
      ensures parts == if ok then old(parts) + [text] else old(parts)
      ensures chars == if ok then old(chars) + |text| else old(chars)
    {
      if chars + |text| > MAX_OUTPUT_CHARS { return false; }
      parts, chars := parts + [text], chars + |text|;
      return true;
    }

    method Interpret(frame: Frame) returns (r: Interpretation)
      modifies this`usageTokens
      ensures r == if frame.NotAMapping? || frame.kind == UnhashableType then Raise
                   else match frame.kind
                     case DeltaEvent => Emit(DeltaText(frame))
                     case CompletedEvent => Settle(Completed)
                     case FailureEvent => Settle(ServingUnavailable)
                     case _ => Ignore
      ensures usageTokens == if frame.Mapping? && frame.kind == CompletedEvent then ParseCompletedUsage(frame)
                             else old(usageTokens)
    {
      if frame.NotAMapping? { return Raise; }
      match frame.kind
      case DeltaEvent => return Emit(DeltaText(frame));
      case CompletedEvent =>
        usageTokens := ParseCompletedUsage(frame);
        return Settle(Completed);
      case FailureEvent => return Settle(ServingUnavailable);
      case UnhashableType => return Raise;
      case OtherEvent => return Ignore;
    }

    /** One turn of the relay's loop: the n-th read and what becomes of it.  The
        outcome stays open exactly when the stream goes on. */
    method ReadOne(script: Script, cancel: Schedule, n: nat) returns (emitted: Option<string>)
      requires outcome.None? && n <= MAX_STREAM_EVENTS
      requires Joined(parts) == TextBefore(script, n) && chars == |Joined(parts)| <= MAX_OUTPUT_CHARS
      modifies this
      ensures outcome == if GoesOn(script, cancel, n) then None else Some(EndsWith(script, cancel, n))
      ensures usageTokens == if !cancel(2 * n) && Completes(script(n)) then ParseCompletedUsage(script(n).frame)
                             else old(usageTokens)
      ensures emitted == if GoesOn(script, cancel, n) && script(n).frame.kind == DeltaEvent then Some(TextOf(script(n))) else None
      ensures parts == if emitted.Some? then old(parts) + [emitted.value] else old(parts)
      ensures chars == old(chars) + if emitted.Some? then |emitted.value| else 0
    {
      hide Joined, TextBefore, DeltasBefore;
      emitted := None;
      if cancel(2 * n) { outcome := Some(Cancelled); return; }
      var read := script(n);
      if read.Stops? {
        outcome := Some(if cancel(2 * n + 1) then Cancelled else ServingUnavailable);
        return;
      }
      if read.RaisesTimeout? { outcome := Some(TimedOut); return; }
      if read.RaisesUnavailable? || read.RaisesOther? { outcome := Some(ServingUnavailable); return; }
      var relayed := Interpret(read.frame);
      if relayed.Raise? { outcome := Some(ServingUnavailable); return; }
      if cancel(2 * n + 1) { outcome := Some(Cancelled); return; }
      if n + 1 > MAX_STREAM_EVENTS { outcome := Some(ServingUnavailable); return; }
      NextText(script, n);
      if relayed.Ignore? { return; }
      if relayed.Settle? { outcome := Some(relayed.outcome); return; }
      var ok := RecordDelta(relayed.text);
      if !ok { outcome := Some(ServingUnavailable); return; }
      emitted := Some(relayed.text);
    }

    /** The generator drained: every script stops it after a bounded number of reads,
        and it leaves exactly what `Drained` says. */
    method Stream(script: Script, cancel: Schedule) returns (events: seq<RelayEvent>, pulled: nat)
      requires Fresh()
      modifies this
      ensures outcome.Some?
      ensures Drained(script, cancel)
              == Relayed(events, outcome.value, PartialText(), usageTokens, EndsAt(script, cancel, 0), pulled)
    {
      hide EndsAt, Joined, TextBefore, DeltasBefore, EndsWith, GoesOn;
      events := [];
      var eventsSeen := 0;
      NothingYet(script);
      while true
        invariant 0 <= eventsSeen <= MAX_STREAM_EVENTS
        invariant outcome.None? && usageTokens.None?
        invariant EndsAt(script, cancel, 0) == EndsAt(script, cancel, eventsSeen)
        invariant events == DeltasBefore(script, eventsSeen)
        invariant Joined(parts) == TextBefore(script, eventsSeen) && chars == |Joined(parts)| <= MAX_OUTPUT_CHARS
        decreases MAX_STREAM_EVENTS - eventsSeen
      {
        EndStep(script, cancel, eventsSeen);
        NextText(script, eventsSeen);
        EndIsBounded(script, cancel, eventsSeen);
        ghost var before := parts;
        var emitted := ReadOne(script, cancel, eventsSeen);
        if outcome.Some? { break; }
        if emitted.Some? {
          JoinedAppend(before, emitted.value);
          events := events + [Delta(emitted.value)];
        }
        eventsSeen := eventsSeen + 1;
      }
      pulled := if cancel(2 * eventsSeen) then eventsSeen else eventsSeen + 1;
      events := events + [Terminal(outcome.value)];
    }
  }

  function Joined(parts: seq<string>): string
  {
    if parts == [] then "" else Joined(parts[..|parts| - 1]) + parts[|parts| - 1]
  }

  lemma JoinedAppend(parts: seq<string>, text: string)
    ensures Joined(parts + [text]) == Joined(parts) + text
  {
    assert (parts + [text])[..|parts + [text]| - 1] == parts;
  }

  // -- what follows for every script and schedule ---------------------------------

  function DeltaTexts(events: seq<RelayEvent>): string
  {
    if events == [] then ""
    else DeltaTexts(events[..|events| - 1])
         + match events[|events| - 1] case Delta(text) => text case Terminal(_) => ""
  }

  lemma {:induction false} DeltasCarryText(script: Script, n: nat)
    ensures forall e | e in DeltasBefore(script, n) :: e.Delta?
    ensures DeltaTexts(DeltasBefore(script, n)) == TextBefore(script, n)
  {
    if n > 0 {
      DeltasCarryText(script, n - 1);
      var front, last := DeltasBefore(script, n - 1), Delta(TextOf(script(n - 1)));
      if DeltasBefore(script, n) != front {
        assert DeltasBefore(script, n) == front + [last];
        assert (front + [last])[..|front + [last]| - 1] == front;
      }
    }
  }

  lemma {:induction false} TextGrows(script: Script, a: nat, b: nat)
    requires a <= b
    ensures |TextBefore(script, a)| <= |TextBefore(script, b)|
  {
    if a < b { TextGrows(script, a, b - 1); }
  }

  /** A drained relay emits deltas and then exactly one terminal; the deltas
      concatenate to the partial text, which stays within its limit; and at most
      one read more than the event limit is made. */
  lemma RelayIsBounded(script: Script, cancel: Schedule)
    ensures var d := Drained(script, cancel);
            && d.events != [] && d.events[|d.events| - 1] == Terminal(d.outcome)
            && (forall i :: 0 <= i < |d.events| - 1 ==> d.events[i].Delta?)
            && DeltaTexts(d.events[..|d.events| - 1]) == d.text && |d.text| <= MAX_OUTPUT_CHARS
            && d.pulled <= MAX_STREAM_EVENTS + 1
  {
    var d := Drained(script, cancel);
    var deltas := DeltasBefore(script, d.ended);
    DeltasCarryText(script, d.ended);
    assert d.events[..|d.events| - 1] == deltas;
    forall i | 0 <= i < |d.events| - 1 ensures d.events[i].Delta? { assert d.events[i] in deltas; }
    if d.ended > 0 { assert GoesOn(script, cancel, d.ended - 1); }
  }

  ghost predicate DeltaOrIgnored(r: Read)
  {
    r.Yields? && r.frame.Mapping? && (r.frame.kind == DeltaEvent || r.frame.kind == OtherEvent)
  }

  ghost predicate CompletedFrame(r: Read)
  {
    r.Yields? && r.frame.Mapping? && r.frame.kind == CompletedEvent
  }

  /** The n-th read is come to: nothing but accepted deltas and ignored frames before it,
      both limits kept, and the cancel flag unset at every check before. */
  ghost predicate Reaches(script: Script, cancel: Schedule, n: nat)
  {
    && n <= 10_000 && (forall i: nat :: i < n ==> DeltaOrIgnored(script(i)))
    && |TextBefore(script, n)| <= 100_000 && (n > 0 ==> !cancel(2 * n - 1))
  }

  lemma ReachesEarlier(script: Script, cancel: Schedule, n: nat, i: nat)
    requires Monotone(cancel) && Reaches(script, cancel, n) && i < n
    ensures GoesOn(script, cancel, i)
  {
    assert !cancel(2 * i) && !cancel(2 * i + 1);
    TextGrows(script, i + 1, n);
  }

  lemma {:induction false} ReachedFrom(script: Script, cancel: Schedule, n: nat, i: nat)
    requires Monotone(cancel) && Reaches(script, cancel, n) && i <= n
    ensures EndsAt(script, cancel, i) == EndsAt(script, cancel, n)
    decreases n - i
  {
    EndStep(script, cancel, i);
    hide EndsAt;
    if i < n {
      ReachesEarlier(script, cancel, n, i);
      ReachedFrom(script, cancel, n, i + 1);
    }
  }

  lemma GoneOn(script: Script, cancel: Schedule, i: nat)
    requires GoesOn(script, cancel, i)
    ensures var n := i + 1;
            n <= MAX_STREAM_EVENTS && Passes(script(i)) && |TextBefore(script, n)| <= MAX_OUTPUT_CHARS && !cancel(2 * n - 1)
  { }

  lemma {:induction false} ReachesOn(script: Script, cancel: Schedule, from: nat)
    requires Reaches(script, cancel, from)
    ensures Reaches(script, cancel, EndsAt(script, cancel, from))
    decreases MAX_STREAM_EVENTS - from
  {
    EndStep(script, cancel, from);
    if GoesOn(script, cancel, from) {
      GoneOn(script, cancel, from);
      hide EndsAt, TextBefore, GoesOn, Passes;
      ReachesOn(script, cancel, from + 1);
    }
  }

  lemma EndIsReached(script: Script, cancel: Schedule)
    ensures Reaches(script, cancel, EndsAt(script, cancel, 0))
  {
    hide EndsAt;
    assert TextBefore(script, 0) == "";
    ReachesOn(script, cancel, 0);
  }

  /** A read that is come to and not got past is the last one. */
  lemma ReachedLast(script: Script, cancel: Schedule, n: nat)
    requires Monotone(cancel) && Reaches(script, cancel, n) && !GoesOn(script, cancel, n)
    ensures EndsAt(script, cancel, 0) == n
  {
    ReachedFrom(script, cancel, n, 0);
    EndStep(script, cancel, n);
    hide EndsAt;
  }

  /** A completed frame is read at `n` within the limits, with the cancel flag unset
      at every check so far and nothing but accepted deltas and ignored frames before. */
  ghost predicate CompletesCleanly(script: Script, cancel: Schedule, n: nat)
  {
    && n < 10_000 && CompletedFrame(script(n)) && !cancel(2 * n + 1)
    && (forall i: nat :: i < n ==> DeltaOrIgnored(script(i)))
    && |TextBefore(script, n)| <= 100_000
  }

  /** The outcome is completed exactly when that happens, and then the partial text
      is the text of all the frames before. */
  lemma CompletedExactly(script: Script, cancel: Schedule)
    requires Monotone(cancel)
    ensures Drained(script, cancel).outcome == Completed <==> exists n :: CompletesCleanly(script, cancel, n)
    ensures forall n :: CompletesCleanly(script, cancel, n) ==>
              Drained(script, cancel).ended == n && Drained(script, cancel).text == TextBefore(script, n)
  {
    forall n: nat | CompletesCleanly(script, cancel, n)
      ensures Drained(script, cancel).ended == n && Drained(script, cancel).outcome == Completed
      ensures Drained(script, cancel).text == TextBefore(script, n)
    {
      CleanIsCompleted(script, cancel, n);
    }
    if Drained(script, cancel).outcome == Completed { CompletedIsClean(script, cancel); }
    hide EndsAt, EndsWith, TextBefore, DeltasBefore, CompletesCleanly;
  }

  lemma CleanIsCompleted(script: Script, cancel: Schedule, n: nat)
    requires Monotone(cancel) && CompletesCleanly(script, cancel, n)
    ensures var d := Drained(script, cancel); d.ended == n && d.outcome == Completed && d.text == TextBefore(script, n)
  {
    hide EndsAt, TextBefore, DeltasBefore;
    assert !cancel(2 * n) && (n > 0 ==> !cancel(2 * n - 1));
    ReachedLast(script, cancel, n);
  }

  lemma CompletedIsClean(script: Script, cancel: Schedule)
    requires Drained(script, cancel).outcome == Completed
    ensures CompletesCleanly(script, cancel, Drained(script, cancel).ended)
  {
    hide EndsAt, TextBefore, DeltasBefore;
    EndIsReached(script, cancel);
  }

  predicate RaisesAt(r: Read)
  {
    r.RaisesTimeout? || r.RaisesUnavailable? || r.RaisesOther?
    || (r.Yields? && (r.frame.NotAMapping? || r.frame.kind == UnhashableType))
  }

  /** Some read is come to, and the cancel flag is set at the check before it, or at the
      check after it without the read or the interpretation of its frame raising. */
  ghost predicate CancelsAt(script: Script, cancel: Schedule, n: nat)
  {
    Reaches(script, cancel, n) && (cancel(2 * n) || (cancel(2 * n + 1) && !RaisesAt(script(n))))
  }

  /** Cancel wins over the frame just read and over the end of the stream, but not over
      an exception raised by that read: the outcome is cancelled exactly when this happens. */
  lemma CancelledExactly(script: Script, cancel: Schedule)
    requires Monotone(cancel)
    ensures Drained(script, cancel).outcome == Cancelled <==> exists n :: CancelsAt(script, cancel, n)
  {
    var end := EndsAt(script, cancel, 0);
    EndIsReached(script, cancel);
    if n: nat :| CancelsAt(script, cancel, n) { ReachedLast(script, cancel, n); }
    hide EndsAt, Reaches;
    assert Drained(script, cancel).outcome == Cancelled ==> CancelsAt(script, cancel, end);
  }

  /** The stream ends at the one read it comes to and does not get past. */
  lemma EndsOnlyThere(script: Script, cancel: Schedule, n: nat)
    requires Monotone(cancel) && Reaches(script, cancel, n) && !GoesOn(script, cancel, n)
    ensures Drained(script, cancel).ended == n
  {
    ReachedLast(script, cancel, n);
    hide EndsAt, TextBefore, DeltasBefore;
  }

  ghost predicate TimesOutAt(script: Script, cancel: Schedule, n: nat)
  {
    Reaches(script, cancel, n) && !cancel(2 * n) && script(n).RaisesTimeout?
  }

  /** The outcome is timed out exactly when a read that is come to, and not cancelled before,
      runs into the deadline. */
  lemma TimedOutExactly(script: Script, cancel: Schedule)
    requires Monotone(cancel)
    ensures Drained(script, cancel).outcome == TimedOut <==> exists n :: TimesOutAt(script, cancel, n)
  {
    var end := EndsAt(script, cancel, 0);
    EndIsReached(script, cancel);
    if n: nat :| TimesOutAt(script, cancel, n) { ReachedLast(script, cancel, n); }
    hide EndsAt, Reaches;
    assert Drained(script, cancel).outcome == TimedOut ==> TimesOutAt(script, cancel, end);
  }

  /** A read that is come to and not cancelled before fails, is not understood, or reports a
      failure; or, the flag unset during it, the stream stops, is past the event limit, or
      passes the output limit. */
  ghost predicate FailsAt(script: Script, cancel: Schedule, n: nat)
  {
    && Reaches(script, cancel, n) && !cancel(2 * n)
    && var r := script(n);
       || r.RaisesUnavailable? || r.RaisesOther?
       || (r.Yields? && (r.frame.NotAMapping? || r.frame.kind == UnhashableType))
       || (!cancel(2 * n + 1)
           && (|| r.Stops?
               || (r.Yields? && (|| r.frame.kind == FailureEvent || n == 10_000
                                 || (r.frame.kind == DeltaEvent && |TextBefore(script, n + 1)| > 100_000)))))
  }

  /** The outcome is unavailable exactly when that happens. */
  lemma UnavailableExactly(script: Script, cancel: Schedule)
    requires Monotone(cancel)
    ensures Drained(script, cancel).outcome == ServingUnavailable <==> exists n :: FailsAt(script, cancel, n)
  {
    var end := EndsAt(script, cancel, 0);
    EndIsReached(script, cancel);
    if n: nat :| FailsAt(script, cancel, n) { ReachedLast(script, cancel, n); }
    hide EndsAt, Reaches, TextBefore;
    OtherAddsNothing(script, end);
    assert Drained(script, cancel).outcome == ServingUnavailable ==> FailsAt(script, cancel, end);
  }

  lemma OtherAddsNothing(script: Script, n: nat)
    ensures script(n).Yields? && script(n).frame.Mapping? && script(n).frame.kind != DeltaEvent ==>
              TextBefore(script, n + 1) == TextBefore(script, n)
  { }

  /** The text and the events of a stream are those of its delta frames: each adds its
      string, an empty one if it carries none, and no other frame adds anything. */
  lemma TextIsDeltas(script: Script, n: nat)
    ensures TextBefore(script, 0) == ""
    ensures TextBefore(script, n + 1)
            == TextBefore(script, n)
               + if script(n).Yields? && script(n).frame.Mapping? && script(n).frame.kind == DeltaEvent && script(n).frame.delta.Some?
                 then script(n).frame.delta.value else ""
    ensures DeltasBefore(script, 0) == []
    ensures DeltasBefore(script, n + 1)
            == DeltasBefore(script, n)
               + if script(n).Yields? && script(n).frame.Mapping? && script(n).frame.kind == DeltaEvent
                 then [Delta(if script(n).frame.delta.Some? then script(n).frame.delta.value else "")] else []
  { }

  /** A drained relay leaves the text and the deltas of the reads before the one it ended at,
      and usage only if that one was a completion that carried it. */
  lemma EndsThere(script: Script, cancel: Schedule)
    ensures var d := Drained(script, cancel);
            && Reaches(script, cancel, d.ended) && d.text == TextBefore(script, d.ended)
            && d.events == DeltasBefore(script, d.ended) + [Terminal(d.outcome)]
            && (d.usage.Some? ==> CompletedFrame(script(d.ended)) && script(d.ended).frame.usage.Some? && !cancel(2 * d.ended))
            && d.pulled == if cancel(2 * d.ended) then d.ended else d.ended + 1
  {
    EndIsReached(script, cancel);
    hide EndsAt, Reaches, TextBefore, DeltasBefore, EndsWith;
  }

  /** A stream reports the usage of the completion it ended at: each count as given, or zero
      for one that is negative or no integer; and no usage otherwise. */
  lemma UsageExactly(script: Script, cancel: Schedule, n: nat)
    requires Monotone(cancel) && Reaches(script, cancel, n) && !cancel(2 * n)
    requires CompletedFrame(script(n))
    ensures var d, usage := Drained(script, cancel), script(n).frame.usage;
            && d.ended == n
            && (usage.None? <==> d.usage.None?)
            && (usage.Some? ==>
                  d.usage == Some((if usage.value.inputTokens.Some? && usage.value.inputTokens.value >= 0 then usage.value.inputTokens.value else 0,
                                   if usage.value.outputTokens.Some? && usage.value.outputTokens.value >= 0 then usage.value.outputTokens.value else 0)))
  {
    ReachedLast(script, cancel, n);
    hide EndsAt, Reaches, TextBefore, DeltasBefore, EndsWith;
  }

  /** A completion with usage is come to and read, and the cancel flag is set during that
      read or the read is one past the event limit. */
  ghost predicate LeaksUsageAt(script: Script, cancel: Schedule, n: nat)
  {
    && Reaches(script, cancel, n) && !cancel(2 * n) && CompletedFrame(script(n)) && script(n).frame.usage.Some?
    && (cancel(2 * n + 1) || n == 10_000)
  }

  /** The documentation says only a completed stream reports usage.  The code records
      usage before its check of the cancel flag after the read and before its check of the
      event limit, so the promise fails exactly for these scripts and schedules. */
  lemma UsageWithoutCompletion(script: Script, cancel: Schedule)
    requires Monotone(cancel)
    ensures var d := Drained(script, cancel);
            d.usage.Some? && d.outcome != Completed <==> exists n :: LeaksUsageAt(script, cancel, n)
  {
    var end, d := EndsAt(script, cancel, 0), Drained(script, cancel);
    EndIsReached(script, cancel);
    if n: nat :| LeaksUsageAt(script, cancel, n) { ReachedLast(script, cancel, n); }
    hide EndsAt, Reaches;
    assert d.usage.Some? && d.outcome != Completed ==> LeaksUsageAt(script, cancel, end);
  }

  const COMPLETION_WITH_USAGE := Yields(Mapping(CompletedEvent, None, Some(UsageBlock(Some(3), Some(5)))))
  const IGNORED := Yields(Mapping(OtherEvent, None, None))

  /** Cancelled during the read of its completion. */
  lemma CancelledWithUsage()
    ensures var d := Drained(_ => COMPLETION_WITH_USAGE, check => check >= 1);
            d.outcome == Cancelled && d.usage == Some((3, 5))
  {
    EndStep(_ => COMPLETION_WITH_USAGE, check => check >= 1, 0);
  }

  /** As many ignored frames as a stream may have, and then a completion. */
  function Late(i: nat): Read { if i < MAX_STREAM_EVENTS then IGNORED else COMPLETION_WITH_USAGE }

  function Never(check: nat): bool { false }

  lemma {:induction false} LateText(n: nat)
    requires n <= MAX_STREAM_EVENTS
    ensures TextBefore(Late, n) == ""
  {
    if n > 0 { LateText(n - 1); }
  }

  /** One read past the event limit, never cancelled. */
  lemma OverlimitWithUsage()
    ensures var d := Drained(Late, Never);
            d.outcome == ServingUnavailable && d.usage == Some((3, 5)) && d.pulled == MAX_STREAM_EVENTS + 1
  {
    LateText(MAX_STREAM_EVENTS);
    ReachedLast(Late, Never, MAX_STREAM_EVENTS);
    hide EndsAt, TextBefore, DeltasBefore;
  }
}
