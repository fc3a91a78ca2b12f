/** The live send endpoint (workbench/conversation_api.py) as interleaved steps: any
    number of send streams of any actors, client disconnects, refusals by either store,
    and any other use of the conversation store in between. */
module SendEndpoint {
  import opened Outcomes
  import opened ConversationModels
  import opened ConversationRows
  import opened StoreInvariants
  import opened TurnHistory
  import R = StoreRuns
  import CS = ChatStream
  import SendText

  const MAX_CONCURRENT_STREAMS_PER_ACTOR := 2

  /** The terminal outcome and status of a stream torn down before a terminal. */
  function PartialSettlement(relay: Option<CS.StreamOutcome>): (CS.StreamOutcome, TurnStatus)
  {
    if relay.Some? && relay.value != CS.Completed then (relay.value, CS.TurnStatusOf(relay.value))
    else (CS.StreamOutcome.Cancelled, TurnStatus.Cancelled)
  }

  // -- one stream ----------------------------------------------------------------

  /** Where a stream's code stands.  `Awaiting` covers the pull of the next frame and the
      yield of the last one: both are points where a disconnect can strike. */
  datatype Phase =
    | Opening
    | Awaiting
    | Handling(frame: CS.RelayEvent, seqNo: nat)
    | Committing(outcome: CS.StreamOutcome, seqNo: nat)
    | Closing(status: TurnStatus)
    | Releasing
    | Closed

  datatype Stream = Stream(
    actor: Actor, cid: Id, user: Id, events: seq<CS.RelayEvent>, phase: Phase,
    pulled: nat, nextSeq: nat, text: string, settled: bool, wire: seq<nat>, persisted: seq<TurnStatus>,
    told: Option<CS.StreamOutcome>)

  datatype World = World(store: R.World, slots: map<string, nat>, streams: seq<Stream>)

  function SlotsOf(slots: map<string, nat>, actorId: string): nat
  {
    if actorId in slots then slots[actorId] else 0
  }

  /** `_release_stream_slot` */
  function ReleaseSlot(slots: map<string, nat>, actorId: string): map<string, nat>
  {
    if SlotsOf(slots, actorId) <= 1 then slots - {actorId} else slots[actorId := SlotsOf(slots, actorId) - 1]
  }

  /** `_persist_assistant` */
  function Persisting(s: Stream, id: Id, status: TurnStatus, redact: string -> string, now: int): R.Call
  {
    R.Appending(s.actor, s.cid, id, TurnLineage(Some(s.user), 0, Initial), SendText.AssistantRequest(redact(s.text), status), now)
  }

  function Refused(mac: Fingerprint, rows: Rows, call: R.Call): bool
    requires call.Appending?
  {
    AppendTurn(mac, rows, call.actor, call.cid, call.id, call.lineage, call.q, call.now).result.Err?
  }

  datatype Action =
    | Elsewhere(call: R.Call)
    | Acquire(actor: Actor, cid: Id, user: Id, script: CS.Script, cancel: CS.Schedule)
    | AppendUser(stream: nat, lineage: TurnLineage, q: TurnRequest, now: int, begun: bool)
    | Pull(stream: nat)
    | HandleDelta(stream: nat, accepted: bool, relay: Option<CS.StreamOutcome>)
    | PersistTerminal(stream: nat, id: Id, now: int)
    | CommitTerminal(stream: nat, accepted: bool, relay: Option<CS.StreamOutcome>)
    | Disconnect(stream: nat, relay: Option<CS.StreamOutcome>)
    | PersistPartial(stream: nat, id: Id, now: int)
    | Release(stream: nat)

  function With(w: World, i: nat, s: Stream): World
    requires i < |w.streams|
  {
    w.(streams := w.streams[i := s])
  }

  /** What `finally` starts with: a settled stream only gives its slot back. */
  function TornDown(s: Stream, relay: Option<CS.StreamOutcome>): Stream
  {
    s.(phase := if s.settled then Releasing else Closing(PartialSettlement(relay).1))
  }

  function AppendingUser(mac: Fingerprint, w: World, i: nat, lineage: TurnLineage, q: TurnRequest, now: int, begun: bool): World
    requires i < |w.streams|
  {
    var s := w.streams[i];
    var call := R.Appending(s.actor, s.cid, s.user, lineage, q, now);
    var store := R.Step(mac, w.store, call);
    if Refused(mac, w.store.rows, call) || !begun
    then World(store, ReleaseSlot(w.slots, s.actor.actorId), w.streams[i := s.(phase := Closed)])
    else World(store, w.slots, w.streams[i := s.(phase := Awaiting)])
  }

  /** The assistant turn is persisted before the lifecycle is advanced; if the store
      refuses it, the terminal is reported as unavailable instead. */
  function PersistingTerminal(mac: Fingerprint, redact: string -> string, w: World, i: nat, id: Id, now: int): World
    requires i < |w.streams| && w.streams[i].phase.Handling? && w.streams[i].phase.frame.Terminal?
  {
    var s := w.streams[i];
    var outcome := s.phase.frame.outcome;
    var call := Persisting(s, id, CS.TurnStatusOf(outcome), redact, now);
    var stored := !Refused(mac, w.store.rows, call);
    World(R.Step(mac, w.store, call), w.slots,
          w.streams[i := s.(
            phase := Committing(if stored then outcome else CS.ServingUnavailable, s.phase.seqNo),
            persisted := if stored then s.persisted + [CS.TurnStatusOf(outcome)] else s.persisted)])
  }

  function PersistingPartial(mac: Fingerprint, redact: string -> string, w: World, i: nat, id: Id, now: int): World
    requires i < |w.streams| && w.streams[i].phase.Closing?
  {
    var s := w.streams[i];
    var call := Persisting(s, id, s.phase.status, redact, now);
    World(R.Step(mac, w.store, call), w.slots,
          w.streams[i := s.(
            phase := Releasing,
            persisted := if Refused(mac, w.store.rows, call) then s.persisted else s.persisted + [s.phase.status])])
  }

  function StepStream(mac: Fingerprint, redact: string -> string, w: World, i: nat, a: Action): World
    requires i < |w.streams|
  {
    var s := w.streams[i];
    match a
    case AppendUser(_, lineage, q, now, begun) =>
      if s.phase.Opening? then AppendingUser(mac, w, i, lineage, q, now, begun) else w
    case Pull(_) =>
      if !s.phase.Awaiting? then w
      else if s.pulled < |s.events| then
        With(w, i, s.(phase := Handling(s.events[s.pulled], s.nextSeq), pulled := s.pulled + 1, nextSeq := s.nextSeq + 1))
      else With(w, i, TornDown(s, None))
    case HandleDelta(_, accepted, relay) =>
      if !(s.phase.Handling? && s.phase.frame.Delta?) then w
      else if !accepted then With(w, i, TornDown(s, relay))
      else With(w, i, s.(phase := Awaiting, text := s.text + s.phase.frame.text, wire := s.wire + [s.phase.seqNo]))
    case PersistTerminal(_, id, now) =>
      if s.phase.Handling? && s.phase.frame.Terminal? then PersistingTerminal(mac, redact, w, i, id, now) else w
    case CommitTerminal(_, accepted, relay) =>
      if !s.phase.Committing? then w
      else if !accepted then With(w, i, TornDown(s, relay))
      else With(w, i, s.(phase := Awaiting, settled := true, wire := s.wire + [s.phase.seqNo], told := Some(s.phase.outcome)))
    case Disconnect(_, relay) =>
      if s.phase.Awaiting? then With(w, i, TornDown(s, relay)) else w
    case PersistPartial(_, id, now) =>
      if s.phase.Closing? then PersistingPartial(mac, redact, w, i, id, now) else w
    case Release(_) =>
      if s.phase.Releasing? then World(w.store, ReleaseSlot(w.slots, s.actor.actorId), w.streams[i := s.(phase := Closed)])
      else w
    case _ => w
  }

  function Step(mac: Fingerprint, redact: string -> string, w: World, a: Action): World
  {
    match a
    case Elsewhere(call) => w.(store := R.Step(mac, w.store, call))
    case Acquire(actor, cid, user, script, cancel) =>
      if SlotsOf(w.slots, actor.actorId) >= MAX_CONCURRENT_STREAMS_PER_ACTOR then w
      else World(w.store, w.slots[actor.actorId := SlotsOf(w.slots, actor.actorId) + 1],
                 w.streams + [Stream(actor, cid, user, CS.Drained(script, cancel).events, Opening, 0, 1, "", false, [], [], None)])
    case _ => if a.stream < |w.streams| then StepStream(mac, redact, w, a.stream, a) else w
  }

  /** New conversations get ids never handed out before; nothing else is asked. */
  predicate Enabled(w: World, a: Action)
  {
    a.Elsewhere? ==> R.Enabled(w.store, a.call)
  }

  function Run(mac: Fingerprint, redact: string -> string, w: World, actions: seq<Action>): World
    decreases |actions|
  {
    if actions == [] then w else Run(mac, redact, Step(mac, redact, w, actions[0]), actions[1..])
  }

  predicate Possible(mac: Fingerprint, redact: string -> string, w: World, actions: seq<Action>)
    decreases |actions|
  {
    actions == [] || (Enabled(w, actions[0]) && Possible(mac, redact, Step(mac, redact, w, actions[0]), actions[1..]))
  }

  // -- the invariant -----------------------------------------------------------------

  /** The first place below the user turn is taken, or the history is gone for good. */
  ghost predicate Taken(store: R.World, cid: Id, user: Id)
  {
    cid in store.used && (cid in store.rows.turns ==> PlaceTaken(store.rows.turns[cid], user))
  }

  /** The answer below a user turn: an assistant turn at its first place with this status,
      holding these blocks until it is purged. */
  predicate Answers(t: Turn, user: Id, status: TurnStatus, blocks: seq<ContentBlock>)
  {
    && t.lineage == TurnLineage(Some(user), 0, Initial) && t.role == Assistant && t.mode == Ordinary && t.status == status
    && t.voice == [] && t.redaction.status == Redacted
    && if t.purged then t.content == [] else t.content == blocks
  }

  ghost predicate HasAnswer(turns: seq<Turn>, user: Id, status: TurnStatus, blocks: seq<ContentBlock>)
  {
    exists k :: 0 <= k < |turns| && Answers(turns[k], user, status, blocks)
  }

  /** The answer is stored, or the history is gone for good. */
  ghost predicate Answered(store: R.World, cid: Id, user: Id, status: TurnStatus, blocks: seq<ContentBlock>)
  {
    && cid in store.used && ConversationModels.Terminal(status)
    && (cid in store.rows.turns ==> HasAnswer(store.rows.turns[cid], user, status, blocks))
  }

  ghost predicate PlaceTaken(turns: seq<Turn>, user: Id)
  {
    exists k :: 0 <= k < |turns| && turns[k].lineage.parent == Some(user) && turns[k].lineage.sibling == 0
  }

  predicate Counts(wire: seq<nat>)
  {
    forall k | 0 <= k < |wire| :: wire[k] == k + 1
  }

  predicate WireOk(s: Stream)
  {
    && Counts(s.wire)
    && match s.phase
       case Opening | Awaiting => s.nextSeq == |s.wire| + 1
       case Handling(_, seqNo) => seqNo == |s.wire| + 1 && s.nextSeq == seqNo + 1
       case Committing(_, seqNo) => seqNo == |s.wire| + 1 && s.nextSeq == seqNo + 1
       case _ => true
  }

  /** A completed terminal is among the frames pulled so far. */
  predicate PulledCompleted(s: Stream)
  {
    exists k | 0 <= k < s.pulled && k < |s.events| :: s.events[k] == CS.Terminal(CS.Completed)
  }

  predicate PersistedOk(s: Stream)
  {
    && |s.persisted| <= 1
    && (Complete in s.persisted ==> PulledCompleted(s))
    && (s.persisted != [] && !s.settled ==> s.phase.Committing? || s.phase.Closing? || s.phase.Releasing? || s.phase.Closed?)
    && (s.phase.Opening? ==> s.persisted == [] && !s.settled)
    && (s.phase.Handling? || s.phase.Committing? || s.phase.Closing? ==> !s.settled)
    && (s.phase.Handling? ==> s.persisted == [] && 0 < s.pulled <= |s.events| && s.events[s.pulled - 1] == s.phase.frame)
    && (s.phase.Closing? ==> s.phase.status != Complete && ConversationModels.Terminal(s.phase.status))
    && (s.settled ==> s.pulled == |s.events|)
    && (s.phase.Committing? ==> s.pulled == |s.events|)
    && s.events != [] && (forall k | 0 <= k < |s.events| :: s.events[k].Terminal? <==> k == |s.events| - 1)
    && (s.phase.Committing? ==> Reported(s, s.phase.outcome))
    && (s.told.Some? ==> s.settled && Reported(s, s.told.value))
    && (s.settled ==> s.told.Some?)
  }

  /** An outcome the client may be told: the terminal's own, with the answer stored at its
      status; or unavailable, when the answer could not be stored. */
  predicate Reported(s: Stream, outcome: CS.StreamOutcome)
  {
    if s.persisted == [] then outcome == CS.ServingUnavailable
    else s.events != [] && s.events[|s.events| - 1] == CS.Terminal(outcome) && s.persisted == [CS.TurnStatusOf(outcome)]
  }

  /** The text of the first `n` frames. */
  function Heard(events: seq<CS.RelayEvent>, n: nat): string
    requires n <= |events|
  {
    CS.DeltaTexts(events[..n])
  }

  lemma HeardNext(events: seq<CS.RelayEvent>, n: nat)
    requires n < |events|
    ensures Heard(events, n + 1) == Heard(events, n) + if events[n].Delta? then events[n].text else ""
  {
    assert events[..n + 1][..n] == events[..n];
  }

  /** The text so far is that of the frames written on the wire, and a stream that persisted
      a complete answer has the text of all its frames. */
  predicate TextOk(s: Stream)
  {
    && |s.wire| <= s.pulled <= |s.events|
    && (match s.phase
        case Opening | Awaiting => s.pulled == |s.wire|
        case Handling(_, _) | Committing(_, _) => s.pulled == |s.wire| + 1
        case _ => true)
    && s.text == Heard(s.events, |s.wire|)
    && (Complete in s.persisted ==> s.text == Heard(s.events, |s.events|))
  }

  ghost predicate StreamOk(redact: string -> string, store: R.World, s: Stream)
  {
    && WireOk(s) && PersistedOk(s) && TextOk(s)
    && (s.persisted != [] ==> Answered(store, s.cid, s.user, s.persisted[0], SendText.ContentBlocks(redact(s.text))))
  }

  predicate Alive(s: Stream) { !s.phase.Closed? }

  function LiveStreams(streams: seq<Stream>, actorId: string): nat
  {
    if streams == [] then 0
    else LiveStreams(streams[..|streams| - 1], actorId)
         + if Alive(streams[|streams| - 1]) && streams[|streams| - 1].actor.actorId == actorId then 1 else 0
  }

  ghost predicate SlotsOk(w: World)
  {
    forall actorId ::
      SlotsOf(w.slots, actorId) == LiveStreams(w.streams, actorId) <= MAX_CONCURRENT_STREAMS_PER_ACTOR
  }

  ghost predicate Inv(mac: Fingerprint, redact: string -> string, w: World)
  {
    && R.Sane(mac, w.store) && SlotsOk(w)
    && forall i | 0 <= i < |w.streams| :: StreamOk(redact, w.store, w.streams[i])
  }

  // -- what the conversation store guarantees -------------------------------------------

  lemma AnsweredStays(store: R.World, store': R.World, cid: Id, user: Id, status: TurnStatus, blocks: seq<ContentBlock>)
    requires Since(store, store') && Answered(store, cid, user, status, blocks)
    ensures Answered(store', cid, user, status, blocks)
  {
    hide RecordEvolves;
    if cid in store'.rows.turns {
      var a, b := store.rows.turns[cid], store'.rows.turns[cid];
      var k :| 0 <= k < |a| && Answers(a[k], user, status, blocks);
      assert Evolves(a[k], b[k]);
      assert Answers(b[k], user, status, blocks);
    }
  }

  lemma AnsweredTakes(store: R.World, cid: Id, user: Id, status: TurnStatus, blocks: seq<ContentBlock>)
    requires Answered(store, cid, user, status, blocks)
    ensures Taken(store, cid, user)
  {
    if cid in store.rows.turns {
      var turns := store.rows.turns[cid];
      var k :| 0 <= k < |turns| && Answers(turns[k], user, status, blocks);
    }
  }

  lemma StoreStep(mac: Fingerprint, store: R.World, call: R.Call)
    requires R.Sane(mac, store) && R.Enabled(store, call)
    ensures R.Sane(mac, R.Step(mac, store, call)) && Since(store, R.Step(mac, store, call))
  {
    StepKeeps(mac, store, call);
  }

  lemma AppendAnswers(mac: Fingerprint, store: R.World, call: R.Call)
    requires R.Sane(mac, store) && call.Appending? && call.lineage.parent.Some? && call.lineage.sibling == 0
    requires call.lineage.kind == Initial && call.q.role == Assistant && call.q.mode == Ordinary && call.q.voice == []
    requires !Refused(mac, store.rows, call) && call.q.redaction.status == Redacted && ConversationModels.Terminal(call.q.status)
    ensures Answered(R.Step(mac, store, call), call.cid, call.lineage.parent.value, call.q.status, call.q.content)
  {
    hide WellFormed, AppendTurn, GateVerdict, TurnOk, UniverseOf, HistoryOk, RecordFits, ConversationOk;
    AppendFacts(mac, store.rows, call.actor, call.cid, call.id, call.lineage, call.q, call.now);
    R.StoredFits(mac, store.rows, call.cid);
    var after := R.Step(mac, store, call);
    var turns := after.rows.turns[call.cid];
    assert Answers(turns[|turns| - 1], call.lineage.parent.value, call.q.status, call.q.content);
  }

  /** A second append at a place already taken below the user turn is always refused:
      by the gate, or because the conversation is gone. */
  lemma SecondRefused(mac: Fingerprint, store: R.World, call: R.Call, user: Id)
    requires R.Sane(mac, store) && call.Appending? && Taken(store, call.cid, user)
    requires call.lineage.parent == Some(user) && call.lineage.sibling == 0
    ensures Refused(mac, store.rows, call)
  {
    if Owns(store.rows, call.actor, call.cid) {
      R.StoredFits(mac, store.rows, call.cid);
      hide WellFormed, GateVerdict, TurnOk, UniverseOf, HistoryOk, RecordFits;
      PlaceNotFree(store.rows.turns[call.cid], user);
      GateOverStoredRows(mac, store.rows, call.actor, call.cid,
                         MakeTurn(mac, call.cid, call.id, call.lineage, call.q, call.now));
    } else {
      hide WellFormed, GateVerdict, TurnOk, UniverseOf;
    }
  }

  lemma PlaceNotFree(turns: seq<Turn>, user: Id)
    requires PlaceTaken(turns, user)
    ensures !SiblingFree(turns, Some(user), 0)
  {
    var k :| 0 <= k < |turns| && turns[k].lineage.parent == Some(user) && turns[k].lineage.sibling == 0;
    assert turns[k] in turns;
  }

  // -- slots -----------------------------------------------------------------------------

  function Weight(s: Stream, actorId: string): nat
  {
    if Alive(s) && s.actor.actorId == actorId then 1 else 0
  }

  lemma {:induction false} LiveAt(streams: seq<Stream>, i: nat, s: Stream, actorId: string)
    requires i < |streams|
    ensures LiveStreams(streams[i := s], actorId) == LiveStreams(streams, actorId) - Weight(streams[i], actorId) + Weight(s, actorId)
  {
    var front := streams[..|streams| - 1];
    if i == |streams| - 1 {
      assert streams[i := s][..|streams| - 1] == front;
    } else {
      LiveAt(front, i, s, actorId);
      assert streams[i := s][..|streams| - 1] == front[i := s];
    }
  }

  lemma SlotsKept(w: World, w': World, i: nat)
    requires SlotsOk(w) && i < |w.streams| && |w'.streams| == |w.streams| && w'.streams == w.streams[i := w'.streams[i]]
    requires w'.slots == w.slots && Alive(w'.streams[i]) == Alive(w.streams[i]) && w'.streams[i].actor == w.streams[i].actor
    ensures SlotsOk(w')
  {
    forall actorId
      ensures SlotsOf(w'.slots, actorId) == LiveStreams(w'.streams, actorId) <= MAX_CONCURRENT_STREAMS_PER_ACTOR
    {
      LiveAt(w.streams, i, w'.streams[i], actorId);
    }
  }

  lemma SlotReleased(w: World, w': World, i: nat)
    requires SlotsOk(w) && i < |w.streams| && |w'.streams| == |w.streams| && w'.streams == w.streams[i := w'.streams[i]]
    requires Alive(w.streams[i]) && !Alive(w'.streams[i])
    requires w'.slots == ReleaseSlot(w.slots, w.streams[i].actor.actorId)
    ensures SlotsOk(w')
  {
    forall actorId
      ensures SlotsOf(w'.slots, actorId) == LiveStreams(w'.streams, actorId) <= MAX_CONCURRENT_STREAMS_PER_ACTOR
    {
      LiveAt(w.streams, i, w'.streams[i], actorId);
    }
  }

  lemma SlotAcquired(w: World, w': World, s: Stream)
    requires SlotsOk(w) && w'.streams == w.streams + [s] && Alive(s)
    requires SlotsOf(w.slots, s.actor.actorId) < MAX_CONCURRENT_STREAMS_PER_ACTOR
    requires w'.slots == w.slots[s.actor.actorId := SlotsOf(w.slots, s.actor.actorId) + 1]
    ensures SlotsOk(w')
  {
    assert (w.streams + [s])[..|w.streams|] == w.streams;
  }

  // -- every step keeps the invariant ------------------------------------------------------

  predicate AppendsBy(mac: Fingerprint, store: R.World, store': R.World, call: R.Call)
  {
    call.Appending? && store' == R.Step(mac, store, call)
  }

  /** What a step of one stream does: it touches that stream, and it uses the store by
      at most one append. */
  ghost predicate Moves(mac: Fingerprint, w: World, w': World, i: nat)
    requires i < |w.streams|
  {
    && |w'.streams| == |w.streams| && w'.streams == w.streams[i := w'.streams[i]]
    && w'.streams[i].actor == w.streams[i].actor
    && (w'.store == w.store || exists call: R.Call :: AppendsBy(mac, w.store, w'.store, call))
    && (if Alive(w'.streams[i]) || !Alive(w.streams[i]) then w'.slots == w.slots && Alive(w'.streams[i]) == Alive(w.streams[i])
        else w'.slots == ReleaseSlot(w.slots, w.streams[i].actor.actorId))
  }

  lemma StepMoves(mac: Fingerprint, redact: string -> string, w: World, i: nat, a: Action)
    requires i < |w.streams|
    ensures Moves(mac, w, StepStream(mac, redact, w, i, a), i)
  {
    hide R.Step, Refused, ReleaseSlot, PartialSettlement, SendText.AssistantRequest;
    var s := w.streams[i];
    var w' := StepStream(mac, redact, w, i, a);
    match a
    case AppendUser(_, lineage, q, now, begun) =>
      if s.phase.Opening? {
        assert AppendsBy(mac, w.store, w'.store, R.Appending(s.actor, s.cid, s.user, lineage, q, now));
      }
    case PersistTerminal(_, id, now) =>
      if s.phase.Handling? && s.phase.frame.Terminal? {
        assert AppendsBy(mac, w.store, w'.store, Persisting(s, id, CS.TurnStatusOf(s.phase.frame.outcome), redact, now));
      }
    case PersistPartial(_, id, now) =>
      if s.phase.Closing? {
        assert AppendsBy(mac, w.store, w'.store, Persisting(s, id, s.phase.status, redact, now));
      }
    case _ =>
  }

  // every step of one stream keeps what is known of it

  lemma TornDownOk(redact: string -> string, store: R.World, s: Stream, relay: Option<CS.StreamOutcome>)
    requires StreamOk(redact, store, s) && (s.phase.Awaiting? || s.phase.Handling? || s.phase.Committing?)
    ensures StreamOk(redact, store, TornDown(s, relay))
  {
    PartialNeverComplete(relay);
    hide Answered, Counts, PartialSettlement, Heard;
  }

  lemma PulledOk(redact: string -> string, store: R.World, s: Stream)
    requires StreamOk(redact, store, s) && s.phase.Awaiting? && s.pulled < |s.events|
    ensures StreamOk(redact, store, s.(phase := Handling(s.events[s.pulled], s.nextSeq), pulled := s.pulled + 1, nextSeq := s.nextSeq + 1))
  {
    hide Answered, Counts, Heard;
  }

  lemma HandledOk(redact: string -> string, store: R.World, s: Stream)
    requires StreamOk(redact, store, s) && s.phase.Handling? && s.phase.frame.Delta?
    ensures StreamOk(redact, store, s.(phase := Awaiting, text := s.text + s.phase.frame.text, wire := s.wire + [s.phase.seqNo]))
  {
    HeardNext(s.events, s.pulled - 1);
    hide Answered, Heard;
  }

  lemma CommittedOk(redact: string -> string, store: R.World, s: Stream)
    requires StreamOk(redact, store, s) && s.phase.Committing?
    ensures StreamOk(redact, store, s.(phase := Awaiting, settled := true, wire := s.wire + [s.phase.seqNo], told := Some(s.phase.outcome)))
  {
    HeardNext(s.events, s.pulled - 1);
    hide Answered, Heard;
  }

  lemma ClosedOk(redact: string -> string, store: R.World, s: Stream)
    requires StreamOk(redact, store, s) && s.phase.Releasing?
    ensures StreamOk(redact, store, s.(phase := Closed))
  {
    hide Answered, Counts, Heard;
  }

  lemma OpenedOk(redact: string -> string, store: R.World, store': R.World, s: Stream, phase: Phase)
    requires StreamOk(redact, store, s) && s.phase.Opening? && (phase.Awaiting? || phase.Closed?)
    ensures StreamOk(redact, store', s.(phase := phase))
  {
    hide Answered, Counts, Heard;
  }

  lemma StepStreamOk(mac: Fingerprint, redact: string -> string, w: World, i: nat, a: Action)
    requires i < |w.streams| && R.Sane(mac, w.store) && StreamOk(redact, w.store, w.streams[i])
    ensures StreamOk(redact, StepStream(mac, redact, w, i, a).store, StepStream(mac, redact, w, i, a).streams[i])
  {
    hide StreamOk, R.Sane, StepStream;
    match a
    case Pull(_) => FrameStepOk(mac, redact, w, i, a);
    case HandleDelta(_, _, _) => FrameStepOk(mac, redact, w, i, a);
    case CommitTerminal(_, _, _) => FrameStepOk(mac, redact, w, i, a);
    case Disconnect(_, _) => FrameStepOk(mac, redact, w, i, a);
    case _ => WriteStepOk(mac, redact, w, i, a);
  }

  /** The steps that pull a frame, hand it on or tear the body down. */
  lemma FrameStepOk(mac: Fingerprint, redact: string -> string, w: World, i: nat, a: Action)
    requires i < |w.streams| && StreamOk(redact, w.store, w.streams[i])
    requires a.Pull? || a.HandleDelta? || a.CommitTerminal? || a.Disconnect?
    ensures StreamOk(redact, StepStream(mac, redact, w, i, a).store, StepStream(mac, redact, w, i, a).streams[i])
  {
    var s := w.streams[i];
    hide StreamOk, TornDown, R.Step, Refused, ReleaseSlot, PersistingTerminal, PersistingPartial;
    match a
    case Pull(_) =>
      if s.phase.Awaiting? { if s.pulled < |s.events| { PulledOk(redact, w.store, s); } else { TornDownOk(redact, w.store, s, None); } }
    case HandleDelta(_, accepted, relay) =>
      if s.phase.Handling? && s.phase.frame.Delta? { HandledOk(redact, w.store, s); TornDownOk(redact, w.store, s, relay); }
    case CommitTerminal(_, accepted, relay) =>
      if s.phase.Committing? { CommittedOk(redact, w.store, s); TornDownOk(redact, w.store, s, relay); }
    case Disconnect(_, relay) =>
      if s.phase.Awaiting? { TornDownOk(redact, w.store, s, relay); }
  }

  /** The steps that write to the store, and the release of the slot. */
  lemma WriteStepOk(mac: Fingerprint, redact: string -> string, w: World, i: nat, a: Action)
    requires i < |w.streams| && R.Sane(mac, w.store) && StreamOk(redact, w.store, w.streams[i])
    requires !a.Pull? && !a.HandleDelta? && !a.CommitTerminal? && !a.Disconnect?
    ensures StreamOk(redact, StepStream(mac, redact, w, i, a).store, StepStream(mac, redact, w, i, a).streams[i])
  {
    var s := w.streams[i];
    hide StreamOk, TornDown, R.Step, Refused, ReleaseSlot, R.Sane, PersistingTerminal, PersistingPartial;
    match a
    case AppendUser(_, lineage, q, now, begun) =>
      if s.phase.Opening? {
        var store := R.Step(mac, w.store, R.Appending(s.actor, s.cid, s.user, lineage, q, now));
        OpenedOk(redact, w.store, store, s, Awaiting);
        OpenedOk(redact, w.store, store, s, Closed);
      }
    case PersistTerminal(_, id, now) =>
      if s.phase.Handling? && s.phase.frame.Terminal? { PersistedTerminal(mac, redact, w, i, id, now); }
    case PersistPartial(_, id, now) =>
      if s.phase.Closing? { PersistedPartial(mac, redact, w, i, id, now); }
    case Release(_) =>
      if s.phase.Releasing? { ClosedOk(redact, w.store, s); }
    case _ =>
  }

  lemma PartialNeverComplete(relay: Option<CS.StreamOutcome>)
    ensures PartialSettlement(relay).1 != Complete && ConversationModels.Terminal(PartialSettlement(relay).1)
  { }

  /** What a stream torn down before its terminal was handled settles at: the outcome the relay
      had come to, unless that was a completion nobody has been told; else cancelled. */
  lemma PartialTells(relay: Option<CS.StreamOutcome>)
    ensures PartialSettlement(relay)
            == if relay == Some(CS.TimedOut) then (CS.StreamOutcome.TimedOut, Interrupted)
               else if relay == Some(CS.ServingUnavailable) then (CS.StreamOutcome.ServingUnavailable, Failed)
               else (CS.StreamOutcome.Cancelled, TurnStatus.Cancelled)
  { }

  lemma PersistedTerminal(mac: Fingerprint, redact: string -> string, w: World, i: nat, id: Id, now: int)
    requires i < |w.streams| && R.Sane(mac, w.store) && StreamOk(redact, w.store, w.streams[i])
    requires w.streams[i].phase.Handling? && w.streams[i].phase.frame.Terminal?
    ensures StreamOk(redact, PersistingTerminal(mac, redact, w, i, id, now).store, PersistingTerminal(mac, redact, w, i, id, now).streams[i])
  {
    hide R.Step, Refused, R.Sane, Answered, Heard, SendText.ContentBlocks;
    var s := w.streams[i];
    var call := Persisting(s, id, CS.TurnStatusOf(s.phase.frame.outcome), redact, now);
    HeardNext(s.events, s.pulled - 1);
    if !Refused(mac, w.store.rows, call) { AppendAnswers(mac, w.store, call); }
  }

  lemma PersistedPartial(mac: Fingerprint, redact: string -> string, w: World, i: nat, id: Id, now: int)
    requires i < |w.streams| && R.Sane(mac, w.store) && StreamOk(redact, w.store, w.streams[i]) && w.streams[i].phase.Closing?
    ensures StreamOk(redact, PersistingPartial(mac, redact, w, i, id, now).store, PersistingPartial(mac, redact, w, i, id, now).streams[i])
  {
    hide R.Step, Refused, R.Sane, Answered, Taken, Since, Heard, SendText.ContentBlocks;
    var s := w.streams[i];
    var call := Persisting(s, id, s.phase.status, redact, now);
    if !Refused(mac, w.store.rows, call) { AppendAnswers(mac, w.store, call); }
    if s.persisted != [] {
      var blocks := SendText.ContentBlocks(redact(s.text));
      AnsweredTakes(w.store, s.cid, s.user, s.persisted[0], blocks);
      SecondRefused(mac, w.store, call, s.user);
      StoreStep(mac, w.store, call);
      AnsweredStays(w.store, R.Step(mac, w.store, call), s.cid, s.user, s.persisted[0], blocks);
    }
  }

  lemma OthersOk(redact: string -> string, store: R.World, store': R.World, s: Stream)
    requires StreamOk(redact, store, s) && Since(store, store')
    ensures StreamOk(redact, store', s)
  {
    hide Since, Answered, WireOk, PersistedOk, TextOk;
    if s.persisted != [] {
      AnsweredStays(store, store', s.cid, s.user, s.persisted[0], SendText.ContentBlocks(redact(s.text)));
    }
  }

  lemma StoreSelf(mac: Fingerprint, store: R.World)
    requires R.Sane(mac, store)
    ensures Since(store, store)
  {
    KeysCovered(mac, store.rows);
    SinceSelf(store);
  }

  lemma OneStreamStep(mac: Fingerprint, redact: string -> string, w: World, i: nat, a: Action)
    requires i < |w.streams| && Inv(mac, redact, w)
    ensures Inv(mac, redact, StepStream(mac, redact, w, i, a))
  {
    hide StepStream, R.Sane, Since, StreamOk, SlotsOk, R.Step, ReleaseSlot;
    var w' := StepStream(mac, redact, w, i, a);
    StepMoves(mac, redact, w, i, a);
    StepStreamOk(mac, redact, w, i, a);
    if w'.store == w.store {
      StoreSelf(mac, w.store);
    } else {
      var call: R.Call :| AppendsBy(mac, w.store, w'.store, call);
      StoreStep(mac, w.store, call);
    }
    if Alive(w'.streams[i]) || !Alive(w.streams[i]) { SlotsKept(w, w', i); } else { SlotReleased(w, w', i); }
    forall j | 0 <= j < |w'.streams| ensures StreamOk(redact, w'.store, w'.streams[j]) {
      if j != i {
        assert w'.streams[j] == w.streams[j];
        OthersOk(redact, w.store, w'.store, w.streams[j]);
      }
    }
  }

  lemma EventsShape(script: CS.Script, cancel: CS.Schedule)
    ensures var events := CS.Drained(script, cancel).events;
            events != [] && forall k | 0 <= k < |events| :: events[k].Terminal? <==> k == |events| - 1
  {
    CS.RelayIsBounded(script, cancel);
    hide CS.Drained;
  }

  lemma StepInv(mac: Fingerprint, redact: string -> string, w: World, a: Action)
    requires Inv(mac, redact, w) && Enabled(w, a)
    ensures Inv(mac, redact, Step(mac, redact, w, a))
  {
    var w' := Step(mac, redact, w, a);
    hide R.Sane, SlotsOk, StreamOk, R.Step, StepStream, R.Enabled, CS.Drained, Since;
    match a {
      case Elsewhere(call) =>
        StoreStep(mac, w.store, call);
        SameSlots(w, w');
        forall j | 0 <= j < |w'.streams| ensures StreamOk(redact, w'.store, w'.streams[j]) {
          OthersOk(redact, w.store, w'.store, w.streams[j]);
        }
      case Acquire(actor, cid, user, script, cancel) =>
        if SlotsOf(w.slots, actor.actorId) < MAX_CONCURRENT_STREAMS_PER_ACTOR {
          var s := Stream(actor, cid, user, CS.Drained(script, cancel).events, Opening, 0, 1, "", false, [], [], None);
          EventsShape(script, cancel);
          NewStreamOk(redact, w.store, s);
          SlotAcquired(w, w', s);
        }
      case _ => if a.stream < |w.streams| { OneStreamStep(mac, redact, w, a.stream, a); }
    }
  }

  lemma SameSlots(w: World, w': World)
    requires SlotsOk(w) && w'.slots == w.slots && w'.streams == w.streams
    ensures SlotsOk(w')
  { }

  lemma NewStreamOk(redact: string -> string, store: R.World, s: Stream)
    requires s.told.None? && s.phase == Opening && s.text == "" && s.pulled == 0 && s.nextSeq == 1 && !s.settled && s.wire == [] && s.persisted == []
    requires s.events != [] && forall k | 0 <= k < |s.events| :: s.events[k].Terminal? <==> k == |s.events| - 1
    ensures StreamOk(redact, store, s)
  { }

  lemma {:induction false} RunInv(mac: Fingerprint, redact: string -> string, w: World, actions: seq<Action>)
    requires Inv(mac, redact, w) && Possible(mac, redact, w, actions)
    ensures Inv(mac, redact, Run(mac, redact, w, actions))
    decreases |actions|
  {
    hide Inv, Step, Enabled;
    if actions != [] {
      StepInv(mac, redact, w, actions[0]);
      RunInv(mac, redact, Step(mac, redact, w, actions[0]), actions[1..]);
    }
  }

  const NEW_SERVER := World(R.NEW_WORLD, map[], [])

  /** The client is told what has been stored: completed only over a complete answer, and so
      for the other outcomes; unavailable also when no answer could be stored. */
  predicate ToldTruly(s: Stream)
    requires s.told.Some?
  {
    match s.told.value
    case Completed => s.persisted == [Complete]
    case Cancelled => s.persisted == [TurnStatus.Cancelled]
    case TimedOut => s.persisted == [Interrupted]
    case ServingUnavailable => s.persisted == [] || s.persisted == [Failed]
  }

  /** However frame pulls, disconnects, refusals and other requests interleave: every send
      stream persists at most one assistant turn, with the text of just the frames it wrote on
      the wire, and one that says complete only if it pulled a completed terminal and then with
      the text of all its frames; what it persisted stays stored below its user turn, status
      and redacted text, until the content is purged or the history erased; the outcome the client is told is the one stored; the numbers it writes
      on the wire are 1, 2, 3, ...; and every actor's slot counter is the number of its live
      streams, never above the cap. */
  lemma SendsAreSafe(mac: Fingerprint, redact: string -> string, actions: seq<Action>)
    requires Possible(mac, redact, NEW_SERVER, actions)
    ensures var w := Run(mac, redact, NEW_SERVER, actions);
            && (forall i | 0 <= i < |w.streams| :: var s := w.streams[i];
                  && |s.persisted| <= 1
                  && |s.wire| <= |s.events| && s.text == Heard(s.events, |s.wire|)
                  && (Complete in s.persisted ==> PulledCompleted(s) && s.text == Heard(s.events, |s.events|))
                  && (s.persisted != [] && s.cid in w.store.rows.turns ==>
                        HasAnswer(w.store.rows.turns[s.cid], s.user, s.persisted[0], SendText.ContentBlocks(redact(s.text))))
                  && (s.told.Some? ==> ToldTruly(s))
                  && Counts(s.wire))
            && (forall actorId ::
                  SlotsOf(w.slots, actorId) == LiveStreams(w.streams, actorId) <= 2)
  {
    NewServerInv(mac, redact);
    RunInv(mac, redact, NEW_SERVER, actions);
    hide R.Sane, Run, Possible, HasAnswer, Heard, SendText.ContentBlocks;
  }

  lemma NewServerInv(mac: Fingerprint, redact: string -> string)
    ensures Inv(mac, redact, NEW_SERVER)
  {
    NewWorldSane(mac);
    hide R.Sane;
  }

  /** And what a stream pulled as completed is a stream the relay completed. */
  lemma PulledCompletedMeans(script: CS.Script, cancel: CS.Schedule, s: Stream)
    requires CS.Monotone(cancel) && s.events == CS.Drained(script, cancel).events && PulledCompleted(s)
    ensures exists n :: CS.CompletesCleanly(script, cancel, n)
  {
    CS.CompletedExactly(script, cancel);
    CS.RelayIsBounded(script, cancel);
    hide CS.Drained, CS.CompletesCleanly;
    var k :| 0 <= k < |s.events| && s.events[k] == CS.Terminal(CS.Completed);
    assert k == |s.events| - 1;
  }

  /** An answer that is persisted as complete is the whole answer: the relay completed
      cleanly, and the stored turn, unless purged since, reads back as the redaction of
      everything the relay put out. */
  lemma CompleteAnswerIsWhole(mac: Fingerprint, redact: string -> string, actions: seq<Action>, i: nat,
                              script: CS.Script, cancel: CS.Schedule)
    requires CS.Monotone(cancel) && Possible(mac, redact, NEW_SERVER, actions)
    requires var w := Run(mac, redact, NEW_SERVER, actions);
             && i < |w.streams| && w.streams[i].events == CS.Drained(script, cancel).events
             && Complete in w.streams[i].persisted && w.streams[i].cid in w.store.rows.turns
    requires |redact(CS.Drained(script, cancel).text)| <= 1_280_000
    ensures exists n :: CS.CompletesCleanly(script, cancel, n)
    ensures var w := Run(mac, redact, NEW_SERVER, actions);
            var turns := w.store.rows.turns[w.streams[i].cid];
            exists k :: 0 <= k < |turns| && WholeAnswer(turns[k], w.streams[i].user, redact(CS.Drained(script, cancel).text))
  {
    hide Run, Possible, CS.Drained, CS.CompletesCleanly, SendText.ContentBlocks, SendText.TextOf, CS.Monotone, PulledCompleted, Heard;
    SendsAreSafe(mac, redact, actions);
    var w := Run(mac, redact, NEW_SERVER, actions);
    var s := w.streams[i];
    PulledCompletedMeans(script, cancel, s);
    WholeText(script, cancel);
    SendText.ContentBlocksAreLossless(redact(s.text));
    var turns := w.store.rows.turns[s.cid];
    var k :| 0 <= k < |turns| && Answers(turns[k], s.user, s.persisted[0], SendText.ContentBlocks(redact(s.text)));
    assert WholeAnswer(turns[k], s.user, redact(CS.Drained(script, cancel).text));
  }

  /** A complete assistant turn below `user` that holds `text`, unless it has been purged. */
  predicate WholeAnswer(t: Turn, user: Id, text: string)
  {
    && t.lineage.parent == Some(user) && t.lineage.sibling == 0 && t.role == Assistant && t.status == Complete
    && (!t.purged ==> SendText.TextOf(t.content) == text)
  }

  lemma WholeText(script: CS.Script, cancel: CS.Schedule)
    ensures var d := CS.Drained(script, cancel); Heard(d.events, |d.events|) == d.text
  {
    CS.RelayIsBounded(script, cancel);
    hide CS.Drained;
    var events := CS.Drained(script, cancel).events;
    HeardNext(events, |events| - 1);
    assert events[..|events|] == events;
  }
}
