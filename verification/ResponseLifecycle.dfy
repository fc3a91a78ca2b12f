/** The reconnect-safe response records and the per-conversation sequence allocator
    (workbench/response_lifecycle_store.py), as far as the stream runners use them. */
module ResponseLifecycle {
  import opened Outcomes
  import opened ConversationModels

  const MAX_USAGE_TOKENS := 100_000_000
  const MAX_USAGE_DURATION_MS := 86_400_000
  const MAX_SEQUENCE := 1_000_000_000

  datatype LifecycleState = InProgress | Completed | Cancelled | TimedOut | Interrupted | Unlisted(text: string)

  predicate Settled(s: LifecycleState) { s.Completed? || s.Cancelled? || s.TimedOut? || s.Interrupted? }

  datatype SafeUsage = SafeUsage(inputTokens: nat, outputTokens: nat, durationMs: Option<nat>)

  const NO_USAGE := SafeUsage(0, 0, None)

  datatype Response = Response(
    requestId: string, conversationId: Id, actor: Actor, state: LifecycleState, usage: SafeUsage,
    version: nat, committed: nat)

  predicate NameOk(s: string) { 4 <= |s| <= 256 }

  type Key = (string, string)

  datatype LifecycleRows = LifecycleRows(responses: map<Key, Response>, seqs: map<Id, nat>)

  datatype LifecycleError =
    | UnknownResponse | AlreadyBegun | InvalidRecord | NotAllowlisted | SeqOutOfRange
    | CommittedIsFinal | StaleSequence | EmptyHeartbeat | Exhausted

  function KeyOf(actor: Actor, requestId: string): Key { (actor.actorId, requestId) }

  /** `conversation_seq.get(cid, 0)` */
  function HighWater(rows: LifecycleRows, cid: Id): nat
  {
    if cid in rows.seqs then rows.seqs[cid] else 0
  }

  function Begin(rows: LifecycleRows, actor: Actor, cid: Id, requestId: string): Result<LifecycleRows, LifecycleError>
  {
    if KeyOf(actor, requestId) in rows.responses then Err(AlreadyBegun)
    else if !(NameOk(requestId) && NameOk(cid)) then Err(InvalidRecord)
    else
      var record := Response(requestId, cid, actor, InProgress, NO_USAGE, 1, 0);
      Ok(rows.(responses := rows.responses[KeyOf(actor, requestId) := record]))
  }

  function Advance(rows: LifecycleRows, actor: Actor, requestId: string, state: LifecycleState,
                   usage: Option<SafeUsage>, seqNo: Option<int>): Result<LifecycleRows, LifecycleError>
  {
    if KeyOf(actor, requestId) !in rows.responses then Err(UnknownResponse)
    else
      var record := rows.responses[KeyOf(actor, requestId)];
      if state.Unlisted? then Err(NotAllowlisted)
      else if seqNo.Some? && !(0 <= seqNo.value <= MAX_SEQUENCE) then Err(SeqOutOfRange)
      else if Settled(record.state) then Err(CommittedIsFinal)
      else if seqNo.Some? && seqNo.value <= record.committed then Err(StaleSequence)
      else if state == InProgress && usage.None? && seqNo.None? then Err(EmptyHeartbeat)
      else
        var advanced := record.(
          state := state,
          usage := if usage.Some? then usage.value else record.usage,
          version := if state != record.state then record.version + 1 else record.version,
          committed := if seqNo.Some? then seqNo.value else record.committed);
        Ok(LifecycleRows(rows.responses[KeyOf(actor, requestId) := advanced],
                         if seqNo.Some? && seqNo.value > HighWater(rows, record.conversationId)
                         then rows.seqs[record.conversationId := seqNo.value] else rows.seqs))
  }

  function NextSeq(rows: LifecycleRows, actor: Actor, requestId: string): Result<(LifecycleRows, nat), LifecycleError>
  {
    if KeyOf(actor, requestId) !in rows.responses then Err(UnknownResponse)
    else
      var cid := rows.responses[KeyOf(actor, requestId)].conversationId;
      var next := HighWater(rows, cid) + 1;
      if next > MAX_SEQUENCE then Err(Exhausted) else Ok((rows.(seqs := rows.seqs[cid := next]), next))
  }

  /** The store object: every public method runs under its lock, so one call is one step. */
  class MemoryResponseLifecycleStore {
    var responses: map<Key, Response>
    var seqs: map<Id, nat>

    function View(): LifecycleRows
      reads this
    {
      LifecycleRows(responses, seqs)
    }

    constructor (rows: LifecycleRows)
      ensures View() == rows
    {
      responses, seqs := rows.responses, rows.seqs;
    }

    method BeginResponse(actor: Actor, cid: Id, requestId: string) returns (error: Option<LifecycleError>)
      modifies this
      ensures match Begin(old(View()), actor, cid, requestId)
              case Ok(rows) => error.None? && View() == rows
              case Err(e) => error == Some(e) && View() == old(View())
    {
      var key := KeyOf(actor, requestId);
      if key in responses { return Some(AlreadyBegun); }
      if !(NameOk(requestId) && NameOk(cid)) { return Some(InvalidRecord); }
      responses := responses[key := Response(requestId, cid, actor, InProgress, NO_USAGE, 1, 0)];
      return None;
    }

    method AdvanceResponse(actor: Actor, requestId: string, state: LifecycleState,
                           usage: Option<SafeUsage>, seqNo: Option<int>) returns (error: Option<LifecycleError>)
      modifies this
      ensures match Advance(old(View()), actor, requestId, state, usage, seqNo)
              case Ok(rows) => error.None? && View() == rows
              case Err(e) => error == Some(e) && View() == old(View())
    {
      var key := KeyOf(actor, requestId);
      if key !in responses { return Some(UnknownResponse); }
      var record := responses[key];
      if state.Unlisted? { return Some(NotAllowlisted); }
      if seqNo.Some? && !(0 <= seqNo.value <= MAX_SEQUENCE) { return Some(SeqOutOfRange); }
      if Settled(record.state) { return Some(CommittedIsFinal); }
      if seqNo.Some? && seqNo.value <= record.committed { return Some(StaleSequence); }
      if state == InProgress && usage.None? && seqNo.None? { return Some(EmptyHeartbeat); }
      var advanced := record;
      if state != record.state { advanced := advanced.(state := state, version := record.version + 1); }
      if usage.Some? { advanced := advanced.(usage := usage.value); }
      if seqNo.Some? {
        advanced := advanced.(committed := seqNo.value);
        if seqNo.value > HighWater(View(), record.conversationId) { seqs := seqs[record.conversationId := seqNo.value]; }
      }
      responses := responses[key := advanced];
      return None;
    }

    method AllocateSeq(actor: Actor, requestId: string) returns (r: Result<nat, LifecycleError>)
      modifies this`seqs
      ensures match NextSeq(old(View()), actor, requestId)
              case Ok(drawn) => r == Ok(drawn.1) && View() == drawn.0
              case Err(e) => r == Err(e) && View() == old(View())
    {
      var key := KeyOf(actor, requestId);
      if key !in responses { return Err(UnknownResponse); }
      var cid := responses[key].conversationId;
      var next := HighWater(View(), cid) + 1;
      if next > MAX_SEQUENCE { return Err(Exhausted); }
      seqs := seqs[cid := next];
      return Ok(next);
    }
  }

  // -- what one call does ---------------------------------------------------------------

  /** A beginning is refused exactly when the actor has used the id before or a name is out of
      bounds; otherwise it adds a fresh record in progress, nothing committed. */
  lemma BegunExactly(rows: LifecycleRows, actor: Actor, cid: Id, requestId: string)
    ensures var r, key := Begin(rows, actor, cid, requestId), (actor.actorId, requestId);
            && (r.Ok? <==> key !in rows.responses && 4 <= |requestId| <= 256 && 4 <= |cid| <= 256)
            && (key in rows.responses ==> r == Err(AlreadyBegun))
            && (r.Ok? ==> r.value == LifecycleRows(
                  rows.responses[key := Response(requestId, cid, actor, InProgress, SafeUsage(0, 0, None), 1, 0)], rows.seqs))
  { }

  /** An advance is accepted exactly on a record still in progress, to a known state, with a
      number above the committed one and in range, or without one as long as it says anything.
      The version counts changes of state; the number is committed, and drawn as well if it is
      above all drawn so far; usage is kept unless a new one is given. */
  lemma AdvancedExactly(rows: LifecycleRows, actor: Actor, requestId: string, state: LifecycleState,
                        usage: Option<SafeUsage>, seqNo: Option<int>)
    requires forall key | key in rows.responses :: !rows.responses[key].state.Unlisted?
    ensures var r, key := Advance(rows, actor, requestId, state, usage, seqNo), (actor.actorId, requestId);
            && (r.Ok? <==>
                  && key in rows.responses && rows.responses[key].state == InProgress && !state.Unlisted?
                  && (seqNo.Some? ==> rows.responses[key].committed < seqNo.value <= 1_000_000_000)
                  && (state != InProgress || usage.Some? || seqNo.Some?))
            && (r.Ok? ==>
                  var a, b := rows.responses[key], r.value.responses[key];
                  var cid := a.conversationId;
                  && r.value.responses == rows.responses[key := b] && b.state == state
                  && b.requestId == a.requestId && b.conversationId == cid && b.actor == a.actor
                  && b.usage == (if usage.Some? then usage.value else a.usage)
                  && b.version == (if state == InProgress then a.version else a.version + 1)
                  && b.committed == (if seqNo.Some? then seqNo.value else a.committed)
                  && (forall other :: HighWater(r.value, other)
                        == if other == cid && seqNo.Some? && seqNo.value > HighWater(rows, cid) then seqNo.value
                           else HighWater(rows, other)))
  { }

  /** A draw is refused exactly without a record or past the last number; otherwise it gives
      the number after the highest so far. */
  lemma DrawnExactly(rows: LifecycleRows, actor: Actor, requestId: string)
    ensures var r, key := NextSeq(rows, actor, requestId), (actor.actorId, requestId);
            && (r.Ok? <==> key in rows.responses && HighWater(rows, rows.responses[key].conversationId) < 1_000_000_000)
            && (r.Ok? ==>
                  var cid := rows.responses[key].conversationId;
                  && r.value.1 == HighWater(rows, cid) + 1 && r.value.0.responses == rows.responses
                  && forall other :: HighWater(r.value.0, other) == if other == cid then r.value.1 else HighWater(rows, other))
  { }

  // -- over whole runs ---------------------------------------------------------------

  datatype Call =
    | Beginning(actor: Actor, cid: Id, requestId: string)
    | Advancing(actor: Actor, requestId: string, state: LifecycleState, usage: Option<SafeUsage>, seqNo: Option<int>)
    | Drawing(actor: Actor, requestId: string)

  /** A refused call changes nothing. */
  function Perform(rows: LifecycleRows, call: Call): LifecycleRows
  {
    match call
    case Beginning(actor, cid, requestId) =>
      var begun := Begin(rows, actor, cid, requestId);
      if begun.Ok? then begun.value else rows
    case Advancing(actor, requestId, state, usage, seqNo) =>
      var advanced := Advance(rows, actor, requestId, state, usage, seqNo);
      if advanced.Ok? then advanced.value else rows
    case Drawing(actor, requestId) =>
      var drawn := NextSeq(rows, actor, requestId);
      if drawn.Ok? then drawn.value.0 else rows
  }

  function Run(rows: LifecycleRows, calls: seq<Call>): LifecycleRows
    decreases |calls|
  {
    if calls == [] then rows else Run(Perform(rows, calls[0]), calls[1..])
  }

  /** No record has committed a number above its conversation's high-water mark. */
  ghost predicate Kept(rows: LifecycleRows)
  {
    forall key | key in rows.responses ::
      var r := rows.responses[key];
      key == KeyOf(r.actor, r.requestId) && r.committed <= HighWater(rows, r.conversationId) && r.version >= 1 && !r.state.Unlisted?
  }

  /** A record keeps its identity; its version and its committed number only grow; a settled
      record never changes. */
  predicate Evolves(a: Response, b: Response)
  {
    && b.requestId == a.requestId && b.conversationId == a.conversationId && b.actor == a.actor
    && a.version <= b.version && a.committed <= b.committed
    && (Settled(a.state) ==> b == a)
    && (b.state != a.state ==> a.version < b.version)
  }

  ghost predicate Onward(a: LifecycleRows, b: LifecycleRows)
  {
    && (forall key | key in a.responses :: key in b.responses && Evolves(a.responses[key], b.responses[key]))
    && forall cid :: HighWater(a, cid) <= HighWater(b, cid)
  }

  lemma AdvanceKeeps(rows: LifecycleRows, actor: Actor, requestId: string, state: LifecycleState,
                     usage: Option<SafeUsage>, seqNo: Option<int>)
    requires Kept(rows) && Advance(rows, actor, requestId, state, usage, seqNo).Ok?
    ensures var after := Advance(rows, actor, requestId, state, usage, seqNo).value;
            Kept(after) && Onward(rows, after)
  {
    var after := Advance(rows, actor, requestId, state, usage, seqNo).value;
    var key := KeyOf(actor, requestId);
    assert Evolves(rows.responses[key], after.responses[key]);
    assert forall cid :: HighWater(rows, cid) <= HighWater(after, cid);
    hide Advance;
  }

  lemma PerformKeeps(rows: LifecycleRows, call: Call)
    requires Kept(rows)
    ensures Kept(Perform(rows, call)) && Onward(rows, Perform(rows, call))
  {
    match call
    case Beginning(_, _, _) =>
    case Advancing(actor, requestId, state, usage, seqNo) =>
      hide Kept, Onward, Advance;
      if Advance(rows, actor, requestId, state, usage, seqNo).Ok? { AdvanceKeeps(rows, actor, requestId, state, usage, seqNo); }
      else { StaysOnward(rows); }
    case Drawing(_, _) =>
  }

  lemma StaysOnward(rows: LifecycleRows)
    ensures Onward(rows, rows)
  { }

  lemma OnwardTwice(a: LifecycleRows, b: LifecycleRows, c: LifecycleRows)
    requires Onward(a, b) && Onward(b, c)
    ensures Onward(a, c)
  {
    forall key | key in a.responses ensures key in c.responses && Evolves(a.responses[key], c.responses[key]) {
      assert Evolves(a.responses[key], b.responses[key]) && Evolves(b.responses[key], c.responses[key]);
    }
    forall cid ensures HighWater(a, cid) <= HighWater(c, cid) {
      assert HighWater(a, cid) <= HighWater(b, cid) && HighWater(b, cid) <= HighWater(c, cid);
    }
  }

  /** Over any run: no record disappears, a settled record never changes again, versions
      and committed numbers only grow, and no record commits a number that was not drawn or
      set as its conversation's high-water mark. */
  lemma {:induction false} RunKeeps(rows: LifecycleRows, calls: seq<Call>)
    requires Kept(rows)
    ensures Kept(Run(rows, calls)) && Onward(rows, Run(rows, calls))
    decreases |calls|
  {
    hide Kept, Onward, Perform;
    if calls == [] {
      StaysOnward(rows);
    } else {
      PerformKeeps(rows, calls[0]);
      RunKeeps(Perform(rows, calls[0]), calls[1..]);
      OnwardTwice(rows, Perform(rows, calls[0]), Run(rows, calls));
    }
  }

  const EMPTY := LifecycleRows(map[], map[])

  /** Whatever happens between two draws for one conversation, the later number is larger:
      no number is handed out twice. */
  lemma DrawnOnce(before: seq<Call>, first: Call, between: seq<Call>, second: Call)
    requires first.Drawing? && second.Drawing?
    requires NextSeq(Run(EMPTY, before), first.actor, first.requestId).Ok?
    requires var rows := Run(Perform(Run(EMPTY, before), first), between);
             && NextSeq(rows, second.actor, second.requestId).Ok?
             && rows.responses[KeyOf(second.actor, second.requestId)].conversationId
                == Run(EMPTY, before).responses[KeyOf(first.actor, first.requestId)].conversationId
    ensures var rows := Run(EMPTY, before);
            NextSeq(rows, first.actor, first.requestId).value.1
            < NextSeq(Run(Perform(rows, first), between), second.actor, second.requestId).value.1
  {
    var rows := Run(EMPTY, before);
    var cid := rows.responses[KeyOf(first.actor, first.requestId)].conversationId;
    RunKeeps(EMPTY, before);
    PerformKeeps(rows, first);
    RunKeeps(Perform(rows, first), between);
    hide Run, Kept;
    assert HighWater(Perform(rows, first), cid) <= HighWater(Run(Perform(rows, first), between), cid);
  }
}
