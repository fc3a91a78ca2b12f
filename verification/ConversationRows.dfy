/** What each operation of the conversation store does to the persisted rows
    (workbench/conversation_store.py), as functions on a value of type `Rows`.

    A Python dict keeps insertion order, so `Rows` carries the conversations as a
    map plus the order of its keys.  Fresh ids and clock readings are parameters.
    The audit trail is appended to and never read back, so an operation returns
    the entries it appends in its `Reply` instead of carrying the whole trail. */
module ConversationRows {
  import opened Outcomes
  import opened ConversationModels
  import opened Lineage
  import StableSort

  datatype Rows = Rows(order: seq<Id>, conversations: map<Id, Conversation>, turns: map<Id, seq<Turn>>)

  const EMPTY_ROWS := Rows([], map[], map[])

  datatype StoreError =
    | UnknownConversation | UnknownTurn | NotModifiable(status: ConversationStatus) | NotActive | NotArchived
    | InvalidRecord | Gate(error: GateError) | RootCannotBeRetried | HistoryFinal | PurgedCannotAdvance
    | NotTerminal | CommittedImmutable | BrokenLineage | StaleFingerprint | CannotDeleteAgain

  // -- audit projections -------------------------------------------------

  datatype ConversationAudit = ConversationAudit(
    conversationId: Id, actorId: string, status: ConversationStatus, policyId: string,
    deletionMode: Option<DeletionMode>, turnCount: nat, committedCount: nat, interruptedCount: nat,
    createdAt: int, updatedAt: int)

  datatype TurnAudit = TurnAudit(
    turnId: Id, conversationId: Id, role: Role, mode: Mode, status: TurnStatus, lineage: TurnLineage,
    contentHash: string, contentBlocks: nat, voiceEvents: nat, purged: bool,
    createdAt: int, completedAt: Option<int>)

  datatype AuditEvent =
    | ConversationEvent(kind: string, conversation: ConversationAudit)
    | TurnEvent(kind: string, turn: TurnAudit)

  function CountWith(turns: seq<Turn>, status: TurnStatus): nat
  {
    if turns == [] then 0 else (if turns[0].status == status then 1 else 0) + CountWith(turns[1..], status)
  }

  function AuditConversation(c: Conversation, turns: seq<Turn>): ConversationAudit
  {
    var own := Own(turns, c.id);
    ConversationAudit(c.id, c.actor.actorId, c.status, c.retention.policyId,
                      if c.deletion.Some? then Some(c.deletion.value.mode) else None,
                      |own|, CountWith(own, Complete), CountWith(own, Interrupted), c.createdAt, c.updatedAt)
  }

  function AuditTurn(t: Turn): TurnAudit
  {
    TurnAudit(t.id, t.conversationId, t.role, t.mode, t.status, t.lineage, t.contentHash,
              |t.content|, |t.voice|, t.purged, t.createdAt, t.completedAt)
  }

  datatype Reply<+T> = Reply(rows: Rows, result: Result<T, StoreError>, events: seq<AuditEvent>)

  function Refuse<T>(rows: Rows, error: StoreError): Reply<T>
  {
    Reply(rows, Err(error), [])
  }

  // -- row access --------------------------------------------------------

  function TurnsOf(rows: Rows, cid: Id): seq<Turn>
  {
    if cid in rows.turns then rows.turns[cid] else []
  }

  /** The records named by `order`, as `conversations.values()` lists them. */
  function RecordsOf(order: seq<Id>, conversations: map<Id, Conversation>): seq<Conversation>
  {
    if order == [] then []
    else if order[0] in conversations then [conversations[order[0]]] + RecordsOf(order[1..], conversations)
    else RecordsOf(order[1..], conversations)
  }

  function Records(rows: Rows): seq<Conversation> { RecordsOf(rows.order, rows.conversations) }

  predicate Owns(rows: Rows, actor: Actor, cid: Id)
  {
    cid in rows.conversations && rows.conversations[cid].actor == actor
  }

  predicate Listable(s: ConversationStatus) { s in {Active, Archived} }

  function Without(order: seq<Id>, cid: Id): seq<Id>
  {
    if order == [] then []
    else if order[0] == cid then Without(order[1..], cid)
    else [order[0]] + Without(order[1..], cid)
  }

  /** `rows.conversations[record.id] = record` */
  function PutConversation(rows: Rows, record: Conversation): Rows
  {
    rows.(order := if record.id in rows.conversations then rows.order else rows.order + [record.id],
          conversations := rows.conversations[record.id := record])
  }

  /** `rows.conversations.pop(cid, None)` */
  function PopConversation(rows: Rows, cid: Id): Rows
  {
    rows.(order := Without(rows.order, cid), conversations := rows.conversations - {cid})
  }

  function PutTurns(rows: Rows, cid: Id, turns: seq<Turn>): Rows
  {
    rows.(turns := rows.turns[cid := turns])
  }

  /** `rows.turns.pop(cid, None)` */
  function PopTurns(rows: Rows, cid: Id): Rows
  {
    rows.(turns := rows.turns - {cid})
  }

  function StoreConversation(rows: Rows, kind: string, record: Conversation): Reply<Conversation>
  {
    Reply(PutConversation(rows, record), Ok(record),
          [ConversationEvent(kind, AuditConversation(record, TurnsOf(rows, record.id)))])
  }

  function UniverseOf(records: seq<Conversation>, turns: map<Id, seq<Turn>>, actor: Actor): seq<Turn>
  {
    if records == [] then []
    else
      (if records[0].actor == actor && records[0].id in turns then turns[records[0].id] else [])
      + UniverseOf(records[1..], turns, actor)
  }

  /** Every turn of every conversation of one actor: all the append gate may see. */
  function Universe(rows: Rows, actor: Actor): seq<Turn>
  {
    UniverseOf(Records(rows), rows.turns, actor)
  }

  // -- conversation lifecycle --------------------------------------------

  function NewConversation(actor: Actor, id: Id, retention: RetentionPolicy, title: Option<string>, now: int): Conversation
  {
    Conversation(id, actor, retention, Active, title, false, {}, None, None, now, now)
  }

  function Create(rows: Rows, actor: Actor, id: Id, retention: RetentionPolicy, title: Option<string>, now: int)
    : Reply<Conversation>
  {
    var record := NewConversation(actor, id, retention, title, now);
    if !ConversationOk(record) then Refuse(rows, InvalidRecord)
    else StoreConversation(PutTurns(rows, id, []), "conversation.created", record)
  }

  datatype Change =
    | Rename(title: string) | Archive | Unarchive | Pin | Unpin
    | AddTag(tag: string) | RemoveTag(tag: string) | SetFolder(folder: string) | ClearFolder

  function ChangeKind(change: Change): string
  {
    match change
    case Rename(_) => "conversation.renamed"
    case Archive => "conversation.archived"
    case Unarchive => "conversation.unarchived"
    case Pin => "conversation.pinned"
    case Unpin => "conversation.unpinned"
    case AddTag(_) => "conversation.tagged"
    case RemoveTag(_) => "conversation.untagged"
    case SetFolder(_) => "conversation.foldered"
    case ClearFolder => "conversation.unfoldered"
  }

  function Changed(c: Conversation, change: Change): Conversation
  {
    match change
    case Rename(title) => c.(title := Some(title))
    case Archive => c.(status := Archived)
    case Unarchive => c.(status := Active)
    case Pin => c.(pinned := true)
    case Unpin => c.(pinned := false)
    case AddTag(tag) => c.(tags := c.tags + {tag})
    case RemoveTag(tag) => c.(tags := c.tags - {tag})
    case SetFolder(folder) => c.(folder := Some(folder))
    case ClearFolder => c.(folder := None)
  }

  function ChangeConversation(rows: Rows, actor: Actor, cid: Id, change: Change, now: int): Reply<Conversation>
  {
    if !Owns(rows, actor, cid) then Refuse(rows, UnknownConversation)
    else
      var record := rows.conversations[cid];
      var updated := Changed(record, change).(updatedAt := now);
      if change.Archive? && record.status != Active then Refuse(rows, NotActive)
      else if change.Unarchive? && record.status != Archived then Refuse(rows, NotArchived)
      else if !Listable(record.status) then Refuse(rows, NotModifiable(record.status))
      else if !ConversationOk(updated) then Refuse(rows, InvalidRecord)
      else StoreConversation(rows, ChangeKind(change), updated)
  }

  datatype ListFilter = ListFilter(includeArchived: bool, pinned: Option<bool>, tag: Option<string>, folder: Option<string>)

  predicate Listed(c: Conversation, actor: Actor, f: ListFilter)
  {
    && c.actor == actor
    && (c.status == Active || (f.includeArchived && c.status == Archived))
    && (f.pinned.Some? ==> c.pinned == f.pinned.value)
    && (f.tag.Some? ==> f.tag.value in c.tags)
    && (f.folder.Some? ==> c.folder == f.folder)
  }

  function ListedOf(records: seq<Conversation>, actor: Actor, f: ListFilter): seq<Conversation>
  {
    if records == [] then []
    else if Listed(records[0], actor, f) then [records[0]] + ListedOf(records[1..], actor, f)
    else ListedOf(records[1..], actor, f)
  }

  function NewestFirst(c: Conversation): int { -c.updatedAt }
  function PinnedFirst(c: Conversation): int { if c.pinned then 0 else 1 }

  function ListConversations(rows: Rows, actor: Actor, f: ListFilter): seq<Conversation>
  {
    StableSort.Sort(StableSort.Sort(ListedOf(Records(rows), actor, f), NewestFirst, StableSort.IntLess),
                    PinnedFirst, StableSort.IntLess)
  }

  // -- turns ---------------------------------------------------------------

  datatype TurnRequest = TurnRequest(
    role: Role, status: TurnStatus, redaction: Redaction, mode: Mode,
    content: seq<ContentBlock>, voice: seq<VoiceEvent>)

  function MakeTurn(mac: Fingerprint, cid: Id, id: Id, lineage: TurnLineage, q: TurnRequest, now: int): Turn
  {
    Turn(id, cid, q.role, q.mode, q.status, lineage, q.content, mac(q.content), q.redaction, q.voice,
         now, if q.status == Streaming then None else Some(now), false)
  }

  function AppendTurn(mac: Fingerprint, rows: Rows, actor: Actor, cid: Id, id: Id, lineage: TurnLineage,
                      q: TurnRequest, now: int): Reply<Turn>
  {
    if !Owns(rows, actor, cid) then Refuse(rows, UnknownConversation)
    else
      var record := rows.conversations[cid];
      var turn := MakeTurn(mac, cid, id, lineage, q, now);
      if !TurnOk(turn) then Refuse(rows, InvalidRecord)
      else
        var verdict := GateVerdict(record, Universe(rows, actor), turn);
        if verdict.Err? then Refuse(rows, Gate(verdict.error))
        else
          Reply(PutConversation(PutTurns(rows, cid, TurnsOf(rows, cid) + [turn]), record.(updatedAt := now)),
                Ok(turn), [TurnEvent("turn.appended", AuditTurn(turn))])
  }

  function FindTurn(turns: seq<Turn>, id: Id): Option<Turn>
  {
    if turns == [] then None
    else if turns[0].id == id then Some(turns[0])
    else FindTurn(turns[1..], id)
  }

  /** One more than the largest sibling index in use below `parent`. */
  function NextSibling(turns: seq<Turn>, parent: Option<Id>): int
  {
    if turns == [] then 0
    else
      var rest := NextSibling(turns[1..], parent);
      if turns[0].lineage.parent == parent && turns[0].lineage.sibling >= rest
      then turns[0].lineage.sibling + 1 else rest
  }

  function RetryTurn(mac: Fingerprint, rows: Rows, actor: Actor, cid: Id, retryOf: Id, id: Id,
                     q: TurnRequest, now: int): Reply<Turn>
  {
    if !Owns(rows, actor, cid) then Refuse(rows, UnknownConversation)
    else
      var target := FindTurn(TurnsOf(rows, cid), retryOf);
      if target.None? then Refuse(rows, UnknownTurn)
      else if target.value.lineage.parent.None? then Refuse(rows, RootCannotBeRetried)
      else
        var parent := target.value.lineage.parent;
        var lineage := TurnLineage(parent, NextSibling(TurnsOf(rows, cid), parent), Retry);
        if !LineageOk(lineage) then Refuse(rows, InvalidRecord)
        else AppendTurn(mac, rows, actor, cid, id, lineage, q, now)
  }

  function BranchTurn(mac: Fingerprint, rows: Rows, actor: Actor, cid: Id, parent: Id, id: Id,
                      q: TurnRequest, now: int): Reply<Turn>
  {
    if !Owns(rows, actor, cid) then Refuse(rows, UnknownConversation)
    else if FindTurn(TurnsOf(rows, cid), parent).None? then Refuse(rows, UnknownTurn)
    else
      var lineage := TurnLineage(Some(parent), NextSibling(TurnsOf(rows, cid), Some(parent)), Branch);
      if !LineageOk(lineage) then Refuse(rows, InvalidRecord)
      else AppendTurn(mac, rows, actor, cid, id, lineage, q, now)
  }

  function ReplaceTurn(turns: seq<Turn>, turn: Turn): seq<Turn>
  {
    if turns == [] then []
    else if turns[0].id == turn.id then [turn] + turns[1..]
    else [turns[0]] + ReplaceTurn(turns[1..], turn)
  }

  function AdvanceTurnStatus(rows: Rows, actor: Actor, cid: Id, id: Id, status: TurnStatus, now: int): Reply<Turn>
  {
    if !Owns(rows, actor, cid) then Refuse(rows, UnknownConversation)
    else if !Listable(rows.conversations[cid].status) then Refuse(rows, HistoryFinal)
    else
      var target := FindTurn(TurnsOf(rows, cid), id);
      if target.None? then Refuse(rows, UnknownTurn)
      else if target.value.purged then Refuse(rows, PurgedCannotAdvance)
      else if !Terminal(status) then Refuse(rows, NotTerminal)
      else if target.value.status != Streaming then Refuse(rows, CommittedImmutable)
      else
        var advanced := target.value.(status := status, completedAt := Some(now));
        Reply(PutTurns(rows, cid, ReplaceTurn(TurnsOf(rows, cid), advanced)), Ok(advanced),
              [TurnEvent("turn.status_advanced", AuditTurn(advanced))])
  }

  // -- deletion ------------------------------------------------------------

  /** The tombstone of one turn; a response that was still streaming ends interrupted. */
  function Tombstone(t: Turn, at: int): Turn
  {
    if t.purged then t
    else PurgeTurnContent(if t.status == Streaming then t.(status := Interrupted, completedAt := Some(at)) else t)
  }

  function Tombstones(turns: seq<Turn>, at: int): seq<Turn>
  {
    seq(|turns|, i requires 0 <= i < |turns| => Tombstone(turns[i], at))
  }

  function PurgeEvents(turns: seq<Turn>, at: int): seq<AuditEvent>
  {
    if turns == [] then []
    else
      var last := turns[|turns| - 1];
      PurgeEvents(turns[..|turns| - 1], at)
      + (if last.purged then [] else [TurnEvent("turn.content_purged", AuditTurn(Tombstone(last, at)))])
  }

  function DeletedForm(pending: Conversation, at: int): Conversation
  {
    pending.(status := Deleted, title := None, pinned := false, tags := {}, folder := None,
             deletion := if pending.deletion.Some? then Some(pending.deletion.value.(completedAt := Some(at))) else None,
             updatedAt := at)
  }

  predicate Erases(pending: Conversation)
  {
    pending.deletion.Some? && pending.deletion.value.mode == PurgeAllRecords
  }

  function CompleteDeletion(rows: Rows, pending: Conversation, at: int): Reply<ConversationAudit>
  {
    var turns := TurnsOf(rows, pending.id);
    var tombs := Tombstones(turns, at);
    var purged := if pending.id in rows.turns then PutTurns(rows, pending.id, tombs) else rows;
    var deleted := DeletedForm(pending, at);
    var final := AuditConversation(deleted, tombs);
    if Erases(pending) then
      Reply(PopTurns(PopConversation(purged, pending.id), pending.id), Ok(final),
            [ConversationEvent("conversation.deleted", final)])
    else
      Reply(PutConversation(purged, deleted), Ok(final),
            PurgeEvents(turns, at) + [ConversationEvent("conversation.deleted", final)])
  }

  function PendingForm(record: Conversation, mode: DeletionMode, requestedAt: int): Conversation
  {
    record.(status := DeletionPending, deletion := Some(Deletion(requestedAt, mode, None)), updatedAt := requestedAt)
  }

  function Prefixed<T>(events: seq<AuditEvent>, reply: Reply<T>): Reply<T>
  {
    reply.(events := events + reply.events)
  }

  function DeleteConversation(rows: Rows, actor: Actor, cid: Id, mode: DeletionMode, requestedAt: int, at: int)
    : Reply<ConversationAudit>
  {
    if !Owns(rows, actor, cid) then Refuse(rows, UnknownConversation)
    else
      var record := rows.conversations[cid];
      var pending := PendingForm(record, mode, requestedAt);
      if record.status == DeletionPending then CompleteDeletion(rows, record, at)
      else if !Listable(record.status) then Refuse(rows, CannotDeleteAgain)
      else if !ConversationOk(pending) then Refuse(rows, InvalidRecord)
      else
        var stored := StoreConversation(rows, "conversation.deletion_requested", pending);
        Prefixed(stored.events, CompleteDeletion(stored.rows, pending, at))
  }

  // -- reads -----------------------------------------------------------------

  /** Finish a deletion that a crash interrupted before any read is served. */
  function Reconciled(rows: Rows, record: Conversation, at: int): Reply<Conversation>
  {
    if record.status != DeletionPending then Reply(rows, Ok(record), [])
    else
      var done := CompleteDeletion(rows, record, at);
      if record.id in done.rows.conversations
      then Reply(done.rows, Ok(done.rows.conversations[record.id]), done.events)
      else Reply(done.rows, Err(UnknownConversation), done.events)
  }

  function GetConversation(rows: Rows, actor: Actor, cid: Id, at: int): Reply<Conversation>
  {
    if !Owns(rows, actor, cid) then Refuse(rows, UnknownConversation)
    else Reconciled(rows, rows.conversations[cid], at)
  }

  predicate FingerprintsMatch(mac: Fingerprint, turns: seq<Turn>)
  {
    forall t | t in turns :: t.purged || t.contentHash == mac(t.content)
  }

  datatype OrderedHistory = OrderedHistory(conversation: Conversation, turns: seq<Turn>)

  ghost function GetConversationWithTurns(mac: Fingerprint, rows: Rows, actor: Actor, cid: Id, at: int): Reply<OrderedHistory>
  {
    var found := GetConversation(rows, actor, cid, at);
    if found.result.Err? then Reply(found.rows, Err(found.result.error), found.events)
    else
      var turns := TurnsOf(found.rows, cid);
      if !(UniqueIds(turns) && AllReachable(turns)) then Reply(found.rows, Err(BrokenLineage), found.events)
      else if !FingerprintsMatch(mac, InOrder(turns)) then Reply(found.rows, Err(StaleFingerprint), found.events)
      else Reply(found.rows, Ok(OrderedHistory(found.result.value, InOrder(turns))), found.events)
  }

  // -- retention -------------------------------------------------------------

  datatype PreviewReason = DeletionPendingReason | RetentionExpired

  datatype RetentionPreview = RetentionPreview(
    conversationId: Id, reason: PreviewReason, turnCount: nat, committedCount: nat, interruptedCount: nat,
    createdAt: int, updatedAt: int, deleteAfter: Option<int>)

  /** Past its retention ceiling at `moment`; a pass without a moment ignores ceilings. */
  predicate Expired(c: Conversation, moment: Option<int>)
  {
    && Listable(c.status) && c.retention.deleteAfter.Some?
    && moment.Some? && c.retention.deleteAfter.value <= moment.value
  }

  predicate Due(c: Conversation, moment: Option<int>) { c.status == DeletionPending || Expired(c, moment) }

  function PreviewRow(c: Conversation, turns: seq<Turn>): RetentionPreview
  {
    var own := Own(turns, c.id);
    RetentionPreview(c.id, if c.status == DeletionPending then DeletionPendingReason else RetentionExpired,
                     |own|, CountWith(own, Complete), CountWith(own, Interrupted),
                     c.createdAt, c.updatedAt, c.retention.deleteAfter)
  }

  function PreviewOver(rows: Rows, records: seq<Conversation>, moment: Option<int>): seq<RetentionPreview>
  {
    if records == [] then []
    else
      var rest := PreviewOver(rows, records[1..], moment);
      if Due(records[0], moment) then [PreviewRow(records[0], TurnsOf(rows, records[0].id))] + rest else rest
  }

  function PreviewRetention(rows: Rows, moment: int): seq<RetentionPreview>
  {
    PreviewOver(rows, Records(rows), Some(moment))
  }

  /** What the sweep does with one record it found. */
  function EnforceOne(rows: Rows, record: Conversation, moment: Option<int>, at: int): Reply<Option<ConversationAudit>>
  {
    if record.status == DeletionPending then
      var done := CompleteDeletion(rows, record, at);
      Reply(done.rows, Ok(Some(AuditOf(done))), done.events)
    else if Expired(record, moment) then
      var pending := PendingForm(record, PurgeContentKeepTombstone, moment.value);
      var stored := StoreConversation(rows, "conversation.retention_expired", pending);
      var done := CompleteDeletion(stored.rows, pending, at);
      Reply(done.rows, Ok(Some(AuditOf(done))), stored.events + done.events)
    else Reply(rows, Ok(None), [])
  }

  /** The audit a completed deletion returns; completing a deletion never fails. */
  function AuditOf(done: Reply<ConversationAudit>): ConversationAudit
    requires done.result.Ok?
  {
    done.result.value
  }

  datatype Sweep = Sweep(rows: Rows, enforced: seq<ConversationAudit>, events: seq<AuditEvent>)

  function EnforceOver(rows: Rows, records: seq<Conversation>, moment: Option<int>, at: int): Sweep
    decreases |records|
  {
    if records == [] then Sweep(rows, [], [])
    else
      var first := EnforceOne(rows, records[0], moment, at);
      var rest := EnforceOver(first.rows, records[1..], moment, at);
      Sweep(rest.rows,
            if first.result.Ok? && first.result.value.Some? then [first.result.value.value] + rest.enforced
            else rest.enforced,
            first.events + rest.events)
  }

  function EnforceRetention(rows: Rows, moment: int, at: int): Sweep
  {
    EnforceOver(rows, Records(rows), Some(moment), at)
  }

  // -- restart ---------------------------------------------------------------

  function Recovered(t: Turn, at: int): Turn
  {
    if t.status == Streaming then t.(status := Interrupted, completedAt := Some(at)) else t
  }

  function RecoveredTurns(turns: seq<Turn>, at: int): seq<Turn>
  {
    seq(|turns|, i requires 0 <= i < |turns| => Recovered(turns[i], at))
  }

  function RecoverStreamingTurns(rows: Rows, at: int): Rows
  {
    rows.(turns := map cid | cid in rows.turns :: RecoveredTurns(rows.turns[cid], at))
  }

  /** The audits of the turns of one history that were streaming, interrupted now. */
  function RecoveredAudits(turns: seq<Turn>, at: int): seq<TurnAudit>
  {
    if turns == [] then []
    else
      var last := turns[|turns| - 1];
      RecoveredAudits(turns[..|turns| - 1], at)
      + if last.status == Streaming then [AuditTurn(Recovered(last, at))] else []
  }

  /** What a recovery reports, history after history. */
  function RecoveryReport(order: seq<Id>, turns: map<Id, seq<Turn>>, at: int): seq<TurnAudit>
  {
    if order == [] then []
    else
      var last := order[|order| - 1];
      RecoveryReport(order[..|order| - 1], turns, at) + if last in turns then RecoveredAudits(turns[last], at) else []
  }

  /** Opening a store over existing rows with `recover_on_open`. */
  function Reopen(rows: Rows, at: int): Rows
  {
    var recovered := RecoverStreamingTurns(rows, at);
    EnforceOver(recovered, Records(recovered), None, at).rows
  }
}
