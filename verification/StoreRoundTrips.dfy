/** What the store's operations mean to each other: what a read gives back after a write,
    what one change undoes, which advances and forks are accepted, and what is settled
    once a store has been reopened. */
module StoreRoundTrips {
  import opened Outcomes
  import opened ConversationModels
  import opened Sequences
  import opened Lineage
  import opened ConversationRows
  import opened StoreInvariants
  import opened Sweeps
  import opened StoreRuns
  import opened LineageReads
  import P = ParallelSiblings
  import StableSort
  import DeletionRecovery

  // -- write, then read -------------------------------------------------------------

  /** A creation is refused exactly for an invalid record; otherwise the owner reads back an
      active, empty conversation without labels, and to anyone else it does not exist. */
  lemma CreateThenRead(mac: Fingerprint, rows: Rows, actor: Actor, id: Id, retention: RetentionPolicy,
                       title: Option<string>, now: int, other: Actor, at: int)
    requires WellFormed(mac, rows) && id !in rows.turns && other != actor
    ensures var created := Create(rows, actor, id, retention, title, now);
            var record := Conversation(id, actor, retention, Active, title, false, {}, None, None, now, now);
            && (created.result.Ok? <==> ConversationIdOk(id) && RetentionPolicyOk(retention) && (title.Some? ==> |title.value| <= 200))
            && (created.result.Err? ==> created.rows == rows)
            && (created.result.Ok? ==>
                  && created.result.value == record
                  && GetConversationWithTurns(mac, created.rows, actor, id, at).result == Ok(OrderedHistory(record, []))
                  && GetConversationWithTurns(mac, created.rows, other, id, at).result == Err(UnknownConversation))
  {
    var created := Create(rows, actor, id, retention, title, now);
    NewIsValid(actor, id, retention, title, now);
    if created.result.Ok? {
      CreateKeeps(mac, rows, actor, id, retention, title, now);
      hide WellFormed, ConversationOk, GetConversationWithTurns;
      ReadLive(mac, created.rows, actor, id, at);
      ChainInOrder([]);
      ReadsNeverCorrupt(mac, created.rows, other, id, at);
    }
    hide WellFormed, ConversationOk, GetConversationWithTurns, RetentionPolicyOk, ConversationIdOk;
  }

  lemma NewIsValid(actor: Actor, id: Id, retention: RetentionPolicy, title: Option<string>, now: int)
    ensures ConversationOk(NewConversation(actor, id, retention, title, now))
            <==> ConversationIdOk(id) && RetentionPolicyOk(retention) && (title.Some? ==> |title.value| <= 200)
  {
    hide ConversationIdOk, RetentionPolicyOk;
  }

  lemma {:induction false} UniverseMembers(records: seq<Conversation>, turns: map<Id, seq<Turn>>, actor: Actor)
    ensures forall t :: t in UniverseOf(records, turns, actor)
              <==> exists c :: c in records && c.actor == actor && c.id in turns && t in turns[c.id]
  {
    if records != [] {
      UniverseMembers(records[1..], turns, actor);
      assert records == [records[0]] + records[1..];
    }
  }

  /** No conversation of the actor holds a turn of this id. */
  ghost predicate UnusedId(rows: Rows, actor: Actor, id: Id)
  {
    forall c | c in rows.conversations && rows.conversations[c].actor == actor && c in rows.turns ::
      forall t | t in rows.turns[c] :: t.id != id
  }

  lemma UnusedInUniverse(mac: Fingerprint, rows: Rows, actor: Actor, id: Id)
    requires WellFormed(mac, rows)
    ensures UnusedId(rows, actor, id) <==> forall t | t in Universe(rows, actor) :: t.id != id
  {
    UniverseMembers(Records(rows), rows.turns, actor);
    RecordsMembers(rows.order, rows.conversations);
    OrderHolds(mac, rows);
    forall c | c in rows.conversations ensures rows.conversations[c].id == c { StoredFits(mac, rows, c); }
    hide WellFormed, UniverseOf, RecordsOf;
    if forall t | t in Universe(rows, actor) :: t.id != id {
      forall c | c in rows.conversations && rows.conversations[c].actor == actor && c in rows.turns
        ensures forall t | t in rows.turns[c] :: t.id != id
      {
        assert rows.conversations[c] in Records(rows);
      }
    }
  }

  lemma OrderHolds(mac: Fingerprint, rows: Rows)
    requires WellFormed(mac, rows)
    ensures NoRepeats(rows.order) && forall c :: c in rows.order <==> c in rows.conversations
  {
    hide HistoryOk, RecordFits, AllPurged;
  }

  /** Over well-formed rows an append of a turn with valid fields is accepted exactly when the
      conversation is the actor's and active, the id is new to the actor, the turn is the
      first root or hangs off a stored turn at a free index, and the retention policy keeps
      each of its transcript blocks.  Then the turn is stored as requested, last in its
      history, and nothing else changes but the update time; a refusal changes nothing. */
  lemma AppendedExactly(mac: Fingerprint, rows: Rows, actor: Actor, cid: Id, id: Id, lineage: TurnLineage, q: TurnRequest, now: int)
    requires WellFormed(mac, rows) && TurnOk(MakeTurn(mac, cid, id, lineage, q, now))
    ensures var reply := AppendTurn(mac, rows, actor, cid, id, lineage, q, now);
            && (reply.result.Ok? <==>
                  && cid in rows.conversations && cid in rows.turns
                  && rows.conversations[cid].actor == actor && rows.conversations[cid].status == Active
                  && UnusedId(rows, actor, id)
                  && (if lineage.parent.None? then rows.turns[cid] == []
                      else exists p :: p in rows.turns[cid] && p.id == lineage.parent.value)
                  && (forall t | t in rows.turns[cid] :: t.lineage.parent != lineage.parent || t.lineage.sibling != lineage.sibling)
                  && TranscriptsKept(rows.conversations[cid].retention, q.content, q.voice))
            && (reply.result.Ok? ==>
                  var t := reply.result.value;
                  && t == Turn(id, cid, q.role, q.mode, q.status, lineage, q.content, mac(q.content), q.redaction, q.voice, now,
                               if q.status == Streaming then None else Some(now), false)
                  && reply.rows == Rows(rows.order, rows.conversations[cid := rows.conversations[cid].(updatedAt := now)],
                                        rows.turns[cid := rows.turns[cid] + [t]]))
            && (reply.result.Err? ==> reply.rows == rows)
  {
    var turn := MakeTurn(mac, cid, id, lineage, q, now);
    hide WellFormed, UniverseOf, TurnOk, GateVerdict, RetentionAllows, TranscriptsKept, UnusedId, ConversationOk, RecordFits, AppendTurn;
    AppendOutcome(mac, rows, actor, cid, id, lineage, q, now);
    if Owns(rows, actor, cid) {
      StoredFits(mac, rows, cid);
      UnusedInUniverse(mac, rows, actor, id);
      GateOverStoredRows(mac, rows, actor, cid, turn);
      TranscriptLaw(rows.conversations[cid].retention, turn);
    }
  }

  lemma AppendOutcome(mac: Fingerprint, rows: Rows, actor: Actor, cid: Id, id: Id, lineage: TurnLineage, q: TurnRequest, now: int)
    requires WellFormed(mac, rows) && TurnOk(MakeTurn(mac, cid, id, lineage, q, now))
    ensures var reply, turn := AppendTurn(mac, rows, actor, cid, id, lineage, q, now), MakeTurn(mac, cid, id, lineage, q, now);
            && (reply.result.Ok? <==> Owns(rows, actor, cid) && GateVerdict(rows.conversations[cid], Universe(rows, actor), turn).Ok?)
            && (reply.result.Err? ==> reply.rows == rows)
            && (reply.result.Ok? ==>
                  && cid in rows.turns && reply.result.value == turn
                  && reply.rows == Rows(rows.order, rows.conversations[cid := rows.conversations[cid].(updatedAt := now)],
                                        rows.turns[cid := rows.turns[cid] + [turn]]))
  {
    hide WellFormed, UniverseOf, TurnOk, GateVerdict, ConversationOk, RecordFits, MakeTurn, AuditTurn;
    if Owns(rows, actor, cid) { StoredFits(mac, rows, cid); }
  }

  /** Which refusal an owner gets, in the order of the checks.  A parent that only another
      actor holds is missing like any other. */
  lemma AppendRefusedExactly(mac: Fingerprint, rows: Rows, actor: Actor, cid: Id, id: Id, lineage: TurnLineage, q: TurnRequest, now: int)
    requires WellFormed(mac, rows) && TurnOk(MakeTurn(mac, cid, id, lineage, q, now))
    requires cid in rows.conversations && rows.conversations[cid].actor == actor
    ensures cid in rows.turns
    ensures var own := rows.turns[cid];
            var reply := AppendTurn(mac, rows, actor, cid, id, lineage, q, now);
            reply.result ==
              if rows.conversations[cid].status != Active then Err(Gate(ConversationNotActive))
              else if !UnusedId(rows, actor, id) then Err(Gate(DuplicateTurnId))
              else if lineage.parent.None? && own != [] then Err(Gate(SecondRoot))
              else if lineage.parent.Some? && forall p | p in own :: p.id != lineage.parent.value then
                if UnusedId(rows, actor, lineage.parent.value) then Err(Gate(ParentMissing)) else Err(Gate(ParentElsewhere))
              else if exists t :: t in own && t.lineage.parent == lineage.parent && t.lineage.sibling == lineage.sibling
                then Err(Gate(SiblingTaken))
              else if !TranscriptsKept(rows.conversations[cid].retention, q.content, q.voice) then Err(Gate(RetentionForbids))
              else Ok(MakeTurn(mac, cid, id, lineage, q, now))
  {
    var turn, existing := MakeTurn(mac, cid, id, lineage, q, now), Universe(rows, actor);
    hide WellFormed, UniverseOf, TurnOk, RetentionAllows, TranscriptsKept, UnusedId, ConversationOk, RecordFits, HistoryOk, TreeRows,
      LineageVerdict, Own, GateVerdict, AppendTurn;
    StoredFits(mac, rows, cid);
    StoredHistory(mac, rows, cid);
    AppendIsVerdict(mac, rows, actor, cid, id, lineage, q, now);
    GateSeesTheHistory(mac, rows, actor, cid);
    UnusedInUniverse(mac, rows, actor, id);
    if lineage.parent.Some? { UnusedInUniverse(mac, rows, actor, lineage.parent.value); }
    VerdictIs(mac, rows.conversations[cid], existing, rows.turns[cid], turn);
    TranscriptLaw(rows.conversations[cid].retention, turn);
  }

  lemma AppendIsVerdict(mac: Fingerprint, rows: Rows, actor: Actor, cid: Id, id: Id, lineage: TurnLineage, q: TurnRequest, now: int)
    requires Owns(rows, actor, cid) && TurnOk(MakeTurn(mac, cid, id, lineage, q, now))
    ensures var turn := MakeTurn(mac, cid, id, lineage, q, now);
            var verdict := GateVerdict(rows.conversations[cid], Universe(rows, actor), turn);
            && turn.id == id && turn.conversationId == cid && turn.lineage == lineage && turn.content == q.content && turn.voice == q.voice
            && AppendTurn(mac, rows, actor, cid, id, lineage, q, now).result
               == if verdict.Err? then Err(Gate(verdict.error)) else Ok(turn)
  {
    hide GateVerdict, TurnOk, UniverseOf, AuditTurn;
  }

  lemma VerdictIs(mac: Fingerprint, record: Conversation, existing: seq<Turn>, own: seq<Turn>, turn: Turn)
    requires HistoryOk(mac, record.id, own) && own == Own(existing, record.id) && turn.conversationId == record.id
    ensures GateVerdict(record, existing, turn)
            == if record.status != Active then Err(ConversationNotActive)
               else if exists t :: t in existing && t.id == turn.id then Err(DuplicateTurnId)
               else if turn.lineage.parent.None? && own != [] then Err(SecondRoot)
               else if turn.lineage.parent.Some? && forall p | p in own :: p.id != turn.lineage.parent.value then
                 if exists t :: t in existing && t.id == turn.lineage.parent.value then Err(ParentElsewhere) else Err(ParentMissing)
               else if exists t :: t in own && t.lineage.parent == turn.lineage.parent && t.lineage.sibling == turn.lineage.sibling
                 then Err(SiblingTaken)
               else if !RetentionAllows(record.retention, turn) then Err(RetentionForbids)
               else Ok(turn)
  {
    hide TreeRows, LineageVerdict, Own, RetentionAllows, TurnFine;
    LineageRefusals(record.id, existing, own, turn.lineage.parent);
  }

  lemma LineageRefusals(cid: Id, existing: seq<Turn>, own: seq<Turn>, parent: Option<Id>)
    requires TreeRows(cid, own)
    ensures LineageVerdict(existing, own, parent)
            == if parent.None? then (if own != [] then Some(SecondRoot) else None)
               else if exists p :: p in own && p.id == parent.value then None
               else if exists t :: t in existing && t.id == parent.value then Some(ParentElsewhere) else Some(ParentMissing)
  {
    TreeLineageVerdict(cid, existing, own, parent);
    ByIdMembers(own);
    if parent.None? && own != [] { assert own[0] in own && own[0].lineage.parent.None?; }
    hide TreeRows, AncestorWalk, ById;
  }

  /** After an append the owner reads every turn there was, and the new one. */
  lemma AppendThenRead(mac: Fingerprint, rows: Rows, actor: Actor, cid: Id, id: Id, lineage: TurnLineage,
                       q: TurnRequest, now: int, at: int)
    requires WellFormed(mac, rows) && AppendTurn(mac, rows, actor, cid, id, lineage, q, now).result.Ok?
    ensures var reply := AppendTurn(mac, rows, actor, cid, id, lineage, q, now);
            var read := GetConversationWithTurns(mac, reply.rows, actor, cid, at).result;
            && read.Ok? && cid in rows.turns
            && multiset(read.value.turns) == multiset(rows.turns[cid]) + multiset{reply.result.value}
            && read.value.conversation == rows.conversations[cid].(updatedAt := now)
  {
    var reply := AppendTurn(mac, rows, actor, cid, id, lineage, q, now);
    var turn := reply.result.value;
    AppendFacts(mac, rows, actor, cid, id, lineage, q, now);
    AppendKeeps(mac, rows, actor, cid, id, lineage, q, now);
    StoredFits(mac, rows, cid);
    P.ActiveWhenAppended(rows, actor, cid, turn);
    hide WellFormed, AppendTurn, GateVerdict, UniverseOf, TurnOk, ConversationOk, HistoryOk, RecordFits, GetConversationWithTurns;
    assert reply.rows.turns[cid] == rows.turns[cid] + [turn];
    ReadLive(mac, reply.rows, actor, cid, at);
    StoredHistory(mac, reply.rows, cid);
    ReadHistoryOk(mac, cid, reply.rows.turns[cid]);
    assert multiset(rows.turns[cid] + [turn]) == multiset(rows.turns[cid]) + multiset{turn};
  }

  lemma StoredHistory(mac: Fingerprint, rows: Rows, cid: Id)
    requires WellFormed(mac, rows) && cid in rows.turns
    ensures HistoryOk(mac, cid, rows.turns[cid])
  { }

  /** After a deletion the owner reads either nothing at all or a tombstone: the record
      without any label, and every turn it had, each without content. */
  lemma DeleteThenRead(mac: Fingerprint, rows: Rows, actor: Actor, cid: Id, mode: DeletionMode, requestedAt: int, at: int,
                       later: int)
    requires WellFormed(mac, rows) && Owns(rows, actor, cid) && Listable(rows.conversations[cid].status)
    requires DeleteConversation(rows, actor, cid, mode, requestedAt, at).result.Ok?
    ensures var done := DeleteConversation(rows, actor, cid, mode, requestedAt, at).rows;
            var read := GetConversationWithTurns(mac, done, actor, cid, later).result;
            if mode == PurgeAllRecords then read == Err(UnknownConversation) && cid !in done.turns
            else
              && read.Ok? && read.value.conversation.status == Deleted && read.value.conversation.title.None?
              && read.value.conversation.tags == {} && read.value.conversation.folder.None? && !read.value.conversation.pinned
              && read.value.conversation.deletion == Some(Deletion(requestedAt, mode, Some(at)))
              && read.value.conversation.updatedAt == at
              && |read.value.turns| == |rows.turns[cid]|
              && forall t | t in read.value.turns :: t.purged && t.content == []
  {
    var record := rows.conversations[cid];
    var pending := PendingForm(record, mode, requestedAt);
    var done := DeleteConversation(rows, actor, cid, mode, requestedAt, at).rows;
    StoredFits(mac, rows, cid);
    assert HistoryOk(mac, cid, rows.turns[cid]);
    DeleteKeeps(mac, rows, actor, cid, mode, requestedAt, at);
    hide WellFormed, ConversationOk, RecordFits, HistoryOk, DeleteConversation;
    DeletionRecovery.DeleteOutcome(rows, actor, cid, mode, requestedAt, at);
    TombstonesKeep(mac, cid, rows.turns[cid], at);
    hide Tombstones, GetConversationWithTurns;
    ReadsNeverCorrupt(mac, done, actor, cid, later);
    if mode != PurgeAllRecords { ReadTombstone(mac, rows, done, pending, at, actor, later); }
  }

  lemma ReadTombstone(mac: Fingerprint, rows: Rows, done: Rows, pending: Conversation, at: int, actor: Actor, later: int)
    requires WellFormed(mac, done) && pending.id in rows.turns && pending.actor == actor && !Erases(pending)
    requires done == CompleteDeletion(PutConversation(rows, pending), pending, at).rows
    requires HistoryOk(mac, pending.id, Tombstones(rows.turns[pending.id], at))
    requires AllPurged(Tombstones(rows.turns[pending.id], at))
    ensures var read := GetConversationWithTurns(mac, done, actor, pending.id, later).result;
            && read.Ok? && read.value.conversation == DeletedForm(pending, at)
            && |read.value.turns| == |rows.turns[pending.id]|
            && forall t | t in read.value.turns :: t.purged && t.content == []
  {
    var cid, tombs := pending.id, Tombstones(rows.turns[pending.id], at);
    hide WellFormed, HistoryOk, Tombstones, GetConversationWithTurns;
    assert done.turns[cid] == tombs && done.conversations[cid] == DeletedForm(pending, at);
    ReadLive(mac, done, actor, cid, later);
    ReadHistoryOk(mac, cid, tombs);
    TombstonesLength(rows.turns[cid], at);
    assert |multiset(InOrder(tombs))| == |multiset(tombs)|;
    forall t | t in InOrder(tombs) ensures t.purged && t.content == [] {
      assert t in multiset(tombs);
      PurgedIsEmpty(mac, cid, tombs, t);
    }
  }

  lemma TombstonesLength(turns: seq<Turn>, at: int)
    ensures |Tombstones(turns, at)| == |turns|
  { }

  lemma PurgedIsEmpty(mac: Fingerprint, cid: Id, turns: seq<Turn>, t: Turn)
    requires HistoryOk(mac, cid, turns) && AllPurged(turns) && t in turns
    ensures t.purged && t.content == []
  {
    var i :| 0 <= i < |turns| && turns[i] == t;
    assert TurnFine(mac, turns[i]);
  }

  // -- retention --------------------------------------------------------------------------

  /** Live, and its retention ceiling, if it has one, is reached at `moment`. */
  ghost predicate PastCeiling(c: Conversation, moment: int)
  {
    (c.status == Active || c.status == Archived) && c.retention.deleteAfter.Some? && c.retention.deleteAfter.value <= moment
  }

  /** What an enforcement pass does to a live conversation: past its ceiling the record is
      deleted, keeping a tombstone, with every turn purged; otherwise record and turns stay
      as they are. */
  lemma RetentionEnforcedExactly(mac: Fingerprint, rows: Rows, cid: Id, moment: int, at: int)
    requires WellFormed(mac, rows) && cid in rows.conversations
    requires rows.conversations[cid].status == Active || rows.conversations[cid].status == Archived
    ensures cid in rows.turns
    ensures var c, after := rows.conversations[cid], EnforceRetention(rows, moment, at).rows;
            && cid in after.conversations && cid in after.turns
            && (if c.retention.deleteAfter.Some? && c.retention.deleteAfter.value <= moment then
                  && after.conversations[cid].status == Deleted
                  && after.conversations[cid].deletion == Some(Deletion(moment, PurgeContentKeepTombstone, Some(at)))
                  && after.conversations[cid].updatedAt == at
                  && after.conversations[cid].title.None? && after.conversations[cid].tags == {} && after.conversations[cid].folder.None?
                  && PurgedOnly(rows.turns[cid], after.turns[cid], at)
                  && (forall t | t in after.turns[cid] :: t.purged && t.content == [] && t.status != Streaming)
                else after.conversations[cid] == c && after.turns[cid] == rows.turns[cid])
  {
    var after := EnforceRetention(rows, moment, at).rows;
    hide WellFormed, HistoryOk, RecordFits, EnforceOver, RecordsOf, Restrict, SweepAudits, Sweepable, ConversationOk, SweptAt, Tombstones,
      PurgedOnly;
    StoredFits(mac, rows, cid);
    StoredHistory(mac, rows, cid);
    WellFormedSweepable(mac, rows);
    SweepOfAll(rows, Some(moment), at);
    assert SweptAt(rows, after, cid, Some(moment), at);
    TombstonesKeep(mac, cid, rows.turns[cid], at);
    TombstonesPurge(rows.turns[cid], at);
    TombstonesSettle(mac, cid, Tombstones(rows.turns[cid], at));
    LiveSwept(rows, after, cid, moment, at);
  }

  lemma LiveSwept(rows: Rows, after: Rows, cid: Id, moment: int, at: int)
    requires cid in rows.conversations && rows.conversations[cid].id == cid && cid in rows.turns
    requires rows.conversations[cid].status == Active || rows.conversations[cid].status == Archived
    requires SweptAt(rows, after, cid, Some(moment), at)
    ensures var c := rows.conversations[cid];
            && cid in after.conversations && cid in after.turns
            && (if c.retention.deleteAfter.Some? && c.retention.deleteAfter.value <= moment then
                  && after.conversations[cid].status == Deleted
                  && after.conversations[cid].deletion == Some(Deletion(moment, PurgeContentKeepTombstone, Some(at)))
                  && after.conversations[cid].updatedAt == at
                  && after.conversations[cid].title.None? && after.conversations[cid].tags == {} && after.conversations[cid].folder.None?
                  && after.turns[cid] == Tombstones(rows.turns[cid], at)
                else after.conversations[cid] == c && after.turns[cid] == rows.turns[cid])
  {
    hide Tombstones;
  }

  lemma TombstonesSettle(mac: Fingerprint, cid: Id, tombs: seq<Turn>)
    requires HistoryOk(mac, cid, tombs) && AllPurged(tombs)
    ensures forall t | t in tombs :: t.purged && t.content == [] && t.status != Streaming
  {
    forall t | t in tombs ensures t.purged && t.content == [] && t.status != Streaming {
      var i :| 0 <= i < |tombs| && tombs[i] == t;
      assert TurnFine(mac, tombs[i]);
    }
  }

  /** And a preview names exactly the conversations that are pending or past their ceiling,
      each once, with the reason. */
  lemma PreviewNamesExactly(mac: Fingerprint, rows: Rows, moment: int)
    requires WellFormed(mac, rows)
    ensures var previews := PreviewRetention(rows, moment);
            && (forall i, j | 0 <= i < j < |previews| :: previews[i].conversationId != previews[j].conversationId)
            && (forall p | p in previews :: p.conversationId in rows.conversations && p.conversationId in rows.turns
                  && var c := rows.conversations[p.conversationId];
                     && (c.status == DeletionPending || PastCeiling(c, moment))
                     && (p.reason == DeletionPendingReason <==> c.status == DeletionPending)
                     && p.turnCount == |rows.turns[p.conversationId]| && p.deleteAfter == c.retention.deleteAfter)
            && (forall cid | cid in rows.conversations && (rows.conversations[cid].status == DeletionPending
                                                         || PastCeiling(rows.conversations[cid], moment)) ::
                  exists p :: p in previews && p.conversationId == cid)
  {
    hide WellFormed, HistoryOk, RecordFits, ConversationOk, PreviewOver, RecordsOf, NoRepeats;
    OrderHolds(mac, rows);
    forall cid | cid in rows.order ensures PreviewReady(rows, cid) { StoredReady(mac, rows, cid); }
    PreviewAre(rows, rows.order, moment);
  }

  lemma StoredReady(mac: Fingerprint, rows: Rows, cid: Id)
    requires WellFormed(mac, rows) && cid in rows.conversations
    ensures PreviewReady(rows, cid)
  {
    StoredFits(mac, rows, cid);
    assert HistoryOk(mac, cid, rows.turns[cid]) by { StoredHistory(mac, rows, cid); }
    hide WellFormed, TurnFine, ConversationOk;
    forall t | t in rows.turns[cid] ensures t.conversationId == cid {
      var i :| 0 <= i < |rows.turns[cid]| && rows.turns[cid][i] == t;
    }
  }

  ghost predicate PreviewReady(rows: Rows, cid: Id)
  {
    && cid in rows.conversations && cid in rows.turns && rows.conversations[cid].id == cid
    && forall t | t in rows.turns[cid] :: t.conversationId == cid
  }

  lemma {:induction false} PreviewAre(rows: Rows, order: seq<Id>, moment: int)
    requires NoRepeats(order) && forall cid | cid in order :: PreviewReady(rows, cid)
    ensures var previews := PreviewOver(rows, RecordsOf(order, rows.conversations), Some(moment));
            && (forall i, j | 0 <= i < j < |previews| :: previews[i].conversationId != previews[j].conversationId)
            && (forall p | p in previews :: p.conversationId in order && p.conversationId in rows.conversations
                  && p.conversationId in rows.turns
                  && var c := rows.conversations[p.conversationId];
                     && (c.status == DeletionPending || PastCeiling(c, moment))
                     && (p.reason == DeletionPendingReason <==> c.status == DeletionPending)
                     && p.turnCount == |rows.turns[p.conversationId]| && p.deleteAfter == c.retention.deleteAfter)
            && (forall cid | cid in order && cid in rows.conversations
                             && (rows.conversations[cid].status == DeletionPending || PastCeiling(rows.conversations[cid], moment)) ::
                  exists p :: p in previews && p.conversationId == cid)
  {
    if order != [] {
      var cid, later := order[0], order[1..];
      assert PreviewReady(rows, cid);
      assert cid in order && cid !in later && forall c | c in later :: c in order;
      PreviewAre(rows, later, moment);
      OwnOfOne(rows.turns[cid], cid, cid);
      var c := rows.conversations[cid];
      assert RecordsOf(order, rows.conversations) == [c] + RecordsOf(later, rows.conversations);
      hide RecordsOf, CountWith, Own;
      var rest := PreviewOver(rows, RecordsOf(later, rows.conversations), Some(moment));
      var all := PreviewOver(rows, RecordsOf(order, rows.conversations), Some(moment));
      if c.status == DeletionPending || PastCeiling(c, moment) {
        assert all == [PreviewRow(c, rows.turns[cid])] + rest;
      } else {
        assert all == rest;
      }
      hide PreviewOver;
      forall d | d in order && d in rows.conversations
                 && (rows.conversations[d].status == DeletionPending || PastCeiling(rows.conversations[d], moment))
        ensures exists p :: p in all && p.conversationId == d
      {
        if d == cid {
          assert all[0] in all;
        } else {
          assert d in later;
          var p :| p in rest && p.conversationId == d;
          assert p in all;
        }
      }
    }
  }

  // -- audit ----------------------------------------------------------------------------

  /** A count over turns is a sum over them. */
  lemma {:induction false} CountIsSum(a: seq<Turn>, b: seq<Turn>, t: Turn, status: TurnStatus)
    ensures CountWith(a + b, status) == CountWith(a, status) + CountWith(b, status) && CountWith([], status) == 0
    ensures CountWith([t], status) == if t.status == status then 1 else 0
  {
    assert [t][1..] == [];
    if a == [] {
      assert a + b == b;
    } else {
      assert (a + b)[1..] == a[1..] + b;
      CountIsSum(a[1..], b, t, status);
    }
  }

  /** Every accepted operation leaves its entry, by name: one for a creation, a change, an append
      or an advance; and a refusal leaves none. */
  lemma OperationsAreAudited(mac: Fingerprint, rows: Rows, actor: Actor, cid: Id, change: Change, id: Id, lineage: TurnLineage,
                             q: TurnRequest, status: TurnStatus, retention: RetentionPolicy, title: Option<string>, now: int)
    ensures var r := Create(rows, actor, cid, retention, title, now);
            r.events == if r.result.Ok? then [ConversationEvent("conversation.created", AuditConversation(r.result.value, []))] else []
    ensures var r := ChangeConversation(rows, actor, cid, change, now);
            r.events == if r.result.Ok?
                        then [ConversationEvent(NameOfChange(change), AuditConversation(r.result.value, TurnsOf(rows, r.result.value.id)))]
                        else []
    ensures var r := AppendTurn(mac, rows, actor, cid, id, lineage, q, now);
            r.events == if r.result.Ok? then [TurnEvent("turn.appended", AuditTurn(r.result.value))] else []
    ensures var r := AdvanceTurnStatus(rows, actor, cid, id, status, now);
            r.events == if r.result.Ok? then [TurnEvent("turn.status_advanced", AuditTurn(r.result.value))] else []
  {
    hide ConversationOk, TurnOk, GateVerdict, UniverseOf, AuditTurn, AuditConversation, FindTurn, ReplaceTurn, Changed;
  }

  /** A deletion leaves its request, one entry for each turn it purges if it keeps tombstones,
      and its completion; an expiry leaves its own entry in place of the request. */
  lemma DeletionsAreAudited(rows: Rows, actor: Actor, cid: Id, mode: DeletionMode, requestedAt: int, at: int, moment: int)
    requires cid in rows.conversations && rows.conversations[cid].id == cid
    requires rows.conversations[cid].status == Active || rows.conversations[cid].status == Archived
    ensures var pending := PendingForm(rows.conversations[cid], mode, requestedAt);
            var r := DeleteConversation(rows, actor, cid, mode, requestedAt, at);
            && (r.result.Ok? ==>
                  r.events == [ConversationEvent("conversation.deletion_requested", AuditConversation(pending, TurnsOf(rows, cid)))]
                              + (if mode == PurgeAllRecords then [] else PurgeEvents(TurnsOf(rows, cid), at))
                              + [ConversationEvent("conversation.deleted", r.result.value)])
            && (r.result.Err? ==> r.events == [])
    ensures var expired := PendingForm(rows.conversations[cid], PurgeContentKeepTombstone, moment);
            var r := EnforceOne(rows, rows.conversations[cid], Some(moment), at);
            && r.result.Ok?
            && r.events == if PastCeiling(rows.conversations[cid], moment)
                           then [ConversationEvent("conversation.retention_expired", AuditConversation(expired, TurnsOf(rows, cid)))]
                                + PurgeEvents(TurnsOf(rows, cid), at)
                                + [ConversationEvent("conversation.deleted", r.result.value.value)]
                           else []
    ensures forall e | e in PurgeEvents(TurnsOf(rows, cid), at) :: e.TurnEvent? && e.kind == "turn.content_purged"
  {
    PurgeEventsAre(TurnsOf(rows, cid), at);
    hide ConversationOk, AuditConversation, AuditTurn, Tombstones, PurgeEvents, DeletedForm;
  }

  lemma {:induction false} PurgeEventsAre(turns: seq<Turn>, at: int)
    ensures forall e | e in PurgeEvents(turns, at) :: e.TurnEvent? && e.kind == "turn.content_purged"
  {
    hide AuditTurn, Tombstone;
    if turns != [] { PurgeEventsAre(turns[..|turns| - 1], at); }
  }

  /** A turn that is not valid is refused as such, to its owner. */
  lemma InvalidIsRefused(mac: Fingerprint, rows: Rows, actor: Actor, cid: Id, id: Id, lineage: TurnLineage, q: TurnRequest, now: int)
    ensures var r := AppendTurn(mac, rows, actor, cid, id, lineage, q, now);
            && (!(cid in rows.conversations && rows.conversations[cid].actor == actor) <==> r.result == Err(UnknownConversation))
            && (cid in rows.conversations && rows.conversations[cid].actor == actor && !TurnOk(MakeTurn(mac, cid, id, lineage, q, now))
                <==> r.result == Err(InvalidRecord))
  {
    hide TurnOk, GateVerdict, UniverseOf, AuditTurn, MakeTurn;
  }

  /** The audit name of a change. */
  function NameOfChange(change: Change): string
  {
    if change.Rename? then "conversation.renamed"
    else if change.Archive? then "conversation.archived" else if change.Unarchive? then "conversation.unarchived"
    else if change.Pin? then "conversation.pinned" else if change.Unpin? then "conversation.unpinned"
    else if change.AddTag? then "conversation.tagged" else if change.RemoveTag? then "conversation.untagged"
    else if change.SetFolder? then "conversation.foldered" else "conversation.unfoldered"
  }

  /** An audit entry tells who, what and when, and how much, and no text: none of title, tags,
      folder and content is in it. */
  lemma AuditTells(c: Conversation, own: seq<Turn>, t: Turn)
    requires forall u | u in own :: u.conversationId == c.id
    ensures AuditConversation(c, own)
            == ConversationAudit(c.id, c.actor.actorId, c.status, c.retention.policyId,
                                 if c.deletion.Some? then Some(c.deletion.value.mode) else None,
                                 |own|, CountWith(own, Complete), CountWith(own, Interrupted), c.createdAt, c.updatedAt)
    ensures AuditTurn(t) == TurnAudit(t.id, t.conversationId, t.role, t.mode, t.status, t.lineage, t.contentHash,
                                      |t.content|, |t.voice|, t.purged, t.createdAt, t.completedAt)
  {
    OwnOfOne(own, c.id, c.id);
    hide CountWith;
  }

  // -- changes ------------------------------------------------------------------------

  /** The record shows the change. */
  predicate Shows(c: Conversation, change: Change)
  {
    match change
    case Rename(title) => c.title == Some(title)
    case Archive => c.status == Archived
    case Unarchive => c.status == Active
    case Pin => c.pinned
    case Unpin => !c.pinned
    case AddTag(tag) => tag in c.tags
    case RemoveTag(tag) => tag !in c.tags
    case SetFolder(folder) => c.folder == Some(folder)
    case ClearFolder => c.folder.None?
  }

  /** What takes a change back, given the record before it. */
  function Undo(before: Conversation, change: Change): Option<Change>
  {
    match change
    case Rename(_) => if before.title.Some? then Some(Rename(before.title.value)) else None
    case Archive => Some(Unarchive)
    case Unarchive => Some(Archive)
    case Pin => Some(Unpin)
    case Unpin => Some(Pin)
    case AddTag(tag) => Some(RemoveTag(tag))
    case RemoveTag(tag) => Some(AddTag(tag))
    case SetFolder(_) => Some(if before.folder.Some? then SetFolder(before.folder.value) else ClearFolder)
    case ClearFolder => if before.folder.Some? then Some(SetFolder(before.folder.value)) else None
  }

  /** A stored change shows, changes nothing if it already did, and can be taken back by
      the opposite change - except a first title, which can be replaced but not removed. */
  lemma ChangesTakeEffect(rows: Rows, actor: Actor, cid: Id, change: Change, now: int)
    requires ChangeConversation(rows, actor, cid, change, now).result.Ok?
    ensures var before, after := rows.conversations[cid], ChangeConversation(rows, actor, cid, change, now).result.value;
            && Shows(after, change) && after.updatedAt == now
            && (Shows(before, change) ==> after == before.(updatedAt := now))
            && (!Shows(before, change) && Undo(before, change).Some? ==>
                  Changed(after, Undo(before, change).value) == before.(updatedAt := now))
            && (!Shows(before, change) && Undo(before, change).None? ==> change.Rename? && before.title.None?)
  {
    hide ConversationOk, Changed, Shows, Undo, AuditConversation;
    var before := rows.conversations[cid];
    assert change.Archive? ==> before.status == Active;
    assert change.Unarchive? ==> before.status == Archived;
    assert Listable(before.status);
    ChangedShows(before, change, now);
  }

  lemma ChangedShows(before: Conversation, change: Change, now: int)
    requires Listable(before.status)
    ensures var after := Changed(before, change).(updatedAt := now);
            && Shows(after, change)
            && (Shows(before, change) ==> after == before.(updatedAt := now))
            && (!Shows(before, change) && Undo(before, change).Some? ==>
                  Changed(after, Undo(before, change).value) == before.(updatedAt := now))
            && (!Shows(before, change) && Undo(before, change).None? ==> change.Rename? && before.title.None?)
  { }

  /** The opposite of a change that took effect is never refused, and puts every row of
      the store back as it was, the update time of that one conversation aside. */
  lemma ChangeThenUndo(mac: Fingerprint, rows: Rows, actor: Actor, cid: Id, change: Change, now: int, later: int)
    requires WellFormed(mac, rows) && ChangeConversation(rows, actor, cid, change, now).result.Ok?
    requires !Shows(rows.conversations[cid], change) && Undo(rows.conversations[cid], change).Some?
    ensures var before := rows.conversations[cid];
            var undone := ChangeConversation(ChangeConversation(rows, actor, cid, change, now).rows, actor, cid,
                                             Undo(before, change).value, later);
            && undone.result == Ok(before.(updatedAt := later))
            && undone.rows == rows.(conversations := rows.conversations[cid := before.(updatedAt := later)])
  {
    var before, after := rows.conversations[cid], Changed(rows.conversations[cid], change).(updatedAt := now);
    var undo := Undo(before, change).value;
    hide WellFormed, HistoryOk, RecordFits, ConversationOk, ChangeConversation, Changed, Shows, Undo, PutConversation;
    StoredFits(mac, rows, cid);
    ChangeFacts(rows, actor, cid, change, now);
    UndoAllowed(before, change, now);
    ChangeAccepted(rows, actor, cid, change, now);
    ChangesTakeEffect(rows, actor, cid, change, now);
    TimeIsFree(before, later);
    SameAgain(after, undo, before, now, later);
    PutTwice(rows, after, before.(updatedAt := later));
    ChangeAccepted(PutConversation(rows, after), actor, cid, undo, later);
  }

  lemma PutTwice(rows: Rows, a: Conversation, b: Conversation)
    requires a.id == b.id && a.id in rows.conversations
    ensures PutConversation(PutConversation(rows, a), b) == rows.(conversations := rows.conversations[b.id := b])
    ensures PutConversation(rows, a).conversations == rows.conversations[a.id := a]
  { }

  lemma ChangeAccepted(rows: Rows, actor: Actor, cid: Id, change: Change, now: int)
    requires Owns(rows, actor, cid) && Listable(rows.conversations[cid].status)
    requires var c := rows.conversations[cid];
             && (change.Archive? ==> c.status == Active) && (change.Unarchive? ==> c.status == Archived)
             && ConversationOk(Changed(c, change).(updatedAt := now))
    ensures var updated := Changed(rows.conversations[cid], change).(updatedAt := now);
            && ChangeConversation(rows, actor, cid, change, now).result == Ok(updated)
            && ChangeConversation(rows, actor, cid, change, now).rows == PutConversation(rows, updated)
  {
    hide ConversationOk, Changed, AuditConversation, PutConversation;
  }

  lemma TimeIsFree(c: Conversation, at: int)
    requires ConversationOk(c)
    ensures ConversationOk(c.(updatedAt := at))
  { }

  lemma SameAgain(after: Conversation, undo: Change, before: Conversation, now: int, later: int)
    requires Changed(after, undo) == before.(updatedAt := now)
    ensures Changed(after, undo).(updatedAt := later) == before.(updatedAt := later)
  { }

  lemma UndoAllowed(before: Conversation, change: Change, now: int)
    requires Listable(before.status) && !Shows(before, change) && Undo(before, change).Some?
    ensures var after, undo := Changed(before, change).(updatedAt := now), Undo(before, change).value;
            && Listable(after.status) && after.actor == before.actor && after.id == before.id
            && (undo.Archive? ==> after.status == Active) && (undo.Unarchive? ==> after.status == Archived)
            && (change.Archive? ==> before.status == Active) && (change.Unarchive? ==> before.status == Archived)
  { }

  /** Why a change or a deletion is refused: to anyone but the owner there is no conversation;
      only an active one is archived and only an archived one unarchived; a deletion that has
      begun lets nothing be changed and one that is finished is not begun again; and a record
      that would not be valid is not stored. */
  lemma RefusalsExactly(mac: Fingerprint, rows: Rows, actor: Actor, cid: Id, change: Change, mode: DeletionMode, now: int, at: int)
    requires WellFormed(mac, rows)
    ensures var changed, deleted := ChangeConversation(rows, actor, cid, change, now).result,
                                    DeleteConversation(rows, actor, cid, mode, now, at).result;
            if !(cid in rows.conversations && rows.conversations[cid].actor == actor)
            then changed == Err(UnknownConversation) && deleted == Err(UnknownConversation)
            else
              var c := rows.conversations[cid];
              && (changed == Err(NotActive) <==> change.Archive? && c.status != Active)
              && (changed == Err(NotArchived) <==> change.Unarchive? && c.status != Archived)
              && (changed == Err(NotModifiable(c.status)) <==> !change.Archive? && !change.Unarchive? && c.status in {DeletionPending, Deleted})
              && (changed == Err(InvalidRecord) <==>
                    && c.status in {Active, Archived} && (change.Archive? ==> c.status == Active) && (change.Unarchive? ==> c.status == Archived)
                    && ((change.Rename? && |change.title| > 200) || (change.AddTag? && (!OrgTokenOk(change.tag) || |c.tags + {change.tag}| > 32))
                        || (change.SetFolder? && !OrgTokenOk(change.folder))))
              && (changed.Err? ==> changed.error in {NotActive, NotArchived, NotModifiable(c.status), InvalidRecord})
              && (deleted == Err(CannotDeleteAgain) <==> c.status == Deleted)
              && (deleted == Err(InvalidRecord) <==> c.status in {Active, Archived} && mode !in {PurgeContentKeepTombstone, PurgeAllRecords})
              && (deleted.Err? ==> deleted.error in {CannotDeleteAgain, InvalidRecord})
  {
    hide WellFormed, ConversationOk, RecordFits, Changed, ChangeConversation, DeleteConversation, OrgTokenOk;
    if Owns(rows, actor, cid) {
      var c := rows.conversations[cid];
      StoredFits(mac, rows, cid);
      ChangeIs(rows, actor, cid, change, now);
      if c.status == Active || c.status == Archived { ChangedValid(c, change, now); }
      DeleteIs(rows, actor, cid, mode, now, at);
      PendingValid(c, mode, now);
    } else {
      ForeignRefused(rows, actor, cid, change, mode, now, at);
    }
  }

  lemma ForeignRefused(rows: Rows, actor: Actor, cid: Id, change: Change, mode: DeletionMode, now: int, at: int)
    requires !Owns(rows, actor, cid)
    ensures ChangeConversation(rows, actor, cid, change, now).result == Err(UnknownConversation)
    ensures DeleteConversation(rows, actor, cid, mode, now, at).result == Err(UnknownConversation)
  { }

  lemma ChangeIs(rows: Rows, actor: Actor, cid: Id, change: Change, now: int)
    requires Owns(rows, actor, cid)
    ensures var c, r := rows.conversations[cid], ChangeConversation(rows, actor, cid, change, now).result;
            r == if change.Archive? && c.status != Active then Err(NotActive)
                 else if change.Unarchive? && c.status != Archived then Err(NotArchived)
                 else if c.status != Active && c.status != Archived then Err(NotModifiable(c.status))
                 else if !ConversationOk(Changed(c, change).(updatedAt := now)) then Err(InvalidRecord)
                 else Ok(Changed(c, change).(updatedAt := now))
  {
    hide ConversationOk, Changed, AuditConversation;
  }

  lemma DeleteIs(rows: Rows, actor: Actor, cid: Id, mode: DeletionMode, now: int, at: int)
    requires Owns(rows, actor, cid)
    ensures var c, r := rows.conversations[cid], DeleteConversation(rows, actor, cid, mode, now, at).result;
            && (c.status == Deleted ==> r == Err(CannotDeleteAgain)) && (c.status == DeletionPending ==> r.Ok?)
            && (c.status == Active || c.status == Archived ==>
                  if ConversationOk(PendingForm(c, mode, now)) then r.Ok? else r == Err(InvalidRecord))
  {
    hide ConversationOk, AuditConversation, Tombstones, PurgeEvents, DeletedForm;
  }

  lemma ChangedValid(c: Conversation, change: Change, now: int)
    requires ConversationOk(c) && (c.status == Active || c.status == Archived)
    ensures ConversationOk(Changed(c, change).(updatedAt := now))
            <==> !((change.Rename? && |change.title| > 200) || (change.AddTag? && (!OrgTokenOk(change.tag) || |c.tags + {change.tag}| > 32))
                   || (change.SetFolder? && !OrgTokenOk(change.folder)))
  {
    hide OrgTokenOk, ConversationIdOk, RetentionPolicyOk;
    if change.RemoveTag? { FewerTags(c.tags, change.tag); }
  }

  lemma FewerTags(tags: set<string>, tag: string)
    ensures |tags - {tag}| <= |tags|
  {
    assert tags - {tag} <= tags;
    Subset(tags - {tag}, tags);
  }

  lemma {:induction false} Subset(a: set<string>, b: set<string>)
    requires a <= b
    ensures |a| <= |b|
    decreases a
  {
    if a != {} {
      var x :| x in a;
      Subset(a - {x}, b - {x});
    }
  }

  lemma PendingValid(c: Conversation, mode: DeletionMode, now: int)
    requires ConversationOk(c)
    ensures ConversationOk(PendingForm(c, mode, now)) <==> mode in {PurgeContentKeepTombstone, PurgeAllRecords}
  {
    hide OrgTokenOk, ConversationIdOk, RetentionPolicyOk;
  }

  /** A listing holds exactly the actor's conversations the filter asks for: pinned ones
      first, each group by the newest update. */
  lemma ListingIsOrdered(mac: Fingerprint, rows: Rows, actor: Actor, f: ListFilter)
    requires WellFormed(mac, rows)
    ensures var listed := ListConversations(rows, actor, f);
            && (forall c :: c in listed <==>
                  && c.id in rows.conversations && rows.conversations[c.id] == c && c.actor == actor
                  && (c.status == Active || (c.status == Archived && f.includeArchived))
                  && (f.pinned == Some(true) ==> c.pinned) && (f.pinned == Some(false) ==> !c.pinned)
                  && (f.tag.Some? ==> f.tag.value in c.tags) && (f.folder.Some? ==> c.folder == f.folder))
            && (forall i, j :: 0 <= i < j < |listed| ==>
                  || (listed[i].pinned && !listed[j].pinned)
                  || (listed[i].pinned == listed[j].pinned && listed[i].updatedAt >= listed[j].updatedAt))
            && (forall i, j :: 0 <= i < j < |listed| ==> listed[i].id != listed[j].id)
  {
    hide ListConversations, WellFormed, Listed;
    ListedInOrder(mac, rows, actor, f);
    ListedOnce(mac, rows, actor, f);
    var listed := ListConversations(rows, actor, f);
    forall c { ListedMeans(c, actor, f); }
    forall i, j | 0 <= i < j < |listed|
      ensures (listed[i].pinned && !listed[j].pinned)
              || (listed[i].pinned == listed[j].pinned && listed[i].updatedAt >= listed[j].updatedAt)
    { }
  }

  lemma ListedMeans(c: Conversation, actor: Actor, f: ListFilter)
    ensures Listed(c, actor, f) <==>
              && c.actor == actor && (c.status == Active || (c.status == Archived && f.includeArchived))
              && (f.pinned == Some(true) ==> c.pinned) && (f.pinned == Some(false) ==> !c.pinned)
              && (f.tag.Some? ==> f.tag.value in c.tags) && (f.folder.Some? ==> c.folder == f.folder)
  { }

  function IdOf(c: Conversation): Id { c.id }

  lemma ListedOnce(mac: Fingerprint, rows: Rows, actor: Actor, f: ListFilter)
    requires WellFormed(mac, rows)
    ensures var listed := ListConversations(rows, actor, f); forall i, j :: 0 <= i < j < |listed| ==> listed[i].id != listed[j].id
  {
    var found, listed := ListedOf(Records(rows), actor, f), ListConversations(rows, actor, f);
    StableSort.SortIsStable(found, NewestFirst, StableSort.IntLess);
    StableSort.SortIsStable(StableSort.Sort(found, NewestFirst, StableSort.IntLess), PinnedFirst, StableSort.IntLess);
    hide WellFormed, StableSort.Sort, ListedOf, RecordsOf;
    OrderHolds(mac, rows);
    forall id | id in rows.order ensures id in rows.conversations && rows.conversations[id].id == id { StoredFits(mac, rows, id); }
    FoundOnce(rows.order, rows.conversations, actor, f);
    StableSort.KeysStayDistinct(found, listed, IdOf);
  }

  lemma {:induction false} FoundOnce(order: seq<Id>, conversations: map<Id, Conversation>, actor: Actor, f: ListFilter)
    requires NoRepeats(order) && forall id | id in order :: id in conversations && conversations[id].id == id
    ensures var found := ListedOf(RecordsOf(order, conversations), actor, f);
            && (forall c | c in found :: c.id in order)
            && StableSort.DistinctKeys(found, IdOf)
  {
    if order != [] {
      var first, later := order[0], order[1..];
      FirstIsOther(order);
      hide Listed, NoRepeats, ListedOf, RecordsOf;
      FoundOnce(later, conversations, actor, f);
      FoundUnfolds(order, conversations, actor, f);
      var rest := ListedOf(RecordsOf(later, conversations), actor, f);
      assert forall c | c in rest :: IdOf(c) != first;
      DistinctCons(conversations[first], rest);
    }
  }

  lemma DistinctCons(c: Conversation, rest: seq<Conversation>)
    requires StableSort.DistinctKeys(rest, IdOf) && forall d | d in rest :: IdOf(d) != IdOf(c)
    ensures StableSort.DistinctKeys([c] + rest, IdOf)
  { }

  lemma FoundUnfolds(order: seq<Id>, conversations: map<Id, Conversation>, actor: Actor, f: ListFilter)
    requires order != [] && order[0] in conversations
    ensures var rest := ListedOf(RecordsOf(order[1..], conversations), actor, f);
            ListedOf(RecordsOf(order, conversations), actor, f)
            == if Listed(conversations[order[0]], actor, f) then [conversations[order[0]]] + rest else rest
  {
    hide Listed;
    assert RecordsOf(order, conversations)[1..] == RecordsOf(order[1..], conversations);
  }

  lemma ListedInOrder(mac: Fingerprint, rows: Rows, actor: Actor, f: ListFilter)
    requires WellFormed(mac, rows)
    ensures var listed := ListConversations(rows, actor, f);
            && (forall c :: c in listed <==> c.id in rows.conversations && rows.conversations[c.id] == c && Listed(c, actor, f))
            && (forall i, j :: 0 <= i < j < |listed| ==>
                  PinnedFirst(listed[i]) < PinnedFirst(listed[j])
                  || (PinnedFirst(listed[i]) == PinnedFirst(listed[j]) && listed[i].updatedAt >= listed[j].updatedAt))
  {
    var found := ListedOf(Records(rows), actor, f);
    var newest := StableSort.Sort(found, NewestFirst, StableSort.IntLess);
    var listed := ListConversations(rows, actor, f);
    StableSort.SortIsStable(found, NewestFirst, StableSort.IntLess);
    StableSort.SortIsStable(newest, PinnedFirst, StableSort.IntLess);
    ListedMembers(mac, rows, actor, f);
    hide WellFormed, ListedOf, RecordsOf, Listed;
    forall c ensures c in listed <==> c in found { assert c in multiset(listed) <==> c in multiset(found); }
    forall i, j | 0 <= i < j < |listed|
      ensures PinnedFirst(listed[i]) < PinnedFirst(listed[j])
              || (PinnedFirst(listed[i]) == PinnedFirst(listed[j]) && listed[i].updatedAt >= listed[j].updatedAt)
    {
      var k := PinnedFirst(listed[i]);
      if k == PinnedFirst(listed[j]) {
        GroupAscending(newest, listed, k, i, j);
      }
    }
  }

  /** Elements of one group keep the order the list had before the stable sort. */
  lemma GroupAscending(newest: seq<Conversation>, listed: seq<Conversation>, k: int, i: nat, j: nat)
    requires StableSort.Ascending(newest, NewestFirst, StableSort.IntLess)
    requires StableSort.WithKey(listed, PinnedFirst, k) == StableSort.WithKey(newest, PinnedFirst, k)
    requires i < j < |listed| && PinnedFirst(listed[i]) == k == PinnedFirst(listed[j])
    ensures listed[i].updatedAt >= listed[j].updatedAt
  {
    StableSort.GroupOfAscending(newest, PinnedFirst, k, NewestFirst, StableSort.IntLess);
    var a, b := StableSort.InGroup(listed, PinnedFirst, k, i, j);
    var group := StableSort.WithKey(listed, PinnedFirst, k);
    assert !StableSort.IntLess(NewestFirst(group[b]), NewestFirst(group[a]));
  }

  lemma {:induction false} RecordsMembers(order: seq<Id>, conversations: map<Id, Conversation>)
    ensures forall c :: c in RecordsOf(order, conversations)
              <==> exists id :: id in order && id in conversations && conversations[id] == c
  {
    if order != [] {
      RecordsMembers(order[1..], conversations);
      assert order == [order[0]] + order[1..];
    }
  }

  lemma {:induction false} ListedOfMembers(records: seq<Conversation>, actor: Actor, f: ListFilter)
    ensures forall c :: c in ListedOf(records, actor, f) <==> c in records && Listed(c, actor, f)
  {
    hide Listed;
    if records != [] {
      ListedOfMembers(records[1..], actor, f);
      assert records == [records[0]] + records[1..];
    }
  }

  lemma ListedMembers(mac: Fingerprint, rows: Rows, actor: Actor, f: ListFilter)
    requires WellFormed(mac, rows)
    ensures forall c :: c in ListedOf(Records(rows), actor, f)
              <==> c.id in rows.conversations && rows.conversations[c.id] == c && Listed(c, actor, f)
  {
    RecordsMembers(rows.order, rows.conversations);
    ListedOfMembers(Records(rows), actor, f);
    forall id | id in rows.conversations ensures rows.conversations[id].id == id { StoredFits(mac, rows, id); }
    hide Listed, ListedOf, RecordsOf, HistoryOk, RecordFits;
  }

  // -- advancing and forking --------------------------------------------------------------

  /** A status advances exactly on the owner's streaming, unpurged turn of a live
      conversation, to a terminal status, and nothing else changes. */
  lemma AdvanceExactly(mac: Fingerprint, rows: Rows, actor: Actor, cid: Id, i: nat, status: TurnStatus, now: int)
    requires WellFormed(mac, rows) && Owns(rows, actor, cid) && cid in rows.turns && i < |rows.turns[cid]|
    ensures var t := rows.turns[cid][i];
            var reply := AdvanceTurnStatus(rows, actor, cid, t.id, status, now);
            && (reply.result.Ok? <==>
                  && rows.conversations[cid].status in {Active, Archived} && t.status == Streaming
                  && status in {Complete, Interrupted, Cancelled, Failed})
            && (reply.result.Ok? ==>
                  reply.rows == PutTurns(rows, cid, rows.turns[cid][i := t.(status := status, completedAt := Some(now))]))
            && (reply.result.Err? ==>
                  && reply.rows == rows
                  && reply.result.error == if rows.conversations[cid].status !in {Active, Archived} then HistoryFinal
                                           else if t.purged then PurgedCannotAdvance
                                           else if status !in {Complete, Interrupted, Cancelled, Failed} then NotTerminal
                                           else CommittedImmutable)
  {
    hide FindTurn, ReplaceTurn, TurnOk, TreeRows;
    var turns := rows.turns[cid];
    assert HistoryOk(mac, cid, turns);
    P.FindTurnUnique(mac, cid, turns, i);
    assert turns[i].purged ==> turns[i].status != Streaming by { assert TurnFine(mac, turns[i]); }
    hide WellFormed, HistoryOk;
    if Listable(rows.conversations[cid].status) && turns[i].status == Streaming && Terminal(status) {
      P.AdvanceAt(mac, rows, actor, cid, i, status, now);
    }
  }

  lemma {:induction false} NextSiblingIsFree(turns: seq<Turn>, parent: Option<Id>)
    ensures SiblingFree(turns, parent, NextSibling(turns, parent)) && NextSibling(turns, parent) >= 0
    ensures forall t | t in turns && t.lineage.parent == parent :: t.lineage.sibling < NextSibling(turns, parent)
    ensures NextSibling(turns, parent) > 0 ==>
              exists t :: t in turns && t.lineage.parent == parent && t.lineage.sibling == NextSibling(turns, parent) - 1
  {
    if turns != [] {
      NextSiblingIsFree(turns[1..], parent);
      assert turns == [turns[0]] + turns[1..];
    }
  }

  /** Above every sibling below `parent`, and no higher than that. */
  ghost predicate FirstFreeIndex(turns: seq<Turn>, parent: Option<Id>, index: int)
  {
    && index >= 0
    && (forall t | t in turns && t.lineage.parent == parent :: t.lineage.sibling < index)
    && (index > 0 ==> exists t :: t in turns && t.lineage.parent == parent && t.lineage.sibling == index - 1)
  }

  /** On an active conversation a branch under any stored turn is accepted, at the first
      index above every sibling, as long as the index range is not used up. */
  lemma BranchAccepted(mac: Fingerprint, rows: Rows, actor: Actor, cid: Id, parent: Id, id: Id, q: TurnRequest, now: int)
    requires WellFormed(mac, rows) && Owns(rows, actor, cid) && rows.conversations[cid].status == Active
    requires PlainRequest(q) && TurnIdOk(id) && (forall t | t in Universe(rows, actor) :: t.id != id)
    requires FindTurn(TurnsOf(rows, cid), parent).Some?
    ensures cid in rows.turns
    ensures var index := NextSibling(rows.turns[cid], Some(parent));
            && FirstFreeIndex(rows.turns[cid], Some(parent), index)
            && BranchTurn(mac, rows, actor, cid, parent, id, q, now).result
               == if index <= 4096 then Ok(MakeTurn(mac, cid, id, TurnLineage(Some(parent), index, Branch), q, now))
                  else Err(InvalidRecord)
  {
    hide WellFormed, HistoryOk, RecordFits, FindTurn, NextSibling, AppendTurn, PlainRequest, UniverseOf, TurnIdOk, MakeTurn, SiblingFree,
      ConversationOk, ReplaceTurn;
    StoredFits(mac, rows, cid);
    var turns := rows.turns[cid];
    var i := FindTurnAt(turns, parent);
    assert turns[i] in turns;
    StoredHistory(mac, rows, cid);
    StoredIdOk(mac, cid, turns, turns[i]);
    NextSiblingIsFree(turns, Some(parent));
    var lineage := TurnLineage(Some(parent), NextSibling(turns, Some(parent)), Branch);
    if NextSibling(turns, Some(parent)) <= MAX_SIBLING_INDEX {
      FreePlaceAccepted(mac, rows, actor, cid, id, lineage, q, now);
    }
  }

  /** A retry is a new sibling of the retried turn, above every other; the root has none. */
  lemma RetryAccepted(mac: Fingerprint, rows: Rows, actor: Actor, cid: Id, i: nat, id: Id, q: TurnRequest, now: int)
    requires WellFormed(mac, rows) && Owns(rows, actor, cid) && rows.conversations[cid].status == Active
    requires PlainRequest(q) && TurnIdOk(id) && (forall t | t in Universe(rows, actor) :: t.id != id)
    requires cid in rows.turns && i < |rows.turns[cid]|
    ensures var turns := rows.turns[cid];
            var parent := turns[i].lineage.parent;
            var index := NextSibling(turns, parent);
            && FirstFreeIndex(turns, parent, index)
            && RetryTurn(mac, rows, actor, cid, turns[i].id, id, q, now).result
               == if i == 0 then Err(RootCannotBeRetried)
                  else if index > 4096 then Err(InvalidRecord)
                  else Ok(MakeTurn(mac, cid, id, TurnLineage(parent, index, Retry), q, now))
  {
    hide WellFormed, HistoryOk, FindTurn, NextSibling, AppendTurn, PlainRequest, UniverseOf, TurnIdOk, MakeTurn, SiblingFree;
    var turns := rows.turns[cid];
    var parent := turns[i].lineage.parent;
    StoredHistory(mac, rows, cid);
    P.FindTurnUnique(mac, cid, turns, i);
    NextSiblingIsFree(turns, parent);
    ParentStored(mac, cid, turns, i);
    if i > 0 && NextSibling(turns, parent) <= MAX_SIBLING_INDEX {
      FreePlaceAccepted(mac, rows, actor, cid, id, TurnLineage(parent, NextSibling(turns, parent), Retry), q, now);
    }
  }

  lemma ParentStored(mac: Fingerprint, cid: Id, turns: seq<Turn>, i: nat)
    requires HistoryOk(mac, cid, turns) && i < |turns|
    ensures turns[i].lineage.parent.None? <==> i == 0
    ensures i > 0 ==> TurnIdOk(turns[i].lineage.parent.value)
                      && exists p :: p in turns && p.id == turns[i].lineage.parent.value
  {
    assert TurnFine(mac, turns[i]);
    if i > 0 {
      assert HasEarlierParent(turns, i);
      var j :| 0 <= j < i && turns[i].lineage.parent == Some(turns[j].id);
      assert turns[j] in turns;
    }
  }

  // -- after a restart ---------------------------------------------------------------------------

  /** Reopening settles everything a crash can have left open: no turn is streaming, no
      deletion is pending, and every other conversation keeps its record. */
  lemma ReopenSettles(mac: Fingerprint, rows: Rows, at: int, cid: Id)
    requires WellFormed(mac, rows)
    ensures var after := Reopen(rows, at);
            && (forall t | t in TurnsOf(after, cid) :: t.status != Streaming)
            && (cid in after.conversations ==> after.conversations[cid].status != DeletionPending)
            && (cid in rows.conversations && rows.conversations[cid].status != DeletionPending ==>
                  && cid in after.conversations && after.conversations[cid] == rows.conversations[cid]
                  && cid in rows.turns && cid in after.turns && InterruptedOnly(rows.turns[cid], after.turns[cid], at))
  {
    var recovered, after := RecoverStreamingTurns(rows, at), Reopen(rows, at);
    RecoverKeeps(mac, rows, at);
    WellFormedSweepable(mac, recovered);
    SweepOfAll(recovered, None, at);
    assert SweptAt(recovered, after, cid, None, at);
    NoneStreaming(rows, recovered, at, cid);
    if cid in rows.conversations {
      StoredFits(mac, rows, cid);
      RecoveredInterrupts(rows.turns[cid], at);
      hide InterruptedOnly, WellFormed, EnforceOver, RecoveredTurns, Sweepable, Restrict, ConversationOk, RecordFits;
      if rows.conversations[cid].status == DeletionPending && cid in after.turns {
        TombstonesSettled(recovered.turns[cid], at);
      }
    } else {
      hide WellFormed, EnforceOver, RecoveredTurns, Sweepable, Restrict;
    }
  }

  /** A turn that was streaming is interrupted at `at`; every other turn is as it was. */
  ghost predicate InterruptedOnly(before: seq<Turn>, after: seq<Turn>, at: int)
  {
    && |after| == |before|
    && forall i | 0 <= i < |before| ::
         after[i] == if before[i].status == Streaming then before[i].(status := Interrupted, completedAt := Some(at)) else before[i]
  }

  lemma RecoveredInterrupts(turns: seq<Turn>, at: int)
    ensures InterruptedOnly(turns, RecoveredTurns(turns, at), at)
  { }

  /** A tombstone is the turn without its content, interrupted if it was still streaming. */
  ghost predicate PurgedOnly(before: seq<Turn>, after: seq<Turn>, at: int)
  {
    && |after| == |before|
    && forall i | 0 <= i < |before| ::
         after[i] == if before[i].purged then before[i]
                     else if before[i].status == Streaming
                       then before[i].(status := Interrupted, completedAt := Some(at), content := [], purged := true)
                     else before[i].(content := [], purged := true)
  }

  lemma TombstonesPurge(turns: seq<Turn>, at: int)
    ensures PurgedOnly(turns, Tombstones(turns, at), at)
  { }

  lemma NoneStreaming(rows: Rows, recovered: Rows, at: int, cid: Id)
    requires recovered == RecoverStreamingTurns(rows, at)
    ensures forall t | t in TurnsOf(recovered, cid) :: t.status != Streaming
    ensures TurnsOf(recovered, cid) == RecoveredTurns(TurnsOf(rows, cid), at)
  { }

  lemma TombstonesSettled(turns: seq<Turn>, at: int)
    requires forall t | t in turns :: t.status != Streaming
    ensures forall t | t in Tombstones(turns, at) :: t.status != Streaming
  {
    forall t | t in Tombstones(turns, at) ensures t.status != Streaming {
      var i :| 0 <= i < |turns| && Tombstone(turns[i], at) == t;
      assert turns[i] in turns;
    }
  }
}
