/** Actors do not interfere: what an actor sees and gets depends on that actor's own
    rows only, and nobody else's operations touch those rows. */
module Isolation {
  import opened Outcomes
  import opened ConversationModels
  import opened Sequences
  import opened Lineage
  import opened ConversationRows
  import opened StoreInvariants
  import opened StoreRuns
  import TurnHistory

  // -- an actor's own rows ---------------------------------------------------

  function MineOf(order: seq<Id>, conversations: map<Id, Conversation>, actor: Actor): seq<Id>
  {
    if order == [] then []
    else if order[0] in conversations && conversations[order[0]].actor == actor
    then [order[0]] + MineOf(order[1..], conversations, actor)
    else MineOf(order[1..], conversations, actor)
  }

  /** The rows of one actor: its conversations, in order, and their turns. */
  function Project(rows: Rows, actor: Actor): Rows
  {
    Rows(MineOf(rows.order, rows.conversations, actor),
         map cid | cid in rows.conversations && rows.conversations[cid].actor == actor :: rows.conversations[cid],
         map cid | cid in rows.turns && Owns(rows, actor, cid) :: rows.turns[cid])
  }

  /** Exactly the actor's records and their turns, in the order of the store. */
  lemma ProjectedExactly(rows: Rows, actor: Actor)
    ensures var mine := Project(rows, actor);
            && (forall cid :: cid in mine.conversations <==> cid in rows.conversations && rows.conversations[cid].actor == actor)
            && (forall cid | cid in mine.conversations :: mine.conversations[cid] == rows.conversations[cid])
            && (forall cid :: cid in mine.turns <==> cid in mine.conversations && cid in rows.turns)
            && (forall cid | cid in mine.turns :: mine.turns[cid] == rows.turns[cid])
            && (forall cid :: cid in mine.order <==> cid in rows.order && cid in mine.conversations)
  {
    MineMembers(rows.order, rows.conversations, actor);
    hide MineOf;
  }

  ghost predicate Keyed(rows: Rows)
  {
    DictOk(rows) && forall cid | cid in rows.conversations :: rows.conversations[cid].id == cid && cid in rows.turns
  }

  lemma WellFormedKeyed(mac: Fingerprint, rows: Rows)
    requires WellFormed(mac, rows)
    ensures Keyed(rows)
  { }

  // -- projection and row writes ------------------------------------------------

  predicate SameOwner(a: map<Id, Conversation>, b: map<Id, Conversation>, actor: Actor, cid: Id)
  {
    (cid in a && a[cid].actor == actor) <==> (cid in b && b[cid].actor == actor)
  }

  lemma {:induction false} MineSame(order: seq<Id>, a: map<Id, Conversation>, b: map<Id, Conversation>, actor: Actor)
    requires forall cid | cid in order :: SameOwner(a, b, actor, cid)
    ensures MineOf(order, a, actor) == MineOf(order, b, actor)
  {
    if order != [] {
      assert SameOwner(a, b, actor, order[0]) && forall cid | cid in order[1..] :: cid in order;
      MineSame(order[1..], a, b, actor);
    }
  }

  lemma {:induction false} MineAppend(order: seq<Id>, id: Id, conversations: map<Id, Conversation>, actor: Actor)
    ensures MineOf(order + [id], conversations, actor)
            == MineOf(order, conversations, actor) + MineOf([id], conversations, actor)
  {
    if order == [] {
      assert order + [id] == [id];
    } else {
      assert (order + [id])[1..] == order[1..] + [id];
      MineAppend(order[1..], id, conversations, actor);
      assert (order + [id])[0] == order[0];
    }
  }

  lemma {:induction false} MineWithout(order: seq<Id>, cid: Id, conversations: map<Id, Conversation>, actor: Actor)
    ensures MineOf(Without(order, cid), conversations - {cid}, actor) == Without(MineOf(order, conversations, actor), cid)
  {
    if order != [] {
      MineWithout(order[1..], cid, conversations, actor);
      if order[0] != cid { assert Without(order, cid)[1..] == Without(order[1..], cid); }
      if order[0] in conversations && conversations[order[0]].actor == actor {
        assert MineOf(order, conversations, actor)[1..] == MineOf(order[1..], conversations, actor);
      }
    }
  }

  lemma {:induction false} WithoutAbsent(order: seq<Id>, cid: Id)
    requires cid !in order
    ensures Without(order, cid) == order
  {
    if order != [] { WithoutAbsent(order[1..], cid); }
  }

  lemma {:induction false} MineMembers(order: seq<Id>, conversations: map<Id, Conversation>, actor: Actor)
    ensures forall cid :: cid in MineOf(order, conversations, actor)
              <==> cid in order && cid in conversations && conversations[cid].actor == actor
  {
    if order != [] {
      MineMembers(order[1..], conversations, actor);
      assert order == [order[0]] + order[1..];
    }
  }

  /** Replacing an owned record, keeping its owner. */
  lemma ProjectPut(rows: Rows, record: Conversation, actor: Actor)
    requires record.id in rows.conversations && record.actor == rows.conversations[record.id].actor
    ensures Project(PutConversation(rows, record), actor)
            == if record.actor == actor then PutConversation(Project(rows, actor), record) else Project(rows, actor)
  {
    hide MineOf;
    var after := PutConversation(rows, record);
    assert rows.order == after.order;
    MineSame(rows.order, rows.conversations, after.conversations, actor);
    PutMaps(rows, record, actor);
    hide Project;
  }

  lemma PutMaps(rows: Rows, record: Conversation, actor: Actor)
    requires record.id in rows.conversations && record.actor == rows.conversations[record.id].actor
    ensures var after, mine := Project(PutConversation(rows, record), actor), Project(rows, actor);
            && after.order == MineOf(rows.order, PutConversation(rows, record).conversations, actor)
            && mine.order == MineOf(rows.order, rows.conversations, actor)
            && after.conversations == (if record.actor == actor then mine.conversations[record.id := record] else mine.conversations)
            && after.turns == mine.turns
            && (record.actor == actor <==> record.id in mine.conversations)
  {
    hide MineOf;
  }

  lemma ProjectPutTurns(rows: Rows, cid: Id, turns: seq<Turn>, actor: Actor)
    requires cid in rows.conversations
    ensures Project(PutTurns(rows, cid, turns), actor)
            == if rows.conversations[cid].actor == actor then PutTurns(Project(rows, actor), cid, turns)
               else Project(rows, actor)
  {
    hide MineOf;
  }

  lemma ProjectErase(rows: Rows, cid: Id, actor: Actor)
    requires cid in rows.conversations
    ensures Project(PopTurns(PopConversation(rows, cid), cid), actor)
            == if rows.conversations[cid].actor == actor then PopTurns(PopConversation(Project(rows, actor), cid), cid)
               else Project(rows, actor)
  {
    MineWithout(rows.order, cid, rows.conversations, actor);
    MineMembers(rows.order, rows.conversations, actor);
    if rows.conversations[cid].actor != actor { WithoutAbsent(MineOf(rows.order, rows.conversations, actor), cid); }
    hide MineOf, Without;
    ErasedMaps(rows, cid, actor);
    hide Project;
  }

  lemma ErasedMaps(rows: Rows, cid: Id, actor: Actor)
    requires cid in rows.conversations
    ensures var after, mine := Project(PopTurns(PopConversation(rows, cid), cid), actor), Project(rows, actor);
            && after.order == MineOf(Without(rows.order, cid), rows.conversations - {cid}, actor)
            && mine.order == MineOf(rows.order, rows.conversations, actor)
            && after.conversations == mine.conversations - {cid} && after.turns == mine.turns - {cid}
            && (rows.conversations[cid].actor != actor ==> cid !in mine.conversations && cid !in mine.turns)
  {
    hide MineOf, Without;
  }

  lemma MineNew(rows: Rows, record: Conversation, actor: Actor)
    requires record.id !in rows.order
    ensures MineOf(rows.order + [record.id], rows.conversations[record.id := record], actor)
            == MineOf(rows.order, rows.conversations, actor) + if record.actor == actor then [record.id] else []
  {
    var later := rows.conversations[record.id := record];
    MineAppend(rows.order, record.id, later, actor);
    MineElsewhere(rows.order, rows.conversations, record, actor);
  }

  lemma {:induction false} MineElsewhere(order: seq<Id>, a: map<Id, Conversation>, record: Conversation, actor: Actor)
    requires record.id !in order
    ensures MineOf(order, a[record.id := record], actor) == MineOf(order, a, actor)
  {
    if order != [] { MineElsewhere(order[1..], a, record, actor); }
  }

  lemma ProjectNew(rows: Rows, record: Conversation, actor: Actor)
    requires Keyed(rows) && record.id !in rows.conversations && record.id !in rows.turns
    ensures Project(PutConversation(PutTurns(rows, record.id, []), record), actor)
            == if record.actor == actor then PutConversation(PutTurns(Project(rows, actor), record.id, []), record)
               else Project(rows, actor)
  {
    MineNew(rows, record, actor);
    hide MineOf, NoRepeats;
    if record.actor == actor { NewMine(rows, record); } else { NewElsewhere(rows, record, actor); }
    hide Project;
  }

  lemma NewMine(rows: Rows, record: Conversation)
    requires record.id !in rows.conversations
    ensures var after, mine := PutConversation(PutTurns(rows, record.id, []), record), Project(rows, record.actor);
            && Project(after, record.actor).conversations == mine.conversations[record.id := record]
            && Project(after, record.actor).turns == mine.turns[record.id := []]
  {
    hide MineOf;
  }

  lemma NewElsewhere(rows: Rows, record: Conversation, actor: Actor)
    requires record.id !in rows.conversations && record.actor != actor
    ensures var after, mine := PutConversation(PutTurns(rows, record.id, []), record), Project(rows, actor);
            Project(after, actor).conversations == mine.conversations && Project(after, actor).turns == mine.turns
  {
    hide MineOf;
  }

  // -- projection and reads -------------------------------------------------------

  lemma {:induction false} MineUniverse(order: seq<Id>, rows: Rows, actor: Actor)
    requires Keyed(rows)
    ensures UniverseOf(RecordsOf(MineOf(order, rows.conversations, actor), Project(rows, actor).conversations),
                       Project(rows, actor).turns, actor)
            == UniverseOf(RecordsOf(order, rows.conversations), rows.turns, actor)
  {
    if order != [] {
      var c, mine := order[0], Project(rows, actor);
      MineUniverse(order[1..], rows, actor);
      if c in rows.conversations {
        assert RecordsOf(order, rows.conversations)[1..] == RecordsOf(order[1..], rows.conversations);
        if rows.conversations[c].actor == actor {
          var rest := MineOf(order[1..], rows.conversations, actor);
          assert MineOf(order, rows.conversations, actor)[1..] == rest;
          assert RecordsOf([c] + rest, mine.conversations) == [rows.conversations[c]] + RecordsOf(rest, mine.conversations);
        }
      }
    }
  }

  lemma {:induction false} MineListed(order: seq<Id>, rows: Rows, actor: Actor, f: ListFilter)
    ensures ListedOf(RecordsOf(MineOf(order, rows.conversations, actor), Project(rows, actor).conversations), actor, f)
            == ListedOf(RecordsOf(order, rows.conversations), actor, f)
  {
    if order != [] {
      var c, mine := order[0], Project(rows, actor);
      MineListed(order[1..], rows, actor, f);
      if c in rows.conversations {
        assert RecordsOf(order, rows.conversations)[1..] == RecordsOf(order[1..], rows.conversations);
        if rows.conversations[c].actor == actor {
          var rest := MineOf(order[1..], rows.conversations, actor);
          assert MineOf(order, rows.conversations, actor)[1..] == rest;
          assert RecordsOf([c] + rest, mine.conversations) == [rows.conversations[c]] + RecordsOf(rest, mine.conversations);
        }
      }
    }
  }

  /** A listing shows the actor's own conversations only. */
  lemma ListingIsIsolated(a: Rows, b: Rows, actor: Actor, f: ListFilter)
    requires Project(a, actor) == Project(b, actor)
    ensures ListConversations(a, actor, f) == ListConversations(b, actor, f)
  {
    MineListed(a.order, a, actor, f);
    MineListed(b.order, b, actor, f);
    hide MineOf, ListedOf, RecordsOf;
  }

  /** All that the operations of `actor` on `cid` look at is in the projection. */
  lemma Seen(rows: Rows, actor: Actor, cid: Id)
    requires Keyed(rows)
    ensures var mine := Project(rows, actor);
            && (Owns(mine, actor, cid) <==> Owns(rows, actor, cid))
            && (Owns(rows, actor, cid) ==> mine.conversations[cid] == rows.conversations[cid] && cid in mine.turns
                                           && mine.turns[cid] == rows.turns[cid])
            && Universe(mine, actor) == Universe(rows, actor)
  {
    MineUniverse(rows.order, rows, actor);
    hide MineOf, UniverseOf;
  }

  // -- every operation ---------------------------------------------------------------

  /** `all` is what an operation does to a row set, `mine` what it does to the actor's
      projection of it: same answer, same audit events, same rows of that actor. */
  predicate Same<T(==)>(mine: Reply<T>, all: Reply<T>, actor: Actor)
  {
    mine.result == all.result && mine.events == all.events && mine.rows == Project(all.rows, actor)
  }

  lemma CreateIsolated(rows: Rows, actor: Actor, id: Id, retention: RetentionPolicy, title: Option<string>, now: int,
                       other: Actor)
    requires Keyed(rows) && id !in rows.conversations && id !in rows.turns
    ensures Same(Create(Project(rows, actor), actor, id, retention, title, now),
                 Create(rows, actor, id, retention, title, now), actor)
    ensures other != actor ==> Project(Create(rows, actor, id, retention, title, now).rows, other) == Project(rows, other)
  {
    var record := NewConversation(actor, id, retention, title, now);
    ProjectNew(rows, record, actor);
    ProjectNew(rows, record, other);
    hide ConversationOk, Project, PutConversation, AuditConversation;
  }

  lemma ChangeIsolated(rows: Rows, actor: Actor, cid: Id, change: Change, now: int)
    requires Keyed(rows)
    ensures Same(ChangeConversation(Project(rows, actor), actor, cid, change, now),
                 ChangeConversation(rows, actor, cid, change, now), actor)
  {
    hide ConversationOk, Project, Changed, AuditConversation, Universe, PutConversation;
    Seen(rows, actor, cid);
    if Owns(rows, actor, cid) {
      assert rows.conversations[cid].id == cid;
      hide Keyed;
      ChangedIdentity(rows.conversations[cid], change);
      ProjectPut(rows, Changed(rows.conversations[cid], change).(updatedAt := now), actor);
      assert TurnsOf(Project(rows, actor), cid) == TurnsOf(rows, cid);
      hide TurnsOf;
    }
  }

  lemma ChangeElsewhere(rows: Rows, actor: Actor, cid: Id, change: Change, now: int, other: Actor)
    requires Keyed(rows) && other != actor
    ensures Project(ChangeConversation(rows, actor, cid, change, now).rows, other) == Project(rows, other)
  {
    hide ConversationOk, Project, Changed, AuditConversation, Universe, PutConversation;
    if Owns(rows, actor, cid) {
      ChangedIdentity(rows.conversations[cid], change);
      ProjectPut(rows, Changed(rows.conversations[cid], change).(updatedAt := now), other);
      hide Keyed;
    }
  }

  lemma ChangedIdentity(c: Conversation, change: Change)
    ensures Changed(c, change).id == c.id && Changed(c, change).actor == c.actor
  { }

  lemma AppendIsolated(mac: Fingerprint, rows: Rows, actor: Actor, cid: Id, id: Id, lineage: TurnLineage,
                       q: TurnRequest, now: int, other: Actor)
    requires Keyed(rows)
    ensures Same(AppendTurn(mac, Project(rows, actor), actor, cid, id, lineage, q, now),
                 AppendTurn(mac, rows, actor, cid, id, lineage, q, now), actor)
    ensures other != actor ==>
              Project(AppendTurn(mac, rows, actor, cid, id, lineage, q, now).rows, other) == Project(rows, other)
  {
    Seen(rows, actor, cid);
    if Owns(rows, actor, cid) {
      var turn := MakeTurn(mac, cid, id, lineage, q, now);
      StoredTurnIsolated(rows, actor, cid, turn, now, actor);
      StoredTurnIsolated(rows, actor, cid, turn, now, other);
      hide Project, GateVerdict, Universe, TurnOk, AuditTurn, MakeTurn, PutConversation, PutTurns;
    } else {
      hide Project, GateVerdict, Universe, TurnOk, AuditTurn, MakeTurn, PutConversation, PutTurns;
    }
  }

  lemma StoredTurnIsolated(rows: Rows, actor: Actor, cid: Id, turn: Turn, now: int, observer: Actor)
    requires Keyed(rows) && Owns(rows, actor, cid)
    ensures var after := PutConversation(PutTurns(rows, cid, TurnsOf(rows, cid) + [turn]),
                                         rows.conversations[cid].(updatedAt := now));
            var mine := Project(rows, observer);
            Project(after, observer) ==
              if observer == actor
              then PutConversation(PutTurns(mine, cid, TurnsOf(rows, cid) + [turn]), rows.conversations[cid].(updatedAt := now))
              else mine
  {
    var longer := PutTurns(rows, cid, TurnsOf(rows, cid) + [turn]);
    ProjectPutTurns(rows, cid, TurnsOf(rows, cid) + [turn], observer);
    ProjectPut(longer, rows.conversations[cid].(updatedAt := now), observer);
    hide Project, PutConversation;
  }

  lemma RetryIsolated(mac: Fingerprint, rows: Rows, actor: Actor, cid: Id, retryOf: Id, id: Id, q: TurnRequest, now: int,
                      other: Actor)
    requires Keyed(rows)
    ensures Same(RetryTurn(mac, Project(rows, actor), actor, cid, retryOf, id, q, now),
                 RetryTurn(mac, rows, actor, cid, retryOf, id, q, now), actor)
    ensures other != actor ==>
              Project(RetryTurn(mac, rows, actor, cid, retryOf, id, q, now).rows, other) == Project(rows, other)
  {
    hide Project, AppendTurn, LineageOk, Universe, FindTurn, NextSibling;
    Seen(rows, actor, cid);
    if Owns(rows, actor, cid) {
      assert TurnsOf(Project(rows, actor), cid) == TurnsOf(rows, cid);
      var target := FindTurn(TurnsOf(rows, cid), retryOf);
      if target.Some? {
        var parent := target.value.lineage.parent;
        AppendIsolated(mac, rows, actor, cid, id, TurnLineage(parent, NextSibling(TurnsOf(rows, cid), parent), Retry), q, now, other);
      }
      hide TurnsOf, Keyed;
    }
  }

  lemma BranchIsolated(mac: Fingerprint, rows: Rows, actor: Actor, cid: Id, parent: Id, id: Id, q: TurnRequest, now: int,
                       other: Actor)
    requires Keyed(rows)
    ensures Same(BranchTurn(mac, Project(rows, actor), actor, cid, parent, id, q, now),
                 BranchTurn(mac, rows, actor, cid, parent, id, q, now), actor)
    ensures other != actor ==>
              Project(BranchTurn(mac, rows, actor, cid, parent, id, q, now).rows, other) == Project(rows, other)
  {
    hide Project, AppendTurn, LineageOk, Universe, FindTurn, NextSibling;
    Seen(rows, actor, cid);
    if Owns(rows, actor, cid) {
      assert TurnsOf(Project(rows, actor), cid) == TurnsOf(rows, cid);
      var lineage := TurnLineage(Some(parent), NextSibling(TurnsOf(rows, cid), Some(parent)), Branch);
      AppendIsolated(mac, rows, actor, cid, id, lineage, q, now, other);
      hide TurnsOf, Keyed;
    }
  }

  lemma AdvanceIsolated(rows: Rows, actor: Actor, cid: Id, id: Id, status: TurnStatus, now: int)
    requires Keyed(rows)
    ensures Same(AdvanceTurnStatus(Project(rows, actor), actor, cid, id, status, now),
                 AdvanceTurnStatus(rows, actor, cid, id, status, now), actor)
  {
    hide Project, Universe, AuditTurn, PutTurns, FindTurn, ReplaceTurn, AdvanceTurnStatus, Same;
    Seen(rows, actor, cid);
    if Owns(rows, actor, cid) {
      assert TurnsOf(Project(rows, actor), cid) == TurnsOf(rows, cid);
      hide TurnsOf, Keyed;
      var target := FindTurn(TurnsOf(rows, cid), id);
      if target.Some? {
        var advanced := target.value.(status := status, completedAt := Some(now));
        ProjectPutTurns(rows, cid, ReplaceTurn(TurnsOf(rows, cid), advanced), actor);
      }
    }
    AdvanceSame(Project(rows, actor), rows, actor, cid, id, status, now);
  }

  lemma AdvanceSame(mine: Rows, rows: Rows, actor: Actor, cid: Id, id: Id, status: TurnStatus, now: int)
    requires mine == Project(rows, actor) && (Owns(mine, actor, cid) <==> Owns(rows, actor, cid))
    requires Owns(rows, actor, cid) ==>
               mine.conversations[cid] == rows.conversations[cid] && TurnsOf(mine, cid) == TurnsOf(rows, cid)
               && var target := FindTurn(TurnsOf(rows, cid), id);
               target.Some? ==>
                 var after := ReplaceTurn(TurnsOf(rows, cid), target.value.(status := status, completedAt := Some(now)));
                 PutTurns(mine, cid, after) == Project(PutTurns(rows, cid, after), actor)
    ensures Same(AdvanceTurnStatus(mine, actor, cid, id, status, now), AdvanceTurnStatus(rows, actor, cid, id, status, now), actor)
  {
    hide Project, AuditTurn, PutTurns, FindTurn, ReplaceTurn, TurnsOf;
  }

  lemma AdvanceElsewhere(rows: Rows, actor: Actor, cid: Id, id: Id, status: TurnStatus, now: int, other: Actor)
    requires other != actor
    ensures Project(AdvanceTurnStatus(rows, actor, cid, id, status, now).rows, other) == Project(rows, other)
  {
    hide Project, AuditTurn, PutTurns, FindTurn, ReplaceTurn;
    var reply := AdvanceTurnStatus(rows, actor, cid, id, status, now);
    if reply.result.Ok? { ProjectPutTurns(rows, cid, ReplaceTurn(TurnsOf(rows, cid), reply.result.value), other); }
  }

  lemma CompletionIsolated(rows: Rows, pending: Conversation, at: int, other: Actor)
    requires Keyed(rows) && Owns(rows, pending.actor, pending.id)
    ensures Same(CompleteDeletion(Project(rows, pending.actor), pending, at), CompleteDeletion(rows, pending, at), pending.actor)
    ensures other != pending.actor ==> Project(CompleteDeletion(rows, pending, at).rows, other) == Project(rows, other)
  {
    CompletionSeenBy(rows, pending, at, pending.actor);
    CompletionSeenBy(rows, pending, at, other);
    Seen(rows, pending.actor, pending.id);
    hide Project, Tombstones, AuditConversation, DeletedForm, PurgeEvents, PutConversation, PutTurns, PopConversation, PopTurns, Universe;
  }

  lemma CompletionSeenBy(rows: Rows, pending: Conversation, at: int, observer: Actor)
    requires Keyed(rows) && Owns(rows, pending.actor, pending.id)
    ensures Project(CompleteDeletion(rows, pending, at).rows, observer)
            == if observer == pending.actor then CompleteDeletion(Project(rows, observer), pending, at).rows
               else Project(rows, observer)
  {
    var cid := pending.id;
    var tombs := Tombstones(rows.turns[cid], at);
    var purged := PutTurns(rows, cid, tombs);
    Seen(rows, pending.actor, cid);
    ProjectPutTurns(rows, cid, tombs, observer);
    ProjectErase(purged, cid, observer);
    ProjectPut(purged, DeletedForm(pending, at), observer);
    hide Project, Tombstones, AuditConversation, PurgeEvents, PutConversation, PopConversation, PopTurns, Universe;
  }

  lemma DeleteIsolated(rows: Rows, actor: Actor, cid: Id, mode: DeletionMode, requestedAt: int, at: int)
    requires Keyed(rows)
    ensures Same(DeleteConversation(Project(rows, actor), actor, cid, mode, requestedAt, at),
                 DeleteConversation(rows, actor, cid, mode, requestedAt, at), actor)
  {
    Seen(rows, actor, cid);
    hide Project, CompleteDeletion, ConversationOk, Universe, DeleteConversation, Same;
    if Owns(rows, actor, cid) {
      var record := rows.conversations[cid];
      assert record.id == cid;
      hide Keyed;
      CompletionIsolated(rows, record, at, actor);
      MarkedCompletionIsolated(rows, cid, PendingForm(record, mode, requestedAt), at, actor);
      DeleteSame(Project(rows, actor), rows, actor, cid, mode, requestedAt, at);
    } else {
      NotOwnedDelete(Project(rows, actor), rows, actor, cid, mode, requestedAt, at);
    }
  }

  lemma NotOwnedDelete(mine: Rows, rows: Rows, actor: Actor, cid: Id, mode: DeletionMode, requestedAt: int, at: int)
    requires mine == Project(rows, actor) && !Owns(rows, actor, cid) && !Owns(mine, actor, cid)
    ensures Same(DeleteConversation(mine, actor, cid, mode, requestedAt, at),
                 DeleteConversation(rows, actor, cid, mode, requestedAt, at), actor)
  {
    hide Project;
  }

  lemma DeleteSame(mine: Rows, rows: Rows, actor: Actor, cid: Id, mode: DeletionMode, requestedAt: int, at: int)
    requires mine == Project(rows, actor) && Owns(rows, actor, cid) && Owns(mine, actor, cid)
    requires mine.conversations[cid] == rows.conversations[cid] && TurnsOf(mine, cid) == TurnsOf(rows, cid)
    requires var record := rows.conversations[cid];
             var pending := PendingForm(record, mode, requestedAt);
             && record.id == cid
             && Same(CompleteDeletion(mine, record, at), CompleteDeletion(rows, record, at), actor)
             && Same(CompleteDeletion(PutConversation(mine, pending), pending, at),
                     CompleteDeletion(PutConversation(rows, pending), pending, at), actor)
    ensures Same(DeleteConversation(mine, actor, cid, mode, requestedAt, at),
                 DeleteConversation(rows, actor, cid, mode, requestedAt, at), actor)
  {
    hide Project, CompleteDeletion, ConversationOk, PutConversation, AuditConversation, TurnsOf;
    assert rows.conversations[cid].status == DeletionPending || Listable(rows.conversations[cid].status)
           || rows.conversations[cid].status == Deleted;
  }

  lemma DeleteElsewhere(rows: Rows, actor: Actor, cid: Id, mode: DeletionMode, requestedAt: int, at: int, other: Actor)
    requires Keyed(rows) && other != actor
    ensures Project(DeleteConversation(rows, actor, cid, mode, requestedAt, at).rows, other) == Project(rows, other)
  {
    hide Project, CompleteDeletion, ConversationOk, AuditConversation, PutConversation;
    if Owns(rows, actor, cid) {
      var record := rows.conversations[cid];
      assert record.id == cid;
      hide Keyed;
      CompletionIsolated(rows, record, at, other);
      MarkedCompletionIsolated(rows, cid, PendingForm(record, mode, requestedAt), at, other);
    }
  }

  lemma MarkedCompletionIsolated(rows: Rows, cid: Id, pending: Conversation, at: int, other: Actor)
    requires Keyed(rows) && Owns(rows, pending.actor, pending.id)
    ensures Same(CompleteDeletion(PutConversation(Project(rows, pending.actor), pending), pending, at),
                 CompleteDeletion(PutConversation(rows, pending), pending, at), pending.actor)
    ensures other != pending.actor ==>
              Project(CompleteDeletion(PutConversation(rows, pending), pending, at).rows, other) == Project(rows, other)
  {
    assert Owns(PutConversation(rows, pending), pending.actor, pending.id);
    hide Project, CompleteDeletion, Keyed, PutConversation;
    ProjectPut(rows, pending, pending.actor);
    ProjectPut(rows, pending, other);
    PutKeyed(rows, pending);
    CompletionIsolated(PutConversation(rows, pending), pending, at, other);
  }

  lemma PutKeyed(rows: Rows, record: Conversation)
    requires Keyed(rows) && record.id in rows.conversations
    ensures Keyed(PutConversation(rows, record))
  { }

  lemma ReadIsolated(rows: Rows, actor: Actor, cid: Id, at: int, other: Actor)
    requires Keyed(rows)
    ensures Same(GetConversation(Project(rows, actor), actor, cid, at), GetConversation(rows, actor, cid, at), actor)
    ensures other != actor ==> Project(GetConversation(rows, actor, cid, at).rows, other) == Project(rows, other)
    ensures var found := GetConversation(rows, actor, cid, at);
            found.result.Ok? ==> cid in found.rows.conversations && found.rows.conversations[cid].actor == actor
  {
    hide Project, CompleteDeletion, Universe;
    Seen(rows, actor, cid);
    if Owns(rows, actor, cid) {
      var record := rows.conversations[cid];
      assert record.id == cid;
      hide Keyed;
      CompletionIsolated(rows, record, at, other);
      CompletedOwner(rows, record, at);
      ProjectedRecord(CompleteDeletion(rows, record, at).rows, actor, cid);
    }
  }

  lemma CompletedOwner(rows: Rows, pending: Conversation, at: int)
    ensures var done := CompleteDeletion(rows, pending, at).rows;
            pending.id in done.conversations ==> done.conversations[pending.id].actor == pending.actor
  { }

  lemma ProjectedRecord(rows: Rows, actor: Actor, cid: Id)
    ensures cid in Project(rows, actor).conversations <==> cid in rows.conversations && rows.conversations[cid].actor == actor
    ensures cid in rows.conversations && rows.conversations[cid].actor == actor ==>
              cid in Project(rows, actor).conversations && Project(rows, actor).conversations[cid] == rows.conversations[cid]
              && TurnsOf(Project(rows, actor), cid) == TurnsOf(rows, cid)
  { }

  lemma ReadTurnsIsolated(mac: Fingerprint, rows: Rows, actor: Actor, cid: Id, at: int)
    requires Keyed(rows)
    ensures Same(GetConversationWithTurns(mac, Project(rows, actor), actor, cid, at),
                 GetConversationWithTurns(mac, rows, actor, cid, at), actor)
  {
    hide Project, GetConversation, Keyed, UniqueIds, AllReachable, FingerprintsMatch, TurnsOf;
    ReadIsolated(rows, actor, cid, at, actor);
    ProjectedRecord(GetConversation(rows, actor, cid, at).rows, actor, cid);
  }

  // -- the statement -------------------------------------------------------------------

  predicate Acts(call: Call)
  {
    call.Creating? || call.Changing? || call.Appending? || call.Retrying? || call.Branching? || call.Advancing?
    || call.Reading? || call.Deleting?
  }

  datatype Answer =
    | Recorded(conversation: Result<Conversation, StoreError>)
    | Turned(turn: Result<Turn, StoreError>)
    | Read(history: Result<OrderedHistory, StoreError>)
    | Audited(audit: Result<ConversationAudit, StoreError>)

  /** What the caller of an operation gets back. */
  ghost function AnswerTo(mac: Fingerprint, rows: Rows, call: Call): Answer
    requires Acts(call)
  {
    match call
    case Creating(actor, id, retention, title, now) => Recorded(Create(rows, actor, id, retention, title, now).result)
    case Changing(actor, cid, change, now) => Recorded(ChangeConversation(rows, actor, cid, change, now).result)
    case Appending(actor, cid, id, lineage, q, now) => Turned(AppendTurn(mac, rows, actor, cid, id, lineage, q, now).result)
    case Retrying(actor, cid, of, id, q, now) => Turned(RetryTurn(mac, rows, actor, cid, of, id, q, now).result)
    case Branching(actor, cid, parent, id, q, now) => Turned(BranchTurn(mac, rows, actor, cid, parent, id, q, now).result)
    case Advancing(actor, cid, id, status, now) => Turned(AdvanceTurnStatus(rows, actor, cid, id, status, now).result)
    case Reading(actor, cid, at) => Read(GetConversationWithTurns(mac, rows, actor, cid, at).result)
    case Deleting(actor, cid, mode, requestedAt, at) => Audited(DeleteConversation(rows, actor, cid, mode, requestedAt, at).result)
  }

  predicate FreshFor(rows: Rows, call: Call)
  {
    call.Creating? ==> call.id !in rows.conversations && call.id !in rows.turns
  }

  /** Operating on the projection is projecting the operation. */
  lemma Commutes(mac: Fingerprint, rows: Rows, call: Call)
    requires Keyed(rows) && Acts(call) && FreshFor(rows, call)
    ensures AnswerTo(mac, Project(rows, call.actor), call) == AnswerTo(mac, rows, call)
    ensures Perform(mac, Project(rows, call.actor), call) == Project(Perform(mac, rows, call), call.actor)
  {
    hide Keyed, Project, Create, ChangeConversation, AppendTurn, RetryTurn, BranchTurn, AdvanceTurnStatus, GetConversation,
      GetConversationWithTurns, DeleteConversation;
    match call
    case Creating(actor, id, retention, title, now) => CreateIsolated(rows, actor, id, retention, title, now, actor);
    case Changing(actor, cid, change, now) => ChangeIsolated(rows, actor, cid, change, now);
    case Appending(actor, cid, id, lineage, q, now) => AppendIsolated(mac, rows, actor, cid, id, lineage, q, now, actor);
    case Retrying(actor, cid, of, id, q, now) => RetryIsolated(mac, rows, actor, cid, of, id, q, now, actor);
    case Branching(actor, cid, parent, id, q, now) => BranchIsolated(mac, rows, actor, cid, parent, id, q, now, actor);
    case Advancing(actor, cid, id, status, now) => AdvanceIsolated(rows, actor, cid, id, status, now);
    case Reading(actor, cid, at) =>
      ReadIsolated(rows, actor, cid, at, actor);
      ReadTurnsIsolated(mac, rows, actor, cid, at);
    case Deleting(actor, cid, mode, requestedAt, at) => DeleteIsolated(rows, actor, cid, mode, requestedAt, at);
  }

  lemma Elsewhere(mac: Fingerprint, rows: Rows, call: Call, other: Actor)
    requires Keyed(rows) && Acts(call) && FreshFor(rows, call) && other != call.actor
    ensures Project(Perform(mac, rows, call), other) == Project(rows, other)
  {
    hide Keyed, Project, Create, ChangeConversation, AppendTurn, RetryTurn, BranchTurn, AdvanceTurnStatus, GetConversation,
      DeleteConversation;
    match call
    case Creating(actor, id, retention, title, now) => CreateIsolated(rows, actor, id, retention, title, now, other);
    case Changing(actor, cid, change, now) => ChangeElsewhere(rows, actor, cid, change, now, other);
    case Appending(actor, cid, id, lineage, q, now) => AppendIsolated(mac, rows, actor, cid, id, lineage, q, now, other);
    case Retrying(actor, cid, of, id, q, now) => RetryIsolated(mac, rows, actor, cid, of, id, q, now, other);
    case Branching(actor, cid, parent, id, q, now) => BranchIsolated(mac, rows, actor, cid, parent, id, q, now, other);
    case Advancing(actor, cid, id, status, now) => AdvanceElsewhere(rows, actor, cid, id, status, now, other);
    case Reading(actor, cid, at) => ReadIsolated(rows, actor, cid, at, other);
    case Deleting(actor, cid, mode, requestedAt, at) => DeleteElsewhere(rows, actor, cid, mode, requestedAt, at, other);
  }

  /** Actor non-interference: two row sets that agree on an actor's rows give every
      operation of that actor the same answer - refusals included - and the same new
      rows; and the operation leaves every other actor's rows as they were. */
  lemma ActorsDoNotInterfere(mac: Fingerprint, a: Rows, b: Rows, call: Call, other: Actor)
    requires WellFormed(mac, a) && WellFormed(mac, b) && Acts(call) && FreshFor(a, call) && FreshFor(b, call)
    requires Project(a, call.actor) == Project(b, call.actor)
    ensures AnswerTo(mac, a, call) == AnswerTo(mac, b, call)
    ensures Project(Perform(mac, a, call), call.actor) == Project(Perform(mac, b, call), call.actor)
    ensures other != call.actor ==> Project(Perform(mac, a, call), other) == Project(a, other)
  {
    WellFormedKeyed(mac, a);
    WellFormedKeyed(mac, b);
    hide WellFormed, Keyed, Project, Perform, AnswerTo;
    Commutes(mac, a, call);
    Commutes(mac, b, call);
    if other != call.actor { Elsewhere(mac, a, call, other); }
  }

  // -- and over runs -------------------------------------------------------------------

  function Only(calls: seq<Call>, actor: Actor): seq<Call>
    requires forall c | c in calls :: Acts(c)
  {
    if calls == [] then []
    else if Acts(calls[0]) && calls[0].actor == actor then [calls[0]] + Only(calls[1..], actor)
    else Only(calls[1..], actor)
  }

  function PerformAll(mac: Fingerprint, rows: Rows, calls: seq<Call>): Rows
    decreases |calls|
  {
    if calls == [] then rows else PerformAll(mac, Perform(mac, rows, calls[0]), calls[1..])
  }

  lemma {:induction false} RunPerforms(mac: Fingerprint, w: World, calls: seq<Call>)
    ensures Run(mac, w, calls).rows == PerformAll(mac, w.rows, calls)
    decreases |calls|
  {
    hide Perform;
    if calls != [] { RunPerforms(mac, Step(mac, w, calls[0]), calls[1..]); }
  }

  /** However the actors' operations interleave, each actor ends with the rows it would
      have if nobody else had done anything. */
  lemma {:induction false} InterleavingIsInvisible(mac: Fingerprint, w: World, calls: seq<Call>, actor: Actor)
    requires WellFormed(mac, w.rows) && w.rows.turns.Keys <= w.used && Possible(mac, w, calls)
    requires forall c | c in calls :: Acts(c)
    ensures Project(Run(mac, w, calls).rows, actor) == PerformAll(mac, Project(w.rows, actor), Only(calls, actor))
    decreases |calls|
  {
    if calls == [] {
      hide WellFormed, Project;
    } else {
      var call, w' := calls[0], Step(mac, w, calls[0]);
      assert call in calls && forall c | c in calls[1..] :: c in calls;
      WellFormedKeyed(mac, w.rows);
      StepStaysSane(mac, w, call);
      assert FreshFor(w.rows, call);
      hide WellFormed, Keyed, Project, Perform;
      InterleavingIsInvisible(mac, w', calls[1..], actor);
      if call.actor == actor {
        Commutes(mac, w.rows, call);
        var rest := Only(calls[1..], actor);
        assert ([call] + rest)[1..] == rest;
      } else {
        Elsewhere(mac, w.rows, call, actor);
      }
    }
  }

  lemma StepStaysSane(mac: Fingerprint, w: World, call: Call)
    requires WellFormed(mac, w.rows) && w.rows.turns.Keys <= w.used && Enabled(w, call)
    ensures WellFormed(mac, Step(mac, w, call).rows) && Step(mac, w, call).rows.turns.Keys <= Step(mac, w, call).used
  {
    hide WellFormed, Perform;
    TurnHistory.StepKeeps(mac, w, call);
  }
}
