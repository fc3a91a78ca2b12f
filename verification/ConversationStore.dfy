/** The row-backed store itself (`MemoryConversationStore` in
    workbench/conversation_store.py): rows that its methods update in place, each
    method proved to do to the rows, the result and the audit trail exactly what its
    function in `ConversationRows` says, and to keep the store invariant. */
module ConversationStore {
  import opened Outcomes
  import opened ConversationModels
  import opened Lineage
  import R = ConversationRows
  import opened Sequences
  import opened StoreInvariants
  import opened StoreRuns
  import opened LineageReads
  import DeletionRecovery
  import StableSort

  class MemoryConversationStore {
    var order: seq<Id>
    var conversations: map<Id, Conversation>
    var turns: map<Id, seq<Turn>>
    var audit: seq<R.AuditEvent>
    const mac: Fingerprint

    function View(): R.Rows
      reads this
    {
      R.Rows(order, conversations, turns)
    }

    ghost predicate Valid()
      reads this
    {
      WellFormed(mac, View())
    }

    // -- internal helpers ------------------------------------------------------

    method PutConversation(record: Conversation)
      modifies this`order, this`conversations
      ensures View() == R.PutConversation(old(View()), record)
    {
      if record.id !in conversations { order := order + [record.id]; }
      conversations := conversations[record.id := record];
    }

    method StoreConversation(kind: string, record: Conversation)
      modifies this
      ensures View() == R.StoreConversation(old(View()), kind, record).rows
      ensures audit == old(audit) + R.StoreConversation(old(View()), kind, record).events
    {
      PutConversation(record);
      audit := audit + [R.ConversationEvent(kind, R.AuditConversation(record, R.TurnsOf(View(), record.id)))];
    }

    method FindTurn(cid: Id, id: Id) returns (found: Option<Turn>)
      ensures found == R.FindTurn(R.TurnsOf(View(), cid), id)
    {
      var own := R.TurnsOf(View(), cid);
      for i := 0 to |own|
        invariant R.FindTurn(own, id) == R.FindTurn(own[i..], id)
      {
        if own[i].id == id { return Some(own[i]); }
      }
      return None;
    }

    method NextSiblingIndex(cid: Id, parent: Option<Id>) returns (index: int)
      ensures index == R.NextSibling(R.TurnsOf(View(), cid), parent)
    {
      var own := R.TurnsOf(View(), cid);
      index := 0;
      for i := |own| downto 0
        invariant index == R.NextSibling(own[i..], parent)
      {
        if own[i].lineage.parent == parent && own[i].lineage.sibling >= index { index := own[i].lineage.sibling + 1; }
      }
    }

    /** The tombstones of one turn list are written one after the other. */
    method PurgeTurns(cid: Id, audited: bool, at: int)
      modifies this`turns, this`audit
      ensures turns == if cid in old(turns) then old(turns)[cid := R.Tombstones(old(turns)[cid], at)] else old(turns)
      ensures audit == if audited then old(audit) + R.PurgeEvents(R.TurnsOf(old(View()), cid), at) else old(audit)
    {
      hide DeletionRecovery.PartlyPurged, R.AuditTurn, R.Tombstones, R.PurgeEvents;
      var own := R.TurnsOf(View(), cid);
      ghost var before := turns;
      NothingPurged(own, at);
      for i := 0 to |own|
        invariant cid in before ==> turns == before[cid := DeletionRecovery.PartlyPurged(own, i, at)]
        invariant cid !in before ==> turns == before
        invariant audit == if audited then old(audit) + R.PurgeEvents(own[..i], at) else old(audit)
      {
        PurgeNext(own, i, at);
        DeletionRecovery.PartlyNext(own, i, at);
        if !own[i].purged {
          var item := own[i];
          if item.status == Streaming { item := item.(status := Interrupted, completedAt := Some(at)); }
          item := PurgeTurnContent(item);
          assert item == R.Tombstone(own[i], at);
          hide R.Tombstone;
          turns := turns[cid := turns[cid][i := item]];
          if audited { audit := audit + [R.TurnEvent("turn.content_purged", R.AuditTurn(item))]; }
        }
      }
      assert own[..|own|] == own;
      DeletionRecovery.AllPurgedPart(own, at);
    }

    method CompleteDeletion(pending: Conversation, at: int) returns (final: R.ConversationAudit)
      requires pending.deletion.Some? && !pending.deletion.value.mode.Unlisted?
      modifies this
      ensures View() == R.CompleteDeletion(old(View()), pending, at).rows
      ensures R.CompleteDeletion(old(View()), pending, at).result == Ok(final)
      ensures audit == old(audit) + R.CompleteDeletion(old(View()), pending, at).events
    {
      hide R.Tombstones, R.PurgeEvents, R.AuditConversation;
      PurgeTurns(pending.id, pending.deletion.value.mode == PurgeContentKeepTombstone, at);
      assert R.TurnsOf(old(View()), pending.id) == [] ==> R.Tombstones(R.TurnsOf(old(View()), pending.id), at) == [] by {
        DeletionRecovery.AllPurgedPart([], at);
      }
      var deleted := R.DeletedForm(pending, at);
      final := R.AuditConversation(deleted, R.TurnsOf(View(), pending.id));
      if pending.deletion.value.mode == PurgeAllRecords {
        audit := audit + [R.ConversationEvent("conversation.deleted", final)];
        order, conversations := R.Without(order, pending.id), conversations - {pending.id};
        turns := turns - {pending.id};
      } else {
        StoreConversation("conversation.deleted", deleted);
      }
    }

    // -- conversation lifecycle ------------------------------------------------------

    /** Every actor-facing method answers with a value or the error it raises. */
    method CreateConversation(actor: Actor, id: Id, retention: RetentionPolicy, title: Option<string>, now: int)
      returns (r: Result<Conversation, R.StoreError>)
      requires Valid() && id !in turns
      modifies this
      ensures Valid()
      ensures var reply := R.Create(old(View()), actor, id, retention, title, now);
              View() == reply.rows && r == reply.result && audit == old(audit) + reply.events
    {
      hide WellFormed, ConversationOk, R.PutConversation;
      CreateKeeps(mac, View(), actor, id, retention, title, now);
      var record := R.NewConversation(actor, id, retention, title, now);
      if !ConversationOk(record) { return Err(R.InvalidRecord); }
      turns := turns[id := []];
      StoreConversation("conversation.created", record);
      return Ok(record);
    }

    /** Rename, archive, unarchive, pin, unpin, tag, untag, set and clear the folder. */
    method ChangeConversation(actor: Actor, cid: Id, change: R.Change, now: int)
      returns (r: Result<Conversation, R.StoreError>)
      requires Valid()
      modifies this
      ensures Valid()
      ensures var reply := R.ChangeConversation(old(View()), actor, cid, change, now);
              View() == reply.rows && r == reply.result && audit == old(audit) + reply.events
    {
      hide WellFormed, ConversationOk, R.PutConversation, R.Changed;
      ChangeKeeps(mac, View(), actor, cid, change, now);
      if !R.Owns(View(), actor, cid) { return Err(R.UnknownConversation); }
      var record := conversations[cid];
      if change.Archive? && record.status != Active { return Err(R.NotActive); }
      if change.Unarchive? && record.status != Archived { return Err(R.NotArchived); }
      if !R.Listable(record.status) { return Err(R.NotModifiable(record.status)); }
      var updated := R.Changed(record, change).(updatedAt := now);
      if !ConversationOk(updated) { return Err(R.InvalidRecord); }
      StoreConversation(R.ChangeKind(change), updated);
      return Ok(updated);
    }

    method ListConversations(actor: Actor, f: R.ListFilter) returns (listed: seq<Conversation>)
      ensures listed == R.ListConversations(View(), actor, f)
    {
      var values := [];
      var records := R.Records(View());
      assert records[0..] == records;
      for i := 0 to |records|
        invariant values + R.ListedOf(records[i..], actor, f) == R.ListedOf(records, actor, f)
      {
        assert records[i..][0] == records[i] && records[i..][1..] == records[i + 1..];
        if R.Listed(records[i], actor, f) { values := values + [records[i]]; }
      }
      assert records[|records|..] == [] && values == R.ListedOf(records, actor, f);
      listed := StableSort.Sort(StableSort.Sort(values, R.NewestFirst, StableSort.IntLess), R.PinnedFirst, StableSort.IntLess);
    }

    // -- turn appends -------------------------------------------------------------------

    method AppendTurn(actor: Actor, cid: Id, id: Id, lineage: TurnLineage, q: R.TurnRequest, now: int)
      returns (r: Result<Turn, R.StoreError>)
      requires Valid()
      modifies this
      ensures Valid()
      ensures var reply := R.AppendTurn(mac, old(View()), actor, cid, id, lineage, q, now);
              View() == reply.rows && r == reply.result && audit == old(audit) + reply.events
    {
      hide WellFormed, GateVerdict, TurnOk, R.UniverseOf, R.AuditTurn, R.PutConversation;
      AppendKeeps(mac, View(), actor, cid, id, lineage, q, now);
      if cid in conversations { StoredRecordOk(mac, View(), cid); }
      hide ConversationOk;
      if !R.Owns(View(), actor, cid) { return Err(R.UnknownConversation); }
      var conversation := conversations[cid];
      var turn := R.MakeTurn(mac, cid, id, lineage, q, now);
      if !TurnOk(turn) { return Err(R.InvalidRecord); }
      var validated := ValidateTurnAppend(conversation, R.Universe(View(), actor), turn);
      if validated.Err? { return Err(R.Gate(validated.error)); }
      StoreTurn(cid, turn, now);
      return Ok(turn);
    }

    method StoreTurn(cid: Id, turn: Turn, now: int)
      requires cid in conversations
      modifies this
      ensures View() == R.PutConversation(R.PutTurns(old(View()), cid, R.TurnsOf(old(View()), cid) + [turn]),
                                          old(conversations)[cid].(updatedAt := now))
      ensures audit == old(audit) + [R.TurnEvent("turn.appended", R.AuditTurn(turn))]
    {
      var conversation := conversations[cid];
      turns := turns[cid := R.TurnsOf(View(), cid) + [turn]];
      PutConversation(conversation.(updatedAt := now));
      audit := audit + [R.TurnEvent("turn.appended", R.AuditTurn(turn))];
    }

    method RetryTurn(actor: Actor, cid: Id, retryOf: Id, id: Id, q: R.TurnRequest, now: int)
      returns (r: Result<Turn, R.StoreError>)
      requires Valid()
      modifies this
      ensures Valid()
      ensures var reply := R.RetryTurn(mac, old(View()), actor, cid, retryOf, id, q, now);
              View() == reply.rows && r == reply.result && audit == old(audit) + reply.events
    {
      hide WellFormed, R.AppendTurn, LineageOk, R.FindTurn, R.NextSibling;
      if !R.Owns(View(), actor, cid) { return Err(R.UnknownConversation); }
      var target := FindTurn(cid, retryOf);
      if target.None? { return Err(R.UnknownTurn); }
      var parent := target.value.lineage.parent;
      if parent.None? { return Err(R.RootCannotBeRetried); }
      var index := NextSiblingIndex(cid, parent);
      var lineage := TurnLineage(parent, index, Retry);
      if !LineageOk(lineage) { return Err(R.InvalidRecord); }
      r := AppendTurn(actor, cid, id, lineage, q, now);
    }

    method BranchTurn(actor: Actor, cid: Id, parent: Id, id: Id, q: R.TurnRequest, now: int)
      returns (r: Result<Turn, R.StoreError>)
      requires Valid()
      modifies this
      ensures Valid()
      ensures var reply := R.BranchTurn(mac, old(View()), actor, cid, parent, id, q, now);
              View() == reply.rows && r == reply.result && audit == old(audit) + reply.events
    {
      hide WellFormed, R.AppendTurn, LineageOk, R.FindTurn, R.NextSibling;
      if !R.Owns(View(), actor, cid) { return Err(R.UnknownConversation); }
      var target := FindTurn(cid, parent);
      if target.None? { return Err(R.UnknownTurn); }
      var index := NextSiblingIndex(cid, Some(parent));
      var lineage := TurnLineage(Some(parent), index, Branch);
      if !LineageOk(lineage) { return Err(R.InvalidRecord); }
      r := AppendTurn(actor, cid, id, lineage, q, now);
    }

    // -- status advance and reads ----------------------------------------------------------

    method AdvanceTurnStatus(actor: Actor, cid: Id, id: Id, status: TurnStatus, now: int)
      returns (r: Result<Turn, R.StoreError>)
      requires Valid()
      modifies this
      ensures Valid()
      ensures var reply := R.AdvanceTurnStatus(old(View()), actor, cid, id, status, now);
              View() == reply.rows && r == reply.result && audit == old(audit) + reply.events
    {
      hide WellFormed, R.FindTurn, R.ReplaceTurn, R.AuditTurn;
      AdvanceKeeps(mac, View(), actor, cid, id, status, now);
      if !R.Owns(View(), actor, cid) { return Err(R.UnknownConversation); }
      if !R.Listable(conversations[cid].status) { return Err(R.HistoryFinal); }
      var target := FindTurn(cid, id);
      if target.None? { return Err(R.UnknownTurn); }
      ghost var at := FindTurnAt(R.TurnsOf(View(), cid), id);
      if target.value.purged { return Err(R.PurgedCannotAdvance); }
      if !Terminal(status) { return Err(R.NotTerminal); }
      if target.value.status != Streaming { return Err(R.CommittedImmutable); }
      var advanced := target.value.(status := status, completedAt := Some(now));
      ReplaceTurn(cid, advanced);
      audit := audit + [R.TurnEvent("turn.status_advanced", R.AuditTurn(advanced))];
      return Ok(advanced);
    }

    method ReplaceTurn(cid: Id, advanced: Turn)
      modifies this`turns
      ensures turns == if R.FindTurn(R.TurnsOf(old(View()), cid), advanced.id).Some?
                       then old(turns)[cid := R.ReplaceTurn(R.TurnsOf(old(View()), cid), advanced)]
                       else old(turns)
    {
      hide R.FindTurn, R.ReplaceTurn;
      var own := R.TurnsOf(View(), cid);
      assert own[0..] == own && own[..0] == [];
      for i := 0 to |own|
        invariant R.FindTurn(own, advanced.id) == R.FindTurn(own[i..], advanced.id)
        invariant R.ReplaceTurn(own, advanced) == own[..i] + R.ReplaceTurn(own[i..], advanced)
        invariant turns == old(turns)
      {
        if own[i].id == advanced.id {
          ReplaceHere(own, i, advanced);
          turns := turns[cid := own[i := advanced]];
          return;
        }
        ReplaceLater(own, i, advanced);
      }
      assert own[|own|..] == [];
      NobodyFound(advanced.id);
    }

    method GetConversation(actor: Actor, cid: Id, at: int) returns (r: Result<Conversation, R.StoreError>)
      requires Valid()
      modifies this
      ensures Valid()
      ensures var reply := R.GetConversation(old(View()), actor, cid, at);
              View() == reply.rows && r == reply.result && audit == old(audit) + reply.events
    {
      hide WellFormed, R.CompleteDeletion, ConversationOk;
      ReadKeeps(mac, View(), actor, cid, at);
      if cid in conversations { StoredRecordOk(mac, View(), cid); }
      if !R.Owns(View(), actor, cid) { return Err(R.UnknownConversation); }
      var record := conversations[cid];
      if record.status != DeletionPending { return Ok(record); }
      var final := CompleteDeletion(record, at);
      if record.id !in conversations { return Err(R.UnknownConversation); }
      return Ok(conversations[record.id]);
    }

    /** The conversation and all its turns in lineage order, fingerprints re-verified. */
    method GetConversationWithTurns(actor: Actor, cid: Id, at: int) returns (r: Result<R.OrderedHistory, R.StoreError>)
      requires Valid()
      modifies this
      ensures Valid()
      ensures var reply := R.GetConversationWithTurns(mac, old(View()), actor, cid, at);
              View() == reply.rows && r == reply.result && audit == old(audit) + reply.events
    {
      ReconciledFacts(mac, View(), actor, cid, at);
      hide WellFormed, R.GetConversation, HistoryOk, Readable;
      var found := GetConversation(actor, cid, at);
      if found.Err? { return Err(found.error); }
      var own := R.TurnsOf(View(), cid);
      ReadHistoryOk(mac, cid, own);
      hide UniqueIds, AllReachable, R.FingerprintsMatch;
      var ordered := LineageOrder(own);
      if ordered.None? { return Err(R.BrokenLineage); }
      if !R.FingerprintsMatch(mac, ordered.value) { return Err(R.StaleFingerprint); }
      return Ok(R.OrderedHistory(found.value, ordered.value));
    }

    method DeleteConversation(actor: Actor, cid: Id, mode: DeletionMode, requestedAt: int, at: int)
      returns (r: Result<R.ConversationAudit, R.StoreError>)
      requires Valid()
      modifies this
      ensures Valid()
      ensures var reply := R.DeleteConversation(old(View()), actor, cid, mode, requestedAt, at);
              View() == reply.rows && r == reply.result && audit == old(audit) + reply.events
    {
      hide WellFormed, R.CompleteDeletion, R.PutConversation, R.AuditConversation, R.DeleteConversation, ConversationOk;
      DeleteKeeps(mac, View(), actor, cid, mode, requestedAt, at);
      if cid in conversations { StoredRecordOk(mac, View(), cid); }
      DeleteUnfolds(View(), actor, cid, mode, requestedAt, at);
      if !R.Owns(View(), actor, cid) { return Err(R.UnknownConversation); }
      var record := conversations[cid];
      if record.status == DeletionPending {
        var final := CompleteDeletion(record, at);
        return Ok(final);
      }
      if !R.Listable(record.status) { return Err(R.CannotDeleteAgain); }
      var pending := R.PendingForm(record, mode, requestedAt);
      if !ConversationOk(pending) { return Err(R.InvalidRecord); }
      PendingHasDeletion(pending);
      StoreConversation("conversation.deletion_requested", pending);
      var final := CompleteDeletion(pending, at);
      return Ok(final);
    }

    // -- retention ---------------------------------------------------------------

    /** What a pass does with one record it found. */
    method EnforceRecord(record: Conversation, moment: Option<int>, at: int) returns (enforced: Option<R.ConversationAudit>)
      requires ConversationOk(record)
      modifies this
      ensures View() == R.EnforceOne(old(View()), record, moment, at).rows
      ensures R.EnforceOne(old(View()), record, moment, at).result == Ok(enforced)
      ensures audit == old(audit) + R.EnforceOne(old(View()), record, moment, at).events
    {
      enforced := None;
      hide R.CompleteDeletion, R.PutConversation, R.AuditConversation;
      if record.status == DeletionPending {
        var final := CompleteDeletion(record, at);
        enforced := Some(final);
      } else if R.Expired(record, moment) {
        var expired := R.PendingForm(record, PurgeContentKeepTombstone, moment.value);
        StoreConversation("conversation.retention_expired", expired);
        var final := CompleteDeletion(expired, at);
        enforced := Some(final);
      }
    }

    /** One pass over the records found at its start: pending deletions are completed
        and, when a moment is given, expired conversations are deleted. */
    method Sweep(moment: Option<int>, at: int) returns (enforced: seq<R.ConversationAudit>)
      requires Valid()
      modifies this
      ensures Valid()
      ensures var sweep := R.EnforceOver(old(View()), R.Records(old(View())), moment, at);
              View() == sweep.rows && enforced == sweep.enforced && audit == old(audit) + sweep.events
    {
      hide R.EnforceOne, R.EnforceOver, WellFormed, ConversationOk, R.RecordsOf;
      enforced := [];
      var records := R.Records(View());
      ghost var sweep := R.EnforceOver(View(), records, moment, at);
      StoredRecordsOk(mac, View());
      WholePassKeeps(mac, View(), moment, at);
      assert records[0..] == records;
      for i := 0 to |records|
        invariant R.EnforceOver(View(), records[i..], moment, at).rows == sweep.rows
        invariant enforced + R.EnforceOver(View(), records[i..], moment, at).enforced == sweep.enforced
        invariant audit + R.EnforceOver(View(), records[i..], moment, at).events == old(audit) + sweep.events
      {
        SweepUnfolds(View(), records, i, moment, at);
        ghost var first := R.EnforceOne(View(), records[i], moment, at);
        ghost var rest := R.EnforceOver(first.rows, records[i + 1..], moment, at);
        Associate(audit, first.events, rest.events);
        var one := EnforceRecord(records[i], moment, at);
        if one.Some? {
          Associate(enforced, [one.value], rest.enforced);
          enforced := enforced + [one.value];
        }
      }
      SweepEnds(View(), records, moment, at);
    }

    method EnforceRetention(moment: int, at: int) returns (enforced: seq<R.ConversationAudit>)
      requires Valid()
      modifies this
      ensures Valid()
      ensures var sweep := R.EnforceRetention(old(View()), moment, at);
              View() == sweep.rows && enforced == sweep.enforced && audit == old(audit) + sweep.events
    {
      enforced := Sweep(Some(moment), at);
    }

    /** Lists what a pass at `moment` would act on, and changes nothing. */
    method RetentionPreview(moment: int) returns (previews: seq<R.RetentionPreview>)
      requires Valid()
      ensures previews == R.PreviewRetention(View(), moment)
    {
      hide WellFormed, R.PreviewRow, R.Due, R.RecordsOf;
      previews := [];
      var records := R.Records(View());
      assert records[0..] == records;
      for i := 0 to |records|
        invariant previews + R.PreviewOver(View(), records[i..], Some(moment)) == R.PreviewRetention(View(), moment)
      {
        var record := records[i];
        assert records[i..][0] == record && records[i..][1..] == records[i + 1..];
        if R.Due(record, Some(moment)) { previews := previews + [R.PreviewRow(record, R.TurnsOf(View(), record.id))]; }
      }
    }

    // -- opening ---------------------------------------------------------------

    constructor (rows: R.Rows, key: Fingerprint, recoverOnOpen: bool, at: int)
      requires WellFormed(key, rows)
      ensures Valid() && mac == key
      ensures View() == if recoverOnOpen then R.Reopen(rows, at) else rows
    {
      order, conversations, turns, audit, mac := rows.order, rows.conversations, rows.turns, [], key;
      new;
      assert View() == rows;
      if recoverOnOpen {
        ReopenKeeps(mac, rows, at);
        RecoverKeeps(mac, rows, at);
        var recovered := RecoverStreamingTurns(at);
        var done := Sweep(None, at);
      }
    }

    /** The histories are visited in the order of `order`: `create_conversation` adds a
        history and its record together, so both dicts hold them in that order. */
    method RecoverStreamingTurns(at: int) returns (recovered: seq<R.TurnAudit>)
      requires Valid()
      modifies this
      ensures Valid() && View() == R.RecoverStreamingTurns(old(View()), at)
      ensures recovered == R.RecoveryReport(old(order), old(turns), at)
      ensures audit == old(audit) + RecoveryEvents(recovered)
    {
      hide WellFormed, PartlyRecovered, R.RecoverStreamingTurns, R.RecoveryReport, R.RecoveredAudits, RecoveryEvents;
      recovered := [];
      ghost var before := View();
      RecoverKeeps(mac, before, at);
      NoneRecovered(before, at);
      for i := 0 to |order|
        invariant order == before.order && conversations == before.conversations
        invariant turns == PartlyRecovered(before, i, at)
        invariant recovered == R.RecoveryReport(order[..i], before.turns, at)
        invariant audit == old(audit) + RecoveryEvents(recovered)
      {
        RecoveredNext(mac, before, i, at);
        if order[i] in turns {
          var more := RecoverHistory(order[i], at);
          RecoveryEventsConcat(recovered, more);
          recovered := recovered + more;
        }
      }
      AllRecovered(mac, before, at);
    }

    method RecoverHistory(cid: Id, at: int) returns (recovered: seq<R.TurnAudit>)
      requires cid in turns
      modifies this`turns, this`audit
      ensures turns == old(turns)[cid := R.RecoveredTurns(old(turns)[cid], at)]
      ensures recovered == R.RecoveredAudits(old(turns)[cid], at)
      ensures audit == old(audit) + RecoveryEvents(recovered)
    {
      hide RecoveryEvents, R.AuditTurn, R.RecoveredTurns, R.Recovered, R.RecoveredAudits;
      recovered := [];
      ghost var before := turns;
      var own := turns[cid];
      assert turns == turns[cid := own];
      NoRecoveryEvents();
      RecoverNone(own, at);
      for i := 0 to |own|
        invariant cid in turns && turns == before[cid := R.RecoveredTurns(own[..i], at) + own[i..]]
        invariant recovered == R.RecoveredAudits(own[..i], at)
        invariant audit == old(audit) + RecoveryEvents(recovered)
      {
        RecoverNext(own, i, at);
        if own[i].status == Streaming {
          var interrupted := own[i].(status := Interrupted, completedAt := Some(at));
          InterruptedIsRecovered(own[i], at);
          turns := turns[cid := turns[cid][i := interrupted]];
          RecoveryEventsAppend(recovered, R.AuditTurn(interrupted));
          recovered := recovered + [R.AuditTurn(interrupted)];
          audit := audit + [R.TurnEvent("turn.recovered_interrupted", R.AuditTurn(interrupted))];
        }
      }
    }
  }

  lemma NobodyFound(id: Id)
    ensures R.FindTurn([], id).None?
  { }

  lemma ReplaceHere(own: seq<Turn>, i: nat, t: Turn)
    requires i < |own| && own[i].id == t.id
    ensures own[..i] + R.ReplaceTurn(own[i..], t) == own[i := t] && R.FindTurn(own[i..], t.id).Some?
  { }

  lemma ReplaceLater(own: seq<Turn>, i: nat, t: Turn)
    requires i < |own| && own[i].id != t.id
    ensures own[..i] + R.ReplaceTurn(own[i..], t) == own[..i + 1] + R.ReplaceTurn(own[i + 1..], t)
    ensures R.FindTurn(own[i..], t.id) == R.FindTurn(own[i + 1..], t.id)
  {
    assert own[i..][1..] == own[i + 1..];
    assert R.ReplaceTurn(own[i..], t) == [own[i]] + R.ReplaceTurn(own[i + 1..], t);
    hide R.ReplaceTurn, R.FindTurn;
    assert own[..i + 1] == own[..i] + [own[i]];
    Associate(own[..i], [own[i]], R.ReplaceTurn(own[i + 1..], t));
  }

  lemma NothingPurged(own: seq<Turn>, at: int)
    ensures DeletionRecovery.PartlyPurged(own, 0, at) == own && R.PurgeEvents(own[..0], at) == []
  { }

  lemma PurgeNext(own: seq<Turn>, i: nat, at: int)
    requires i < |own|
    ensures R.PurgeEvents(own[..i + 1], at)
            == R.PurgeEvents(own[..i], at)
               + if own[i].purged then [] else [R.TurnEvent("turn.content_purged", R.AuditTurn(R.Tombstone(own[i], at)))]
  {
    assert own[..i + 1][..i] == own[..i];
  }

  lemma WholePassKeeps(mac: Fingerprint, rows: R.Rows, moment: Option<int>, at: int)
    requires WellFormed(mac, rows)
    ensures WellFormed(mac, R.EnforceOver(rows, R.Records(rows), moment, at).rows)
  {
    hide WellFormed;
    PassKeeps(mac, rows, moment, |rows.order|, at);
    assert rows.order[..|rows.order|] == rows.order;
  }

  lemma DeleteUnfolds(rows: R.Rows, actor: Actor, cid: Id, mode: DeletionMode, requestedAt: int, at: int)
    ensures var reply := R.DeleteConversation(rows, actor, cid, mode, requestedAt, at);
            if !R.Owns(rows, actor, cid) then reply == R.Refuse(rows, R.UnknownConversation)
            else
              var record := rows.conversations[cid];
              var pending := R.PendingForm(record, mode, requestedAt);
              if record.status == DeletionPending then reply == R.CompleteDeletion(rows, record, at)
              else if !R.Listable(record.status) then reply == R.Refuse(rows, R.CannotDeleteAgain)
              else if !ConversationOk(pending) then reply == R.Refuse(rows, R.InvalidRecord)
              else
                var stored := R.StoreConversation(rows, "conversation.deletion_requested", pending);
                var done := R.CompleteDeletion(stored.rows, pending, at);
                reply.rows == done.rows && reply.result == done.result && reply.events == stored.events + done.events
  {
    hide R.CompleteDeletion, ConversationOk, R.PutConversation, R.AuditConversation;
  }

  lemma SweepEnds(rows: R.Rows, records: seq<Conversation>, moment: Option<int>, at: int)
    ensures R.EnforceOver(rows, records[|records|..], moment, at) == R.Sweep(rows, [], [])
  { }

  lemma SweepUnfolds(rows: R.Rows, records: seq<Conversation>, i: nat, moment: Option<int>, at: int)
    requires i < |records|
    ensures var first := R.EnforceOne(rows, records[i], moment, at);
            var rest := R.EnforceOver(first.rows, records[i + 1..], moment, at);
            var all := R.EnforceOver(rows, records[i..], moment, at);
            && all.rows == rest.rows && all.events == first.events + rest.events
            && all.enforced == if first.result.Ok? && first.result.value.Some? then [first.result.value.value] + rest.enforced
                               else rest.enforced
  {
    assert records[i..][0] == records[i] && records[i..][1..] == records[i + 1..];
    hide R.EnforceOne;
  }

  lemma {:induction false} RecordsOk(order: seq<Id>, conversations: map<Id, Conversation>)
    requires forall c | c in conversations :: ConversationOk(conversations[c])
    ensures forall r | r in R.RecordsOf(order, conversations) :: ConversationOk(r)
  {
    if order != [] {
      hide ConversationOk;
      RecordsOk(order[1..], conversations);
    }
  }

  lemma StoredRecordsOk(mac: Fingerprint, rows: R.Rows)
    requires WellFormed(mac, rows)
    ensures forall r | r in R.Records(rows) :: ConversationOk(r)
  {
    forall c | c in rows.conversations ensures ConversationOk(rows.conversations[c]) { StoredFits(mac, rows, c); }
    hide ConversationOk;
    RecordsOk(rows.order, rows.conversations);
  }

  lemma StoredRecordOk(mac: Fingerprint, rows: R.Rows, cid: Id)
    requires WellFormed(mac, rows) && cid in rows.conversations
    ensures rows.conversations[cid].id == cid && ConversationOk(rows.conversations[cid])
    ensures rows.conversations[cid].status == DeletionPending ==>
              rows.conversations[cid].deletion.Some? && !rows.conversations[cid].deletion.value.mode.Unlisted?
  {
    StoredFits(mac, rows, cid);
  }

  lemma OrderIsDict(mac: Fingerprint, rows: R.Rows)
    requires WellFormed(mac, rows)
    ensures NoRepeats(rows.order) && forall cid :: cid in rows.order <==> cid in rows.conversations
  {
    hide HistoryOk, RecordFits, AllPurged;
  }

  /** A history whose record is gone holds tombstones only. */
  lemma LeftoverIsRecovered(mac: Fingerprint, rows: R.Rows, cid: Id, at: int)
    requires WellFormed(mac, rows) && cid in rows.turns && cid !in rows.order
    ensures R.RecoveredTurns(rows.turns[cid], at) == rows.turns[cid]
  {
    hide WellFormed, TurnFine, R.RecoveredTurns;
    Leftover(mac, rows, cid);
    NothingToRecover(mac, rows.turns[cid], at);
  }

  lemma Leftover(mac: Fingerprint, rows: R.Rows, cid: Id)
    requires WellFormed(mac, rows) && cid in rows.turns && cid !in rows.order
    ensures AllPurged(rows.turns[cid]) && forall i | 0 <= i < |rows.turns[cid]| :: TurnFine(mac, rows.turns[cid][i])
  {
    hide RecordFits, AllPurged, TurnFine, TreeRows;
  }

  lemma NothingToRecover(mac: Fingerprint, own: seq<Turn>, at: int)
    requires AllPurged(own) && forall i | 0 <= i < |own| :: TurnFine(mac, own[i])
    ensures R.RecoveredTurns(own, at) == own
  {
    hide TurnOk;
    forall i | 0 <= i < |own| ensures R.Recovered(own[i], at) == own[i] {
      assert own[i] in own && TurnFine(mac, own[i]);
    }
  }

  /** The histories after the first `i` of them have been recovered. */
  ghost function PartlyRecovered(rows: R.Rows, i: nat, at: int): map<Id, seq<Turn>>
    requires i <= |rows.order|
  {
    map cid | cid in rows.turns ::
      if cid in rows.order[..i] then R.RecoveredTurns(rows.turns[cid], at) else rows.turns[cid]
  }

  lemma NoneRecovered(rows: R.Rows, at: int)
    ensures PartlyRecovered(rows, 0, at) == rows.turns
    ensures R.RecoveryReport(rows.order[..0], rows.turns, at) == [] && RecoveryEvents([]) == []
  { }

  lemma RecoveredNext(mac: Fingerprint, rows: R.Rows, i: nat, at: int)
    requires WellFormed(mac, rows) && i < |rows.order|
    ensures var cid, now := rows.order[i], PartlyRecovered(rows, i, at);
            && (cid in now <==> cid in rows.turns)
            && PartlyRecovered(rows, i + 1, at)
               == (if cid in now then now[cid := R.RecoveredTurns(now[cid], at)] else now)
            && R.RecoveryReport(rows.order[..i + 1], rows.turns, at)
               == R.RecoveryReport(rows.order[..i], rows.turns, at)
                  + if cid in now then R.RecoveredAudits(now[cid], at) else []
  {
    hide WellFormed, R.RecoveredTurns, R.RecoveredAudits;
    OrderIsDict(mac, rows);
    assert rows.order[..i + 1][..i] == rows.order[..i];
    assert rows.order[..i + 1] == rows.order[..i] + [rows.order[i]];
  }

  lemma AllRecovered(mac: Fingerprint, rows: R.Rows, at: int)
    requires WellFormed(mac, rows)
    ensures rows.(turns := PartlyRecovered(rows, |rows.order|, at)) == R.RecoverStreamingTurns(rows, at)
    ensures rows.order[..|rows.order|] == rows.order
  {
    hide WellFormed, R.RecoveredTurns;
    assert rows.order[..|rows.order|] == rows.order;
    forall cid | cid in rows.turns
      ensures PartlyRecovered(rows, |rows.order|, at)[cid] == R.RecoveredTurns(rows.turns[cid], at)
    {
      if cid !in rows.order { LeftoverIsRecovered(mac, rows, cid, at); }
    }
  }

  /** The report of a recovery names exactly the turns that were streaming. */
  lemma {:induction false} ReportedExactly(turns: seq<Turn>, at: int, a: R.TurnAudit)
    ensures a in R.RecoveredAudits(turns, at)
            <==> exists t :: t in turns && t.status == Streaming && a == R.AuditTurn(R.Recovered(t, at))
  {
    hide R.AuditTurn, R.Recovered;
    if turns != [] {
      var last := turns[|turns| - 1];
      assert turns == turns[..|turns| - 1] + [last];
      ReportedExactly(turns[..|turns| - 1], at, a);
    }
  }

  lemma InterruptedIsRecovered(t: Turn, at: int)
    requires t.status == Streaming
    ensures R.Recovered(t, at) == t.(status := Interrupted, completedAt := Some(at))
  { }

  lemma RecoverNone(own: seq<Turn>, at: int)
    ensures R.RecoveredTurns(own[..0], at) + own[0..] == own
    ensures R.RecoveredTurns(own[..|own|], at) + own[|own|..] == R.RecoveredTurns(own, at)
    ensures R.RecoveredAudits(own[..0], at) == [] && R.RecoveredAudits(own[..|own|], at) == R.RecoveredAudits(own, at)
  {
    assert own[..|own|] == own;
  }

  lemma RecoverNext(own: seq<Turn>, i: nat, at: int)
    requires i < |own|
    ensures var done := R.RecoveredTurns(own[..i], at) + own[i..];
            && |done| == |own| && done[i] == own[i]
            && R.RecoveredTurns(own[..i + 1], at) + own[i + 1..]
               == if own[i].status == Streaming then done[i := R.Recovered(own[i], at)] else done
    ensures R.RecoveredAudits(own[..i + 1], at)
            == R.RecoveredAudits(own[..i], at)
               + if own[i].status == Streaming then [R.AuditTurn(R.Recovered(own[i], at))] else []
  {
    assert own[..i + 1][..i] == own[..i];
  }

  function RecoveryEvents(recovered: seq<R.TurnAudit>): seq<R.AuditEvent>
  {
    seq(|recovered|, i requires 0 <= i < |recovered| => R.TurnEvent("turn.recovered_interrupted", recovered[i]))
  }

  lemma NoRecoveryEvents()
    ensures RecoveryEvents([]) == []
  { }

  lemma RecoveryEventsAppend(recovered: seq<R.TurnAudit>, a: R.TurnAudit)
    ensures RecoveryEvents(recovered + [a]) == RecoveryEvents(recovered) + [R.TurnEvent("turn.recovered_interrupted", a)]
  { }

  lemma RecoveryEventsConcat(a: seq<R.TurnAudit>, b: seq<R.TurnAudit>)
    ensures RecoveryEvents(a + b) == RecoveryEvents(a) + RecoveryEvents(b)
  { }
}
