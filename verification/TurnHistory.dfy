/** What never changes, and what changes at most once, over a run of the store. */
module TurnHistory {
  import opened Outcomes
  import opened ConversationModels
  import opened Lineage
  import opened ConversationRows
  import opened StoreInvariants
  import opened Sweeps
  import opened DeletionRecovery
  import opened StoreRuns

  /** Identity, lineage, fingerprint, voice events and creation are kept; the status
      moves only from streaming to a terminal one; content moves only to purged. */
  predicate Evolves(a: Turn, b: Turn)
  {
    && b == a.(status := b.status, completedAt := b.completedAt, content := b.content, purged := b.purged)
    && ((b.status == a.status && b.completedAt == a.completedAt) || (a.status == Streaming && Terminal(b.status)))
    && ((b.purged == a.purged && b.content == a.content) || (!a.purged && b.purged && b.content == []))
  }

  /** The stored list only grows at its end, and its turns evolve in place. */
  ghost predicate Extends(a: seq<Turn>, b: seq<Turn>)
  {
    |a| <= |b| && forall i :: 0 <= i < |a| ==> Evolves(a[i], b[i])
  }

  function Rank(s: ConversationStatus): nat
  {
    match s
    case Active | Archived => 0
    case DeletionPending => 1
    case Deleted => 2
  }

  /** Owner, retention policy and creation are kept; a deletion is never undone or
      changed in mode; a pending or finished deletion's record is otherwise frozen. */
  predicate RecordEvolves(a: Conversation, b: Conversation)
  {
    && b.id == a.id && b.actor == a.actor && b.retention == a.retention && b.createdAt == a.createdAt
    && Rank(a.status) <= Rank(b.status)
    && (0 < Rank(a.status) == Rank(b.status) ==> b == a)
    && (a.deletion.Some? ==> b.deletion.Some? && b.deletion.value.mode == a.deletion.value.mode
                             && b.deletion.value.requestedAt == a.deletion.value.requestedAt)
  }

  lemma EvolvesTwice(a: Turn, b: Turn, c: Turn)
    requires Evolves(a, b) && Evolves(b, c)
    ensures Evolves(a, c)
  { }

  /** Nothing appears from nowhere, and what stays has evolved. */
  ghost predicate Onward(a: Rows, b: Rows)
  {
    && (forall cid | cid in b.turns :: cid in a.turns && Extends(a.turns[cid], b.turns[cid]))
    && (forall cid | cid in b.conversations ::
          cid in a.conversations && RecordEvolves(a.conversations[cid], b.conversations[cid]))
  }

  lemma OnwardTwice(a: Rows, b: Rows, c: Rows)
    requires Onward(a, b) && Onward(b, c)
    ensures Onward(a, c)
  {
    forall cid | cid in c.turns ensures cid in a.turns && Extends(a.turns[cid], c.turns[cid]) {
      ExtendsTwice(a.turns[cid], b.turns[cid], c.turns[cid]);
    }
    hide Extends;
  }

  lemma ExtendsTwice(a: seq<Turn>, b: seq<Turn>, c: seq<Turn>)
    requires Extends(a, b) && Extends(b, c)
    ensures Extends(a, c)
  {
    forall i | 0 <= i < |a| ensures Evolves(a[i], c[i]) { EvolvesTwice(a[i], b[i], c[i]); }
  }

  lemma StaysOnward(rows: Rows)
    ensures Onward(rows, rows)
  { }

  lemma PutConversationOnward(rows: Rows, record: Conversation)
    requires record.id in rows.conversations && RecordEvolves(rows.conversations[record.id], record)
    ensures Onward(rows, PutConversation(rows, record))
  { }

  lemma PutTurnsOnward(rows: Rows, cid: Id, turns: seq<Turn>)
    requires cid in rows.turns && Extends(rows.turns[cid], turns)
    ensures Onward(rows, PutTurns(rows, cid, turns))
  { }

  lemma PopsOnward(rows: Rows, cid: Id)
    ensures Onward(rows, PopConversation(rows, cid)) && Onward(rows, PopTurns(rows, cid))
  { }

  lemma PartlyPurgedExtends(turns: seq<Turn>, n: nat, at: int)
    ensures Extends(turns, PartlyPurged(turns, n, at))
  { }

  lemma CompletionOnward(rows: Rows, pending: Conversation, at: int)
    requires pending.id in rows.turns && pending.id in rows.conversations && rows.conversations[pending.id] == pending
    requires pending.status == DeletionPending
    ensures Onward(rows, CompleteDeletion(rows, pending, at).rows)
  {
    var cid := pending.id;
    var turns, deleted := rows.turns[cid], DeletedForm(pending, at);
    var purged := PutTurns(rows, cid, Tombstones(turns, at));
    PartlyPurgedExtends(turns, |turns|, at);
    AllPurgedPart(turns, at);
    PutTurnsOnward(rows, cid, Tombstones(turns, at));
    assert RecordEvolves(pending, deleted);
    hide Onward, RecordEvolves, Extends, DeletedForm, Tombstones;
    if Erases(pending) {
      PopsOnward(purged, cid);
      PopsOnward(PopConversation(purged, cid), cid);
      OnwardTwice(purged, PopConversation(purged, cid), PopTurns(PopConversation(purged, cid), cid));
      OnwardTwice(rows, purged, PopTurns(PopConversation(purged, cid), cid));
    } else {
      PutConversationOnward(purged, deleted);
      OnwardTwice(rows, purged, PutConversation(purged, deleted));
    }
  }

  lemma MarkOnward(rows: Rows, cid: Id, mode: DeletionMode, requestedAt: int)
    requires cid in rows.conversations && rows.conversations[cid].id == cid
    requires Listable(rows.conversations[cid].status) && ConversationOk(rows.conversations[cid])
    ensures Onward(rows, PutConversation(rows, PendingForm(rows.conversations[cid], mode, requestedAt)))
  {
    assert rows.conversations[cid].deletion.None?;
    hide ConversationOk;
    PutConversationOnward(rows, PendingForm(rows.conversations[cid], mode, requestedAt));
  }

  lemma DeleteOnward(mac: Fingerprint, rows: Rows, actor: Actor, cid: Id, mode: DeletionMode, requestedAt: int, at: int)
    requires WellFormed(mac, rows)
    ensures Onward(rows, DeleteConversation(rows, actor, cid, mode, requestedAt, at).rows)
  {
    StaysOnward(rows);
    if Owns(rows, actor, cid) {
      var record := rows.conversations[cid];
      assert RecordFits(record, cid, rows.turns[cid]);
      assert record.id == cid && ConversationOk(record) && cid in rows.turns;
      hide WellFormed, RecordFits, ConversationOk, Onward, CompleteDeletion;
      DeleteOutcome(rows, actor, cid, mode, requestedAt, at);
      if DeleteConversation(rows, actor, cid, mode, requestedAt, at).result.Ok? {
        hide DeleteConversation;
        if record.status == DeletionPending {
          CompletionOnward(rows, record, at);
        } else {
          var pending := PendingForm(record, mode, requestedAt);
          MarkOnward(rows, cid, mode, requestedAt);
          CompletionOnward(PutConversation(rows, pending), pending, at);
          OnwardTwice(rows, PutConversation(rows, pending), CompleteDeletion(PutConversation(rows, pending), pending, at).rows);
        }
      }
    }
  }

  lemma AppendOnward(mac: Fingerprint, rows: Rows, actor: Actor, cid: Id, id: Id, lineage: TurnLineage, q: TurnRequest, now: int)
    requires WellFormed(mac, rows)
    ensures Onward(rows, AppendTurn(mac, rows, actor, cid, id, lineage, q, now).rows)
    ensures Onward(rows, CutAppend(mac, rows, actor, cid, id, lineage, q, now))
  {
    StaysOnward(rows);
    var reply := AppendTurn(mac, rows, actor, cid, id, lineage, q, now);
    if reply.result.Ok? {
      AppendFacts(mac, rows, actor, cid, id, lineage, q, now);
      assert RecordFits(rows.conversations[cid], cid, rows.turns[cid]);
      assert rows.conversations[cid].id == cid && cid in rows.turns && rows.conversations[cid].status == Active;
      hide AppendTurn, GateVerdict, WellFormed, RecordFits, TurnOk, Onward;
      AppendedOnward(rows, cid, reply.result.value, now);
    } else {
      hide Onward, WellFormed, GateVerdict, TurnOk, UniverseOf;
    }
  }

  lemma AppendedOnward(rows: Rows, cid: Id, turn: Turn, now: int)
    requires cid in rows.turns && cid in rows.conversations
    requires rows.conversations[cid].id == cid && rows.conversations[cid].status == Active
    ensures var longer := PutTurns(rows, cid, rows.turns[cid] + [turn]);
            Onward(rows, longer) && Onward(rows, PutConversation(longer, rows.conversations[cid].(updatedAt := now)))
  {
    var record, longer := rows.conversations[cid], PutTurns(rows, cid, rows.turns[cid] + [turn]);
    assert Extends(rows.turns[cid], rows.turns[cid] + [turn]);
    PutTurnsOnward(rows, cid, rows.turns[cid] + [turn]);
    PutConversationOnward(longer, record.(updatedAt := now));
    hide Onward;
    OnwardTwice(rows, longer, PutConversation(longer, record.(updatedAt := now)));
  }

  lemma ChangeOnward(mac: Fingerprint, rows: Rows, actor: Actor, cid: Id, change: Change, now: int)
    requires WellFormed(mac, rows)
    ensures Onward(rows, ChangeConversation(rows, actor, cid, change, now).rows)
  {
    hide Onward, WellFormed, ConversationOk, Changed, RecordEvolves;
    StaysOnward(rows);
    if ChangeConversation(rows, actor, cid, change, now).result.Ok? {
      ChangeFacts(rows, actor, cid, change, now);
      StoredRecord(mac, rows, cid);
      hide ChangeConversation;
      var updated := Changed(rows.conversations[cid], change).(updatedAt := now);
      ChangeEvolves(rows.conversations[cid], change, now);
      PutConversationOnward(rows, updated);
    }
  }

  lemma ChangeEvolves(record: Conversation, change: Change, now: int)
    requires Listable(record.status) && ConversationOk(record)
    requires ConversationOk(Changed(record, change).(updatedAt := now))
    ensures RecordEvolves(record, Changed(record, change).(updatedAt := now))
  {
    NoDeletionYet(record);
    NoDeletionYet(Changed(record, change).(updatedAt := now));
    hide ConversationOk;
  }

  lemma NoDeletionYet(c: Conversation)
    requires ConversationOk(c)
    ensures Listable(c.status) ==> c.deletion.None?
  { }

  lemma AdvanceOnward(rows: Rows, actor: Actor, cid: Id, id: Id, status: TurnStatus, now: int)
    ensures Onward(rows, AdvanceTurnStatus(rows, actor, cid, id, status, now).rows)
  {
    StaysOnward(rows);
    var reply := AdvanceTurnStatus(rows, actor, cid, id, status, now);
    if reply.result.Ok? {
      var turns := TurnsOf(rows, cid);
      var i := FindTurnAt(turns, id);
      assert Extends(turns, turns[i := reply.result.value]);
      hide Onward;
      PutTurnsOnward(rows, cid, turns[i := reply.result.value]);
    } else {
      hide Onward;
    }
  }

  lemma ReadOnward(mac: Fingerprint, rows: Rows, actor: Actor, cid: Id, at: int)
    requires WellFormed(mac, rows)
    ensures Onward(rows, GetConversation(rows, actor, cid, at).rows)
  {
    hide WellFormed, CompleteDeletion, ConversationOk, Onward;
    StaysOnward(rows);
    if Owns(rows, actor, cid) && rows.conversations[cid].status == DeletionPending {
      StoredRecord(mac, rows, cid);
      CompletionOnward(rows, rows.conversations[cid], at);
    }
  }

  lemma SweptOnward(rows: Rows, after: Rows, cid: Id, moment: Option<int>, at: int)
    requires cid in rows.conversations ==> rows.conversations[cid].id == cid && ConversationOk(rows.conversations[cid])
    requires SweptAt(rows, after, cid, moment, at)
    ensures OnwardAt(rows, after, cid)
  {
    if cid in rows.conversations && Due(rows.conversations[cid], moment) {
      var c := rows.conversations[cid];
      assert c.status != DeletionPending ==> c.deletion.None?;
      if cid in rows.turns {
        PartlyPurgedExtends(rows.turns[cid], |rows.turns[cid]|, at);
        AllPurgedPart(rows.turns[cid], at);
      }
      hide ConversationOk, Tombstones, Extends, PartlyPurged;
    } else {
      assert SameAt(rows, after, cid);
      hide ConversationOk, DeletedAt;
    }
  }

  lemma PassOnward(mac: Fingerprint, rows: Rows, moment: Option<int>, upTo: nat, at: int)
    requires WellFormed(mac, rows) && upTo <= |rows.order|
    ensures Onward(rows, PassOver(rows, moment, upTo, at))
  {
    hide RecordEvolves, Extends, SweptAt, SameAt, EnforceOver, Restrict, Sweepable, HistoryOk, RecordFits;
    var order, after := rows.order[..upTo], PassOver(rows, moment, upTo, at);
    WellFormedSweepable(mac, rows);
    SweepPointwise(rows, order, moment, at);
    hide WellFormed;
    forall cid ensures OnwardAt(rows, after, cid) {
      StoredRecord(mac, rows, cid);
      if cid in order { SweptOnward(rows, after, cid, moment, at); }
      else { assert SameAt(rows, after, cid); SameOnward(rows, after, cid); }
    }
    OnwardEverywhere(rows, after);
  }

  ghost predicate OnwardAt(a: Rows, b: Rows, cid: Id)
  {
    && (cid in b.turns ==> cid in a.turns && Extends(a.turns[cid], b.turns[cid]))
    && (cid in b.conversations ==>
          cid in a.conversations && RecordEvolves(a.conversations[cid], b.conversations[cid]))
  }

  lemma OnwardEverywhere(a: Rows, b: Rows)
    requires forall cid :: OnwardAt(a, b, cid)
    ensures Onward(a, b)
  {
    hide Extends, RecordEvolves;
    forall cid | cid in b.turns ensures cid in a.turns && Extends(a.turns[cid], b.turns[cid]) {
      assert OnwardAt(a, b, cid);
    }
    forall cid | cid in b.conversations
      ensures cid in a.conversations && RecordEvolves(a.conversations[cid], b.conversations[cid])
    {
      assert OnwardAt(a, b, cid);
    }
  }

  lemma StoredRecord(mac: Fingerprint, rows: Rows, cid: Id)
    requires WellFormed(mac, rows)
    ensures cid in rows.conversations ==>
              cid in rows.turns && rows.conversations[cid].id == cid && ConversationOk(rows.conversations[cid])
  {
    if cid in rows.conversations { assert RecordFits(rows.conversations[cid], cid, rows.turns[cid]); }
  }

  lemma SameOnward(a: Rows, b: Rows, cid: Id)
    requires SameAt(a, b, cid)
    ensures OnwardAt(a, b, cid)
  { }

  lemma RecoverOnward(mac: Fingerprint, rows: Rows, at: int)
    ensures Onward(rows, RecoverStreamingTurns(rows, at))
  { }

  lemma ReopenOnward(mac: Fingerprint, rows: Rows, at: int)
    requires WellFormed(mac, rows)
    ensures Onward(rows, Reopen(rows, at))
  {
    hide Onward, RecoverStreamingTurns, WellFormed, EnforceOver, RecordsOf;
    var recovered := RecoverStreamingTurns(rows, at);
    RecoverKeeps(mac, rows, at);
    RecoverOnward(mac, rows, at);
    PassOnward(mac, recovered, None, |recovered.order|, at);
    assert recovered.order[..|recovered.order|] == recovered.order;
    OnwardTwice(rows, recovered, Reopen(rows, at));
  }

  lemma CutRecoveryOnward(rows: Rows, cid: Id, index: nat, at: int)
    ensures Onward(rows, CutRecovery(rows, cid, index, at))
  { }

  lemma CutOnward(marked: Rows, pending: Conversation, at: int, cut: Rows)
    requires pending.id in marked.conversations && marked.conversations[pending.id] == pending
    requires pending.status == DeletionPending && pending.id in marked.turns && CutShort(marked, pending, at, cut)
    ensures Onward(marked, cut)
  {
    var cid, turns := pending.id, marked.turns[pending.id];
    hide PartlyPurged, Tombstones, CompleteDeletion, Onward, Extends;
    if n :| 0 <= n <= |turns| && cut == PutTurns(marked, cid, PartlyPurged(turns, n, at)) {
      PartlyPurgedExtends(turns, n, at);
      PutTurnsOnward(marked, cid, PartlyPurged(turns, n, at));
    } else if Erases(pending) && cut == PopConversation(PutTurns(marked, cid, Tombstones(turns, at)), cid) {
      PartlyPurgedExtends(turns, |turns|, at);
      AllPurgedPart(turns, at);
      PutTurnsOnward(marked, cid, Tombstones(turns, at));
      PopsOnward(PutTurns(marked, cid, Tombstones(turns, at)), cid);
      OnwardTwice(marked, PutTurns(marked, cid, Tombstones(turns, at)), cut);
    } else {
      CompletionOnward(marked, pending, at);
    }
  }

  lemma CutDeletionOnward(mac: Fingerprint, rows: Rows, cid: Id, mode: DeletionMode, requestedAt: int, at: int, k: nat)
    requires WellFormed(mac, rows)
    ensures Onward(rows, CutDeletion(rows, cid, mode, requestedAt, at, k))
  {
    hide WellFormed, ConversationOk, CutShort, ApplyWrites, CompletionWrites, DeletionWrites, Onward;
    StaysOnward(rows);
    if cid in rows.conversations && Deletable(rows.conversations[cid], mode, requestedAt)
       && k <= |WritesOfDeletion(rows, cid, mode, requestedAt, at)| {
      var record := rows.conversations[cid];
      StoredRecord(mac, rows, cid);
      if record.status == DeletionPending {
        CutCompletion(rows, record, at, k);
        CutOnward(rows, record, at, ApplyWrites(rows, CompletionWrites(rows, record, at)[..k]));
      } else {
        MarkOnward(rows, cid, mode, requestedAt);
        CutMarkedOnward(rows, PendingForm(record, mode, requestedAt), at, k);
      }
    }
  }

  lemma CutMarkedOnward(rows: Rows, pending: Conversation, at: int, k: nat)
    requires Onward(rows, PutConversation(rows, pending)) && pending.id in rows.turns && pending.id in rows.conversations
    requires pending.status == DeletionPending && k <= |DeletionWrites(rows, pending, at)|
    ensures Onward(rows, ApplyWrites(rows, DeletionWrites(rows, pending, at)[..k]))
  {
    var marked := PutConversation(rows, pending);
    var completion := CompletionWrites(marked, pending, at);
    StaysOnward(rows);
    hide Onward, ApplyWrites, CompletionWrites, CutShort;
    if k == 0 {
      assert DeletionWrites(rows, pending, at)[..0] == [];
      NoWrites(rows);
    } else {
      assert ([WriteConversation(pending)] + completion)[..k] == [WriteConversation(pending)] + completion[..k - 1];
      ApplyAppend(rows, [WriteConversation(pending)], completion[..k - 1]);
      ApplyOne(rows, WriteConversation(pending));
      CutCompletion(marked, pending, at, k - 1);
      CutOnward(marked, pending, at, ApplyWrites(marked, completion[..k - 1]));
      OnwardTwice(rows, marked, ApplyWrites(marked, completion[..k - 1]));
    }
  }

  lemma RetryOnward(mac: Fingerprint, rows: Rows, actor: Actor, cid: Id, retryOf: Id, id: Id, q: TurnRequest, now: int)
    requires WellFormed(mac, rows)
    ensures Onward(rows, RetryTurn(mac, rows, actor, cid, retryOf, id, q, now).rows)
  {
    StaysOnward(rows);
    hide WellFormed, AppendTurn, LineageOk, Onward;
    var target := FindTurn(TurnsOf(rows, cid), retryOf);
    if target.Some? {
      var parent := target.value.lineage.parent;
      AppendOnward(mac, rows, actor, cid, id, TurnLineage(parent, NextSibling(TurnsOf(rows, cid), parent), Retry), q, now);
    }
  }

  lemma BranchOnward(mac: Fingerprint, rows: Rows, actor: Actor, cid: Id, parent: Id, id: Id, q: TurnRequest, now: int)
    requires WellFormed(mac, rows)
    ensures Onward(rows, BranchTurn(mac, rows, actor, cid, parent, id, q, now).rows)
  {
    StaysOnward(rows);
    hide WellFormed, AppendTurn, LineageOk, Onward;
    AppendOnward(mac, rows, actor, cid, id, TurnLineage(Some(parent), NextSibling(TurnsOf(rows, cid), Some(parent)), Branch), q, now);
  }

  lemma PerformOnward(mac: Fingerprint, rows: Rows, call: Call)
    requires WellFormed(mac, rows) && !Creates(call)
    ensures Onward(rows, Perform(mac, rows, call))
  {
    StaysOnward(rows);
    hide Onward, WellFormed, ChangeConversation, AppendTurn, RetryTurn, BranchTurn, AdvanceTurnStatus, GetConversation,
      DeleteConversation, PassOver, RecoverStreamingTurns, Reopen, CutAppend, CutDeletion, CutRecovery;
    match call
    case Changing(actor, cid, change, now) => ChangeOnward(mac, rows, actor, cid, change, now);
    case Appending(actor, cid, id, lineage, q, now) => AppendOnward(mac, rows, actor, cid, id, lineage, q, now);
    case Retrying(actor, cid, of, id, q, now) => RetryOnward(mac, rows, actor, cid, of, id, q, now);
    case Branching(actor, cid, parent, id, q, now) => BranchOnward(mac, rows, actor, cid, parent, id, q, now);
    case Advancing(actor, cid, id, status, now) => AdvanceOnward(rows, actor, cid, id, status, now);
    case Reading(actor, cid, at) => ReadOnward(mac, rows, actor, cid, at);
    case Deleting(actor, cid, mode, requestedAt, at) => DeleteOnward(mac, rows, actor, cid, mode, requestedAt, at);
    case Sweeping(moment, upTo, at) => if upTo <= |rows.order| { PassOnward(mac, rows, moment, upTo, at); }
    case Recovering(at) => RecoverOnward(mac, rows, at);
    case Reopening(at) => ReopenOnward(mac, rows, at);
    case CrashedAppend(actor, cid, id, lineage, q, now) => AppendOnward(mac, rows, actor, cid, id, lineage, q, now);
    case CrashedDelete(cid, mode, requestedAt, at, k) => CutDeletionOnward(mac, rows, cid, mode, requestedAt, at, k);
    case CrashedRecovery(cid, index, at) => CutRecoveryOnward(rows, cid, index, at);
  }

  // -- over whole runs ---------------------------------------------------------

  /** From `w` to `w'` every conversation known in `w` is gone or has evolved. */
  ghost predicate Since(w: World, w': World)
  {
    && w.used <= w'.used && w'.rows.turns.Keys <= w'.used && w'.rows.conversations.Keys <= w'.rows.turns.Keys
    && (forall cid | cid in w'.rows.turns && cid in w.used ::
          cid in w.rows.turns && Extends(w.rows.turns[cid], w'.rows.turns[cid]))
    && (forall cid | cid in w'.rows.conversations && cid in w.used ::
          cid in w.rows.conversations && RecordEvolves(w.rows.conversations[cid], w'.rows.conversations[cid]))
  }

  lemma StepKeeps(mac: Fingerprint, w: World, call: Call)
    requires Sane(mac, w) && Enabled(w, call)
    ensures Sane(mac, Step(mac, w, call)) && Since(w, Step(mac, w, call))
  {
    var w' := Step(mac, w, call);
    KeysCovered(mac, w.rows);
    hide WellFormed, Perform, Since;
    PerformKeeps(mac, w.rows, call);
    KeysCovered(mac, w'.rows);
    if Creates(call) {
      CreatedElsewhere(mac, w.rows, call);
      CreatedSince(w, w', call.id);
    } else {
      PerformOnward(mac, w.rows, call);
      OnwardSince(w, w');
    }
  }

  lemma KeysCovered(mac: Fingerprint, rows: Rows)
    requires WellFormed(mac, rows)
    ensures rows.conversations.Keys <= rows.turns.Keys
  { }

  lemma CreatedSince(w: World, w': World, id: Id)
    requires w.rows.turns.Keys <= w.used && id !in w.used && w'.used == w.used + {id}
    requires w'.rows.conversations.Keys <= w'.rows.turns.Keys
    requires w'.rows.turns.Keys <= w.rows.turns.Keys + {id}
    requires forall cid | cid != id :: SameAt(w.rows, w'.rows, cid)
    ensures Since(w, w')
  {
    forall cid | cid != id
      ensures cid in w'.rows.turns ==> cid in w.rows.turns && Extends(w.rows.turns[cid], w'.rows.turns[cid])
      ensures cid in w'.rows.conversations ==>
                cid in w.rows.conversations && RecordEvolves(w.rows.conversations[cid], w'.rows.conversations[cid])
    {
      SameOnward(w.rows, w'.rows, cid);
    }
    hide Extends, RecordEvolves, SameAt;
  }

  lemma OnwardSince(w: World, w': World)
    requires w.rows.turns.Keys <= w.used && w'.used == w.used && Onward(w.rows, w'.rows)
    requires w'.rows.conversations.Keys <= w'.rows.turns.Keys
    ensures Since(w, w')
  {
    hide Extends, RecordEvolves;
  }

  lemma CreatedElsewhere(mac: Fingerprint, rows: Rows, call: Call)
    requires Creates(call)
    ensures var after := Perform(mac, rows, call);
            && after.turns.Keys <= rows.turns.Keys + {call.id}
            && forall cid | cid != call.id :: SameAt(rows, after, cid)
  {
    hide ConversationOk;
  }

  lemma SinceTwice(a: World, b: World, c: World)
    requires Since(a, b) && Since(b, c)
    ensures Since(a, c)
  {
    forall cid | cid in c.rows.turns && cid in a.used
      ensures cid in a.rows.turns && Extends(a.rows.turns[cid], c.rows.turns[cid])
    {
      ExtendsTwice(a.rows.turns[cid], b.rows.turns[cid], c.rows.turns[cid]);
    }
    hide Extends;
  }

  lemma SinceSelf(w: World)
    requires w.rows.turns.Keys <= w.used && w.rows.conversations.Keys <= w.rows.turns.Keys
    ensures Since(w, w)
  { }

  /** From any sane state - the empty one is - every run stays well-formed, and
      relates every later state to every earlier one by `Since`. */
  lemma {:induction false} RunKeeps(mac: Fingerprint, w: World, calls: seq<Call>)
    requires Sane(mac, w) && Possible(mac, w, calls)
    ensures Sane(mac, Run(mac, w, calls)) && Since(w, Run(mac, w, calls))
    decreases |calls|
  {
    if calls == [] {
      hide WellFormed;
      KeysCovered(mac, w.rows);
      SinceSelf(w);
    } else {
      StepKeeps(mac, w, calls[0]);
      hide Sane, Since, Step, Enabled;
      RunKeeps(mac, Step(mac, w, calls[0]), calls[1..]);
      SinceTwice(w, Step(mac, w, calls[0]), Run(mac, w, calls));
    }
  }

  lemma NewWorldSane(mac: Fingerprint)
    ensures Sane(mac, NEW_WORLD)
  { }

  // -- the history of one turn ---------------------------------------------------

  lemma {:induction false} RunSplit(mac: Fingerprint, w: World, a: seq<Call>, b: seq<Call>)
    ensures Run(mac, w, a + b) == Run(mac, Run(mac, w, a), b)
    ensures Possible(mac, w, a + b) <==> Possible(mac, w, a) && Possible(mac, Run(mac, w, a), b)
    decreases |a|
  {
    if a == [] {
      assert a + b == b;
    } else {
      assert (a + b)[1..] == a[1..] + b;
      hide Step, Enabled;
      RunSplit(mac, Step(mac, w, a[0]), a[1..], b);
    }
  }

  /** Every state any run can reach is well-formed. */
  lemma ReachableWellFormed(mac: Fingerprint, calls: seq<Call>)
    requires Possible(mac, NEW_WORLD, calls)
    ensures WellFormed(mac, Run(mac, NEW_WORLD, calls).rows)
  {
    NewWorldSane(mac);
    RunKeeps(mac, NEW_WORLD, calls);
  }

  /** In every state any run can reach, every stored turn keeps the limits of its contract, and
      so does every stored record. */
  lemma StoredIsValid(mac: Fingerprint, calls: seq<Call>, cid: Id)
    requires Possible(mac, NEW_WORLD, calls)
    ensures var rows := Run(mac, NEW_WORLD, calls).rows;
            && (cid in rows.turns ==> forall t | t in rows.turns[cid] :: t.conversationId == cid && WithinLimits(t))
            && (cid in rows.conversations ==> rows.conversations[cid].id == cid && RecordWithinLimits(rows.conversations[cid]))
  {
    ReachableWellFormed(mac, calls);
    var rows := Run(mac, NEW_WORLD, calls).rows;
    hide Run, Possible;
    if cid in rows.turns {
      assert HistoryOk(mac, cid, rows.turns[cid]);
      hide WellFormed;
      forall t | t in rows.turns[cid] ensures t.conversationId == cid && WithinLimits(t) {
        var i :| 0 <= i < |rows.turns[cid]| && rows.turns[cid][i] == t;
        assert TurnFine(mac, rows.turns[cid][i]);
        TurnLimits(t);
      }
    }
    if cid in rows.conversations {
      StoredFits(mac, rows, cid);
      RecordLimits(rows.conversations[cid]);
    }
    hide WellFormed, WithinLimits, RecordWithinLimits, ConversationOk, RecordFits;
  }

  ghost predicate WithinLimits(t: Turn)
  {
    && |t.content| <= 64 && (forall b | b in t.content :: |b.text| <= 20_000 && b.kind in {Text, Transcript, Summary})
    && |t.voice| <= 64 && 0 <= t.lineage.sibling <= 4096
    && t.lineage.kind in {Initial, Retry, Branch} && (t.lineage.parent.None? ==> t.lineage.kind == Initial)
    && t.role in {User, Assistant} && t.mode in {Ordinary, Advanced}
    && t.status in {Streaming, Complete, Interrupted, Cancelled, Failed} && (t.status == Streaming <==> t.completedAt.None?)
    && t.redaction.status in {Redacted, WithheldText} && (t.redaction.status == WithheldText || t.purged ==> t.content == [])
    && (forall v | v in t.voice ::
          && v.event in {UtteranceStart, SttCommit, TtsStart, TtsStop, Interruption}
          && (v.durationMs.Some? ==> 0 <= v.durationMs.value <= 3_600_000)
          && (v.transcriptChars.Some? ==> 0 <= v.transcriptChars.value <= 100_000))
  }

  ghost predicate RecordWithinLimits(c: Conversation)
  {
    && (c.title.Some? ==> |c.title.value| <= 200) && |c.tags| <= 32
    && c.retention.transcriptText in {RetainedRedacted, MetadataOnly} && c.retention.voiceTranscriptText in {RetainedRedacted, MetadataOnly}
    && (c.status == DeletionPending || c.status == Deleted <==> c.deletion.Some?)
    && (c.deletion.Some? ==> c.deletion.value.mode in {PurgeContentKeepTombstone, PurgeAllRecords})
    && (c.status == Deleted ==> c.title.None? && !c.pinned && c.tags == {} && c.folder.None?)
  }

  /** A turn is valid exactly if its identifiers are and it is within these limits. */
  lemma TurnLimits(t: Turn)
    ensures TurnOk(t) <==>
              && TurnIdOk(t.id) && ConversationIdOk(t.conversationId)
              && (t.lineage.parent.Some? ==> TurnIdOk(t.lineage.parent.value) && t.lineage.parent.value != t.id)
              && TokenOk(t.redaction.ruleset, true, 2, 128) && WithinLimits(t)
  {
    hide TurnIdOk, ConversationIdOk, TokenOk;
    assert t.lineage.parent == Some(t.id) <==> t.lineage.parent.Some? && t.lineage.parent.value == t.id;
  }

  /** A record is valid exactly if its identifiers and labels are and it is within its limits. */
  lemma RecordLimits(c: Conversation)
    ensures ConversationOk(c) <==>
              && ConversationIdOk(c.id) && TokenOk(c.retention.policyId, true, 1, 64)
              && (forall tag | tag in c.tags :: OrgTokenOk(tag)) && (c.folder.Some? ==> OrgTokenOk(c.folder.value))
              && RecordWithinLimits(c)
  {
    hide ConversationIdOk, TokenOk, OrgTokenOk;
  }

  lemma StoredTurnFine(mac: Fingerprint, rows: Rows, cid: Id, p: nat)
    requires WellFormed(mac, rows) && cid in rows.turns && p < |rows.turns[cid]|
    ensures var t := rows.turns[cid][p]; (t.status == Streaming || Terminal(t.status)) && (t.purged ==> Terminal(t.status))
  {
    assert HistoryOk(mac, cid, rows.turns[cid]);
    assert TurnFine(mac, rows.turns[cid][p]);
    hide WellFormed, HistoryOk;
  }

  /** Over any run a surviving turn stays at its place in its history with its id,
      conversation, role, mode, lineage and fingerprint; once its status is terminal
      the status never changes again, and once it is purged nothing of it does. */
  lemma HistoryIsAppendOnly(mac: Fingerprint, before: seq<Call>, later: seq<Call>, cid: Id, p: nat)
    requires Possible(mac, NEW_WORLD, before + later)
    requires cid in Run(mac, NEW_WORLD, before).rows.turns && p < |Run(mac, NEW_WORLD, before).rows.turns[cid]|
    requires cid in Run(mac, NEW_WORLD, before + later).rows.turns
    ensures var a, b := Run(mac, NEW_WORLD, before).rows.turns[cid], Run(mac, NEW_WORLD, before + later).rows.turns[cid];
            && p < |b| && Evolves(a[p], b[p])
            && (Terminal(a[p].status) ==> b[p].status == a[p].status && b[p].completedAt == a[p].completedAt)
            && (a[p].purged ==> b[p] == a[p])
  {
    hide WellFormed, Run, Possible, Sane, Since, Step, NEW_WORLD;
    RunSplit(mac, NEW_WORLD, before, later);
    ReachableWellFormed(mac, before);
    var w := Run(mac, NEW_WORLD, before);
    NewWorldSane(mac);
    RunKeeps(mac, NEW_WORLD, before);
    RunKeeps(mac, w, later);
    StoredTurnFine(mac, w.rows, cid, p);
    SurvivorEvolves(mac, w, Run(mac, w, later), cid, p);
  }

  lemma SurvivorEvolves(mac: Fingerprint, w: World, w': World, cid: Id, p: nat)
    requires Sane(mac, w) && Since(w, w')
    requires cid in w.rows.turns && cid in w'.rows.turns && p < |w.rows.turns[cid]|
    ensures p < |w'.rows.turns[cid]| && Evolves(w.rows.turns[cid][p], w'.rows.turns[cid][p])
  {
    hide WellFormed, Evolves, RecordEvolves;
  }

  /** A conversation keeps its owner, its retention policy and its creation time; a
      started deletion is never undone; and no stored turn ever violates the policy: a
      transcript block is only ever stored under the policy that keeps it. */
  lemma ConversationsOnlyAdvance(mac: Fingerprint, before: seq<Call>, later: seq<Call>, cid: Id)
    requires Possible(mac, NEW_WORLD, before + later)
    requires cid in Run(mac, NEW_WORLD, before).rows.conversations
    requires cid in Run(mac, NEW_WORLD, before + later).rows.conversations
    ensures var a, b := Run(mac, NEW_WORLD, before).rows, Run(mac, NEW_WORLD, before + later).rows;
            && RecordEvolves(a.conversations[cid], b.conversations[cid])
            && RetentionKept(a.conversations[cid].retention, TurnsOf(b, cid))
            && forall t | t in TurnsOf(b, cid) :: TranscriptsKept(a.conversations[cid].retention, t.content, t.voice)
  {
    RunSplit(mac, NEW_WORLD, before, later);
    var w, w' := Run(mac, NEW_WORLD, before), Run(mac, NEW_WORLD, before + later);
    NewWorldSane(mac);
    RunKeeps(mac, NEW_WORLD, before);
    RunKeeps(mac, w, later);
    KeysCovered(mac, w.rows);
    assert RecordFits(w'.rows.conversations[cid], cid, w'.rows.turns[cid]);
    forall t | t in TurnsOf(w'.rows, cid) ensures TranscriptsKept(w'.rows.conversations[cid].retention, t.content, t.voice) {
      TranscriptLaw(w'.rows.conversations[cid].retention, t);
    }
    hide WellFormed, Run, HistoryOk, ConversationOk, Extends, TranscriptsKept;
  }
}
