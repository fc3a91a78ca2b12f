/** Whole runs of the conversation store: any sequence of operations by any actors,
    of system passes, and of crashes between two row writes. */
module StoreRuns {
  import opened Outcomes
  import opened ConversationModels
  import opened Sequences
  import opened Lineage
  import opened ConversationRows
  import opened StoreInvariants
  import opened Sweeps
  import opened DeletionRecovery

  datatype Call =
    | Creating(actor: Actor, id: Id, retention: RetentionPolicy, title: Option<string>, now: int)
    | Changing(actor: Actor, cid: Id, change: Change, now: int)
    | Appending(actor: Actor, cid: Id, id: Id, lineage: TurnLineage, q: TurnRequest, now: int)
    | Retrying(actor: Actor, cid: Id, of: Id, id: Id, q: TurnRequest, now: int)
    | Branching(actor: Actor, cid: Id, parent: Id, id: Id, q: TurnRequest, now: int)
    | Advancing(actor: Actor, cid: Id, id: Id, status: TurnStatus, now: int)
    | Reading(actor: Actor, cid: Id, at: int)
    | Deleting(actor: Actor, cid: Id, mode: DeletionMode, requestedAt: int, at: int)
    /** A retention pass (with a moment) or the one on opening (without), over the first
        `upTo` conversations: a pass cut short by a crash covers fewer than all. */
    | Sweeping(moment: Option<int>, upTo: nat, at: int)
    | Recovering(at: int)
    | Reopening(at: int)
    // a crash part-way through an operation
    | CrashedCreate(id: Id)
    | CrashedAppend(actor: Actor, cid: Id, id: Id, lineage: TurnLineage, q: TurnRequest, now: int)
    | CrashedDelete(cid: Id, mode: DeletionMode, requestedAt: int, at: int, writes: nat)
    | CrashedRecovery(cid: Id, index: nat, at: int)

  function PassOver(rows: Rows, moment: Option<int>, upTo: nat, at: int): Rows
    requires upTo <= |rows.order|
  {
    EnforceOver(rows, RecordsOf(rows.order[..upTo], rows.conversations), moment, at).rows
  }

  function CutAppend(mac: Fingerprint, rows: Rows, actor: Actor, cid: Id, id: Id, lineage: TurnLineage,
                     q: TurnRequest, now: int): Rows
  {
    var reply := AppendTurn(mac, rows, actor, cid, id, lineage, q, now);
    if reply.result.Ok? then PutTurns(rows, cid, TurnsOf(rows, cid) + [reply.result.value]) else rows
  }

  function CutDeletion(rows: Rows, cid: Id, mode: DeletionMode, requestedAt: int, at: int, k: nat): Rows
  {
    if cid in rows.conversations && Deletable(rows.conversations[cid], mode, requestedAt)
       && k <= |WritesOfDeletion(rows, cid, mode, requestedAt, at)|
    then ApplyWrites(rows, WritesOfDeletion(rows, cid, mode, requestedAt, at)[..k])
    else rows
  }

  function CutRecovery(rows: Rows, cid: Id, index: nat, at: int): Rows
  {
    if cid in rows.turns && index < |rows.turns[cid]|
    then PutTurns(rows, cid, rows.turns[cid][index := Recovered(rows.turns[cid][index], at)])
    else rows
  }

  function Perform(mac: Fingerprint, rows: Rows, call: Call): Rows
  {
    match call
    case Creating(actor, id, retention, title, now) => Create(rows, actor, id, retention, title, now).rows
    case Changing(actor, cid, change, now) => ChangeConversation(rows, actor, cid, change, now).rows
    case Appending(actor, cid, id, lineage, q, now) => AppendTurn(mac, rows, actor, cid, id, lineage, q, now).rows
    case Retrying(actor, cid, of, id, q, now) => RetryTurn(mac, rows, actor, cid, of, id, q, now).rows
    case Branching(actor, cid, parent, id, q, now) => BranchTurn(mac, rows, actor, cid, parent, id, q, now).rows
    case Advancing(actor, cid, id, status, now) => AdvanceTurnStatus(rows, actor, cid, id, status, now).rows
    case Reading(actor, cid, at) => GetConversation(rows, actor, cid, at).rows
    case Deleting(actor, cid, mode, requestedAt, at) => DeleteConversation(rows, actor, cid, mode, requestedAt, at).rows
    case Sweeping(moment, upTo, at) => if upTo <= |rows.order| then PassOver(rows, moment, upTo, at) else rows
    case Recovering(at) => RecoverStreamingTurns(rows, at)
    case Reopening(at) => Reopen(rows, at)
    case CrashedCreate(id) => PutTurns(rows, id, [])
    case CrashedAppend(actor, cid, id, lineage, q, now) => CutAppend(mac, rows, actor, cid, id, lineage, q, now)
    case CrashedDelete(cid, mode, requestedAt, at, k) => CutDeletion(rows, cid, mode, requestedAt, at, k)
    case CrashedRecovery(cid, index, at) => CutRecovery(rows, cid, index, at)
  }

  /** The rows, and every conversation id handed out so far. */
  datatype World = World(rows: Rows, used: set<Id>)

  const NEW_WORLD := World(EMPTY_ROWS, {})

  predicate Creates(call: Call) { call.Creating? || call.CrashedCreate? }

  /** A new conversation gets an id that was never handed out before. */
  predicate Enabled(w: World, call: Call)
  {
    Creates(call) ==> call.id !in w.used
  }

  function Step(mac: Fingerprint, w: World, call: Call): World
  {
    World(Perform(mac, w.rows, call), if Creates(call) then w.used + {call.id} else w.used)
  }

  function Run(mac: Fingerprint, w: World, calls: seq<Call>): World
    decreases |calls|
  {
    if calls == [] then w else Run(mac, Step(mac, w, calls[0]), calls[1..])
  }

  predicate Possible(mac: Fingerprint, w: World, calls: seq<Call>)
    decreases |calls|
  {
    calls == [] || (Enabled(w, calls[0]) && Possible(mac, Step(mac, w, calls[0]), calls[1..]))
  }

  ghost predicate Sane(mac: Fingerprint, w: World)
  {
    WellFormed(mac, w.rows) && w.rows.turns.Keys <= w.used
  }

  // -- every step keeps the invariant ----------------------------------------

  lemma CreateKeeps(mac: Fingerprint, rows: Rows, actor: Actor, id: Id, retention: RetentionPolicy,
                    title: Option<string>, now: int)
    requires WellFormed(mac, rows) && id !in rows.turns
    ensures WellFormed(mac, Create(rows, actor, id, retention, title, now).rows)
  {
    var record := NewConversation(actor, id, retention, title, now);
    if ConversationOk(record) {
      hide ConversationOk;
      PutTurnsKeeps(mac, rows, id, []);
      PutConversationKeeps(mac, PutTurns(rows, id, []), record);
    }
  }

  lemma ChangedFits(c: Conversation, change: Change, now: int, turns: seq<Turn>)
    requires RecordFits(c, c.id, turns) && c.status != Deleted && c.status != DeletionPending
    requires ConversationOk(Changed(c, change).(updatedAt := now))
    ensures RecordFits(Changed(c, change).(updatedAt := now), c.id, turns)
  {
    hide ConversationOk;
  }

  lemma ChangeKeeps(mac: Fingerprint, rows: Rows, actor: Actor, cid: Id, change: Change, now: int)
    requires WellFormed(mac, rows)
    ensures WellFormed(mac, ChangeConversation(rows, actor, cid, change, now).rows)
  {
    hide WellFormed, ConversationOk, RecordFits, Changed;
    if ChangeConversation(rows, actor, cid, change, now).result.Ok? {
      ChangeFacts(rows, actor, cid, change, now);
      hide ChangeConversation;
      var record := rows.conversations[cid];
      StoredFits(mac, rows, cid);
      ChangedFits(record, change, now, rows.turns[cid]);
      PutConversationKeeps(mac, rows, Changed(record, change).(updatedAt := now));
    }
  }

  /** What a stored change looks like. */
  lemma ChangeFacts(rows: Rows, actor: Actor, cid: Id, change: Change, now: int)
    requires ChangeConversation(rows, actor, cid, change, now).result.Ok?
    ensures Owns(rows, actor, cid) && Listable(rows.conversations[cid].status)
    ensures ConversationOk(Changed(rows.conversations[cid], change).(updatedAt := now))
    ensures Changed(rows.conversations[cid], change).id == rows.conversations[cid].id
    ensures ChangeConversation(rows, actor, cid, change, now).rows
            == PutConversation(rows, Changed(rows.conversations[cid], change).(updatedAt := now))
  {
    hide ConversationOk;
  }

  lemma RetryKeeps(mac: Fingerprint, rows: Rows, actor: Actor, cid: Id, retryOf: Id, id: Id, q: TurnRequest, now: int)
    requires WellFormed(mac, rows)
    ensures WellFormed(mac, RetryTurn(mac, rows, actor, cid, retryOf, id, q, now).rows)
  {
    hide WellFormed, AppendTurn, LineageOk;
    var target := FindTurn(TurnsOf(rows, cid), retryOf);
    if target.Some? {
      var parent := target.value.lineage.parent;
      AppendKeeps(mac, rows, actor, cid, id, TurnLineage(parent, NextSibling(TurnsOf(rows, cid), parent), Retry), q, now);
    }
  }

  lemma BranchKeeps(mac: Fingerprint, rows: Rows, actor: Actor, cid: Id, parent: Id, id: Id, q: TurnRequest, now: int)
    requires WellFormed(mac, rows)
    ensures WellFormed(mac, BranchTurn(mac, rows, actor, cid, parent, id, q, now).rows)
  {
    hide WellFormed, AppendTurn, LineageOk;
    AppendKeeps(mac, rows, actor, cid, id, TurnLineage(Some(parent), NextSibling(TurnsOf(rows, cid), Some(parent)), Branch), q, now);
  }

  lemma ReadKeeps(mac: Fingerprint, rows: Rows, actor: Actor, cid: Id, at: int)
    requires WellFormed(mac, rows)
    ensures WellFormed(mac, GetConversation(rows, actor, cid, at).rows)
  {
    hide WellFormed, CompleteDeletion, ConversationOk, RecordFits;
    if Owns(rows, actor, cid) && rows.conversations[cid].status == DeletionPending {
      StoredFits(mac, rows, cid);
      PendingHasDeletion(rows.conversations[cid]);
      CompleteDeletionKeeps(mac, rows, rows.conversations[cid], at);
    }
  }

  lemma PendingHasDeletion(c: Conversation)
    requires ConversationOk(c) && c.status == DeletionPending
    ensures c.deletion.Some? && !c.deletion.value.mode.Unlisted?
  { }

  lemma {:induction false} SweepKeeps(mac: Fingerprint, rows: Rows, order: seq<Id>, moment: Option<int>, at: int)
    requires WellFormed(mac, rows) && NoRepeats(order) && forall c | c in order :: c in rows.conversations
    ensures WellFormed(mac, EnforceOver(rows, RecordsOf(order, rows.conversations), moment, at).rows)
    decreases |order|
  {
    if order != [] {
      var cid, later := order[0], order[1..];
      assert cid in order && cid !in later && forall c | c in later :: c in order;
      hide WellFormed, EnforceOne, EnforceOver, SweptAt, Sweepable, Restrict, RecordFits, NoRepeats;
      var record := rows.conversations[cid];
      var first := EnforceOne(rows, record, moment, at);
      StoredFits(mac, rows, cid);
      WellFormedSweepable(mac, rows);
      EnforceOneKeeps(mac, rows, record, moment, at);
      OneStep(rows, cid, moment, at);
      FirstOfSweep(rows, order, moment, at);
      assert NoRepeats(later) by { TailNoRepeats(order); }
      forall c | c in later ensures c in first.rows.conversations { assert SameAt(rows, first.rows, c); }
      SweepKeeps(mac, first.rows, later, moment, at);
    }
  }

  lemma TailNoRepeats(order: seq<Id>)
    requires NoRepeats(order) && order != []
    ensures NoRepeats(order[1..])
  { }

  lemma StoredFits(mac: Fingerprint, rows: Rows, cid: Id)
    requires WellFormed(mac, rows) && cid in rows.conversations
    ensures var record := rows.conversations[cid];
            && record.id == cid && cid in rows.turns && ConversationOk(record) && RecordFits(record, cid, rows.turns[cid])
  { }

  lemma PassKeeps(mac: Fingerprint, rows: Rows, moment: Option<int>, upTo: nat, at: int)
    requires WellFormed(mac, rows) && upTo <= |rows.order|
    ensures WellFormed(mac, PassOver(rows, moment, upTo, at))
  {
    SweepKeeps(mac, rows, rows.order[..upTo], moment, at);
  }

  lemma ReopenKeeps(mac: Fingerprint, rows: Rows, at: int)
    requires WellFormed(mac, rows)
    ensures WellFormed(mac, Reopen(rows, at))
  {
    RecoverKeeps(mac, rows, at);
    SweepKeeps(mac, RecoverStreamingTurns(rows, at), RecoverStreamingTurns(rows, at).order, None, at);
  }

  lemma CutAppendKeeps(mac: Fingerprint, rows: Rows, actor: Actor, cid: Id, id: Id, lineage: TurnLineage,
                       q: TurnRequest, now: int)
    requires WellFormed(mac, rows)
    ensures WellFormed(mac, CutAppend(mac, rows, actor, cid, id, lineage, q, now))
  {
    var reply := AppendTurn(mac, rows, actor, cid, id, lineage, q, now);
    hide TurnOk, ConversationOk, GateVerdict, UniverseOf, AppendTurn;
    if reply.result.Ok? {
      AppendFacts(mac, rows, actor, cid, id, lineage, q, now);
      var turn, own, record := reply.result.value, rows.turns[cid], rows.conversations[cid];
      assert HistoryOk(mac, cid, own) && RecordFits(record, cid, own);
      GateOverStoredRows(mac, rows, actor, cid, turn);
      AppendedInPlace(mac, rows, actor, cid, turn);
      AppendedHistory(mac, record, own, turn);
      PutTurnsKeeps(mac, rows, cid, own + [turn]);
    }
  }

  lemma PartlyPurgedKeeps(mac: Fingerprint, c: Conversation, turns: seq<Turn>, n: nat, at: int)
    requires HistoryOk(mac, c.id, turns) && RecordFits(c, c.id, turns)
    ensures HistoryOk(mac, c.id, PartlyPurged(turns, n, at)) && RecordFits(c, c.id, PartlyPurged(turns, n, at))
  {
    PartlyPurgedHistory(mac, c.id, turns, n, at);
    PartlyPurgedRetains(c.retention, turns, n, at);
    hide ConversationOk, HistoryOk, PartlyPurged, AllPurged, RetentionKept;
  }

  lemma PartlyPurgedHistory(mac: Fingerprint, cid: Id, turns: seq<Turn>, n: nat, at: int)
    requires HistoryOk(mac, cid, turns)
    ensures HistoryOk(mac, cid, PartlyPurged(turns, n, at))
  {
    var after := PartlyPurged(turns, n, at);
    assert SameShape(turns, after);
    hide SameShape, TurnFine, TurnOk, TreeRows, Tombstone;
    ShapeKeepsTree(cid, turns, after);
    forall i | 0 <= i < |after| ensures TurnFine(mac, after[i]) {
      TombstoneFine(mac, turns[i], at);
    }
  }

  lemma PartlyPurgedRetains(r: RetentionPolicy, turns: seq<Turn>, n: nat, at: int)
    requires RetentionKept(r, turns)
    ensures RetentionKept(r, PartlyPurged(turns, n, at))
    ensures AllPurged(turns) ==> AllPurged(PartlyPurged(turns, n, at))
  {
    var after := PartlyPurged(turns, n, at);
    forall t | t in after ensures RetentionAllows(r, t) && (AllPurged(turns) ==> t.purged) {
      var i :| 0 <= i < |after| && after[i] == t;
      assert turns[i] in turns && RetentionAllows(r, turns[i]);
    }
  }

  lemma CutKeeps(mac: Fingerprint, marked: Rows, pending: Conversation, at: int, cut: Rows)
    requires WellFormed(mac, marked) && pending.id in marked.conversations && marked.conversations[pending.id] == pending
    requires pending.deletion.Some? && CutShort(marked, pending, at, cut)
    ensures WellFormed(mac, cut)
  {
    var cid, turns := pending.id, marked.turns[pending.id];
    assert HistoryOk(mac, cid, turns) && RecordFits(pending, cid, turns);
    assert ConversationOk(pending);
    hide WellFormed, PartlyPurged, Tombstones, CompleteDeletion, RecordFits, HistoryOk, ConversationOk, AllPurged;
    if n :| 0 <= n <= |turns| && cut == PutTurns(marked, cid, PartlyPurged(turns, n, at)) {
      PartlyPurgedKeeps(mac, pending, turns, n, at);
      PutTurnsKeeps(mac, marked, cid, PartlyPurged(turns, n, at));
    } else if Erases(pending) && cut == PopConversation(PutTurns(marked, cid, Tombstones(turns, at)), cid) {
      PartlyPurgedKeeps(mac, pending, turns, |turns|, at);
      AllPurgedPart(turns, at);
      TombstonesKeep(mac, cid, turns, at);
      PutTurnsKeeps(mac, marked, cid, Tombstones(turns, at));
      PopConversationKeeps(mac, PutTurns(marked, cid, Tombstones(turns, at)), cid);
    } else {
      CompleteDeletionKeeps(mac, marked, pending, at);
    }
  }

  lemma MarkKeeps(mac: Fingerprint, rows: Rows, cid: Id, mode: DeletionMode, requestedAt: int)
    requires WellFormed(mac, rows) && cid in rows.conversations && Deletable(rows.conversations[cid], mode, requestedAt)
    requires rows.conversations[cid].status != DeletionPending
    ensures WellFormed(mac, PutConversation(rows, PendingForm(rows.conversations[cid], mode, requestedAt)))
  {
    var record := rows.conversations[cid];
    assert RecordFits(record, cid, rows.turns[cid]);
    assert RecordFits(PendingForm(record, mode, requestedAt), cid, rows.turns[cid]);
    PutConversationKeeps(mac, rows, PendingForm(record, mode, requestedAt));
  }

  lemma CutDeletionKeeps(mac: Fingerprint, rows: Rows, cid: Id, mode: DeletionMode, requestedAt: int, at: int, k: nat)
    requires WellFormed(mac, rows)
    ensures WellFormed(mac, CutDeletion(rows, cid, mode, requestedAt, at, k))
  {
    hide WellFormed, RecordFits, CutShort, ApplyWrites, CompletionWrites, DeletionWrites;
    if cid in rows.conversations && Deletable(rows.conversations[cid], mode, requestedAt)
       && k <= |WritesOfDeletion(rows, cid, mode, requestedAt, at)| {
      var record := rows.conversations[cid];
      StoredFits(mac, rows, cid);
      assert record.status == DeletionPending ==> record.deletion.Some?;
      hide ConversationOk;
      if record.status != DeletionPending { MarkKeeps(mac, rows, cid, mode, requestedAt); }
      if record.status == DeletionPending {
        CutCompletion(rows, record, at, k);
        CutKeeps(mac, rows, record, at, ApplyWrites(rows, CompletionWrites(rows, record, at)[..k]));
      } else {
        CutMarkedKeeps(mac, rows, PendingForm(record, mode, requestedAt), at, k);
      }
    }
  }

  lemma CutMarkedKeeps(mac: Fingerprint, rows: Rows, pending: Conversation, at: int, k: nat)
    requires WellFormed(mac, rows) && WellFormed(mac, PutConversation(rows, pending)) && pending.id in rows.turns
    requires pending.deletion.Some? && k <= |DeletionWrites(rows, pending, at)|
    ensures WellFormed(mac, ApplyWrites(rows, DeletionWrites(rows, pending, at)[..k]))
  {
    var marked := PutConversation(rows, pending);
    var completion := CompletionWrites(marked, pending, at);
    hide WellFormed, ApplyWrites, CompletionWrites, CutShort;
    if k == 0 {
      assert DeletionWrites(rows, pending, at)[..0] == [];
      NoWrites(rows);
    } else {
      assert ([WriteConversation(pending)] + completion)[..k] == [WriteConversation(pending)] + completion[..k - 1];
      ApplyAppend(rows, [WriteConversation(pending)], completion[..k - 1]);
      ApplyOne(rows, WriteConversation(pending));
      CutCompletion(marked, pending, at, k - 1);
      CutKeeps(mac, marked, pending, at, ApplyWrites(marked, completion[..k - 1]));
    }
  }

  lemma NoWrites(rows: Rows)
    ensures ApplyWrites(rows, []) == rows
  { }

  lemma CutRecoveryKeeps(mac: Fingerprint, rows: Rows, cid: Id, index: nat, at: int)
    requires WellFormed(mac, rows)
    ensures WellFormed(mac, CutRecovery(rows, cid, index, at))
  {
    if cid in rows.turns && index < |rows.turns[cid]| {
      var turns := rows.turns[cid];
      var after := turns[index := Recovered(turns[index], at)];
      assert HistoryOk(mac, cid, turns);
      OneRecoveredKeeps(mac, cid, turns, index, at);
      if cid in rows.conversations {
        assert RecordFits(rows.conversations[cid], cid, turns);
        OneRecoveredFits(rows.conversations[cid], cid, turns, index, at);
      }
      hide HistoryOk, RecordFits;
      PutTurnsKeeps(mac, rows, cid, after);
    }
  }

  lemma OneRecoveredKeeps(mac: Fingerprint, cid: Id, turns: seq<Turn>, index: nat, at: int)
    requires HistoryOk(mac, cid, turns) && index < |turns|
    ensures HistoryOk(mac, cid, turns[index := Recovered(turns[index], at)])
    ensures AllPurged(turns) ==> AllPurged(turns[index := Recovered(turns[index], at)])
  {
    ShapeKeepsTree(cid, turns, turns[index := Recovered(turns[index], at)]);
    assert turns[index] in turns;
  }

  lemma OneRecoveredFits(c: Conversation, cid: Id, turns: seq<Turn>, index: nat, at: int)
    requires RecordFits(c, cid, turns) && index < |turns|
    ensures RecordFits(c, cid, turns[index := Recovered(turns[index], at)])
  {
    assert turns[index] in turns;
    assert RetentionAllows(c.retention, turns[index]);
    hide ConversationOk;
  }

  lemma CrashedCreateKeeps(mac: Fingerprint, rows: Rows, id: Id)
    requires WellFormed(mac, rows) && id !in rows.turns
    ensures WellFormed(mac, PutTurns(rows, id, []))
  {
    PutTurnsKeeps(mac, rows, id, []);
  }

  lemma PerformKeeps(mac: Fingerprint, rows: Rows, call: Call)
    requires WellFormed(mac, rows) && (Creates(call) ==> call.id !in rows.turns)
    ensures WellFormed(mac, Perform(mac, rows, call))
  {
    hide WellFormed, Create, ChangeConversation, AppendTurn, RetryTurn, BranchTurn, AdvanceTurnStatus, GetConversation,
      DeleteConversation, PassOver, RecoverStreamingTurns, Reopen, CutAppend, CutDeletion, CutRecovery;
    match call
    case Creating(actor, id, retention, title, now) => CreateKeeps(mac, rows, actor, id, retention, title, now);
    case Changing(actor, cid, change, now) => ChangeKeeps(mac, rows, actor, cid, change, now);
    case Appending(actor, cid, id, lineage, q, now) => AppendKeeps(mac, rows, actor, cid, id, lineage, q, now);
    case Retrying(actor, cid, of, id, q, now) => RetryKeeps(mac, rows, actor, cid, of, id, q, now);
    case Branching(actor, cid, parent, id, q, now) => BranchKeeps(mac, rows, actor, cid, parent, id, q, now);
    case Advancing(actor, cid, id, status, now) => AdvanceKeeps(mac, rows, actor, cid, id, status, now);
    case Reading(actor, cid, at) => ReadKeeps(mac, rows, actor, cid, at);
    case Deleting(actor, cid, mode, requestedAt, at) => DeleteKeeps(mac, rows, actor, cid, mode, requestedAt, at);
    case Sweeping(moment, upTo, at) => if upTo <= |rows.order| { PassKeeps(mac, rows, moment, upTo, at); }
    case Recovering(at) => RecoverKeeps(mac, rows, at);
    case Reopening(at) => ReopenKeeps(mac, rows, at);
    case CrashedCreate(id) => CrashedCreateKeeps(mac, rows, id);
    case CrashedAppend(actor, cid, id, lineage, q, now) => CutAppendKeeps(mac, rows, actor, cid, id, lineage, q, now);
    case CrashedDelete(cid, mode, requestedAt, at, k) => CutDeletionKeeps(mac, rows, cid, mode, requestedAt, at, k);
    case CrashedRecovery(cid, index, at) => CutRecoveryKeeps(mac, rows, cid, index, at);
  }
}
