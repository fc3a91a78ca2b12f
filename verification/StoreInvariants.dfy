/** What every reachable state of the conversation store satisfies, and what
    follows from it for the append gate, the reads and the send endpoint. */
module StoreInvariants {
  import opened Outcomes
  import opened ConversationModels
  import opened Sequences
  import opened Lineage
  import opened ConversationRows

  // -- the invariant -------------------------------------------------------

  /** One rooted tree: the first turn is the only root, every other turn hangs
      off an earlier one, and no two turns share an id or a place below a parent. */
  ghost predicate TreeRows(cid: Id, turns: seq<Turn>)
  {
    && (forall i :: 0 <= i < |turns| ==> turns[i].conversationId == cid)
    && UniqueIds(turns)
    && (forall i :: 0 <= i < |turns| ==> (turns[i].lineage.parent.None? <==> i == 0))
    && (forall i :: 0 < i < |turns| ==> HasEarlierParent(turns, i))
    && (forall i, j :: 0 <= i < j < |turns| ==> !SamePlace(turns[i].lineage, turns[j].lineage))
  }

  ghost predicate HasEarlierParent(turns: seq<Turn>, i: nat)
    requires i < |turns|
  {
    exists j :: 0 <= j < i && turns[i].lineage.parent == Some(turns[j].id)
  }

  predicate SamePlace(a: TurnLineage, b: TurnLineage)
  {
    a.parent == b.parent && a.sibling == b.sibling
  }

  predicate TurnFine(mac: Fingerprint, t: Turn)
  {
    TurnOk(t) && (t.purged || t.contentHash == mac(t.content)) && (t.purged ==> Terminal(t.status))
  }

  ghost predicate HistoryOk(mac: Fingerprint, cid: Id, turns: seq<Turn>)
  {
    TreeRows(cid, turns) && forall i :: 0 <= i < |turns| ==> TurnFine(mac, turns[i])
  }

  predicate AllPurged(turns: seq<Turn>)
  {
    forall t | t in turns :: t.purged
  }

  /** No stored transcript block violates the conversation's retention policy. */
  predicate RetentionKept(r: RetentionPolicy, turns: seq<Turn>)
  {
    forall t | t in turns :: RetentionAllows(r, t)
  }

  predicate RecordFits(c: Conversation, cid: Id, turns: seq<Turn>)
  {
    && c.id == cid && ConversationOk(c)
    && (c.status == Deleted ==> AllPurged(turns))
    && RetentionKept(c.retention, turns)
  }

  /** The retention law, block by block: a transcript block is kept only under the policy for
      voice input if the turn carries a voice-input event, and only under the policy for
      text if it carries none. */
  ghost predicate TranscriptsKept(r: RetentionPolicy, content: seq<ContentBlock>, voice: seq<VoiceEvent>)
  {
    forall b | b in content && b.kind == Transcript ::
      if exists v :: v in voice && (v.event == UtteranceStart || v.event == SttCommit)
      then r.voiceTranscriptText == RetainedRedacted else r.transcriptText == RetainedRedacted
  }

  lemma TranscriptLaw(r: RetentionPolicy, t: Turn)
    ensures RetentionAllows(r, t) <==> TranscriptsKept(r, t.content, t.voice)
  { }

  ghost predicate DictOk(rows: Rows)
  {
    NoRepeats(rows.order) && forall cid :: cid in rows.order <==> cid in rows.conversations
  }

  ghost predicate WellFormed(mac: Fingerprint, rows: Rows)
  {
    && DictOk(rows)
    && (forall cid | cid in rows.turns ::
          && HistoryOk(mac, cid, rows.turns[cid])
          && (cid in rows.conversations || AllPurged(rows.turns[cid])))
    && (forall cid | cid in rows.conversations ::
          cid in rows.turns && RecordFits(rows.conversations[cid], cid, rows.turns[cid]))
  }

  // -- every single row write keeps it -------------------------------------

  lemma PutConversationKeeps(mac: Fingerprint, rows: Rows, record: Conversation)
    requires WellFormed(mac, rows) && record.id in rows.turns
    requires RecordFits(record, record.id, rows.turns[record.id])
    ensures WellFormed(mac, PutConversation(rows, record))
  {
    hide HistoryOk, RecordFits, AllPurged;
  }

  lemma PutTurnsKeeps(mac: Fingerprint, rows: Rows, cid: Id, turns: seq<Turn>)
    requires WellFormed(mac, rows) && HistoryOk(mac, cid, turns)
    requires if cid in rows.conversations then RecordFits(rows.conversations[cid], cid, turns) else AllPurged(turns)
    ensures WellFormed(mac, PutTurns(rows, cid, turns))
  {
    hide HistoryOk, RecordFits, AllPurged;
  }

  lemma {:induction false} WithoutMembers(order: seq<Id>, cid: Id)
    ensures forall c :: c in Without(order, cid) <==> c in order && c != cid
    ensures NoRepeats(order) ==> NoRepeats(Without(order, cid))
  {
    if order != [] {
      assert order == [order[0]] + order[1..];
      WithoutMembers(order[1..], cid);
      if NoRepeats(order) && order[0] != cid {
        var rest := Without(order[1..], cid);
        forall j | 0 <= j < |rest| ensures rest[j] != order[0] { assert rest[j] in order[1..]; }
      }
    }
  }

  lemma PopConversationKeeps(mac: Fingerprint, rows: Rows, cid: Id)
    requires WellFormed(mac, rows)
    requires cid in rows.turns ==> AllPurged(rows.turns[cid])
    ensures WellFormed(mac, PopConversation(rows, cid))
  {
    WithoutMembers(rows.order, cid);
  }

  lemma PopTurnsKeeps(mac: Fingerprint, rows: Rows, cid: Id)
    requires WellFormed(mac, rows) && cid !in rows.conversations
    ensures WellFormed(mac, PopTurns(rows, cid))
  { }

  // -- rewriting turns in place --------------------------------------------

  /** Turn by turn the same identity and the same place in the tree. */
  ghost predicate SameShape(a: seq<Turn>, b: seq<Turn>)
  {
    && |a| == |b|
    && forall i :: 0 <= i < |a| ==>
         a[i].id == b[i].id && a[i].conversationId == b[i].conversationId && a[i].lineage == b[i].lineage
  }

  lemma ShapeKeepsTree(cid: Id, a: seq<Turn>, b: seq<Turn>)
    requires TreeRows(cid, a) && SameShape(a, b)
    ensures TreeRows(cid, b)
  {
    forall i | 0 < i < |b| ensures HasEarlierParent(b, i) {
      assert HasEarlierParent(a, i);
      var j :| 0 <= j < i && a[i].lineage.parent == Some(a[j].id);
      assert b[i].lineage.parent == Some(b[j].id);
    }
  }

  lemma TombstoneFine(mac: Fingerprint, t: Turn, at: int)
    requires TurnFine(mac, t)
    ensures var tomb := Tombstone(t, at); TurnFine(mac, tomb) && tomb.purged && tomb.content == []
  { }

  lemma TombstonesKeep(mac: Fingerprint, cid: Id, turns: seq<Turn>, at: int)
    requires HistoryOk(mac, cid, turns)
    ensures HistoryOk(mac, cid, Tombstones(turns, at)) && AllPurged(Tombstones(turns, at))
    ensures forall r :: RetentionKept(r, Tombstones(turns, at))
  {
    var tombs := Tombstones(turns, at);
    assert SameShape(turns, tombs);
    hide SameShape, TurnFine, TurnOk;
    ShapeKeepsTree(cid, turns, tombs);
    hide TreeRows, Tombstone;
    forall i | 0 <= i < |tombs| ensures TurnFine(mac, tombs[i]) && tombs[i].purged && tombs[i].content == [] {
      TombstoneFine(mac, turns[i], at);
    }
    hide Tombstones;
  }

  lemma StoredFacts(mac: Fingerprint, rows: Rows, cid: Id)
    requires WellFormed(mac, rows) && cid in rows.turns
    ensures HistoryOk(mac, cid, rows.turns[cid])
    ensures cid in rows.conversations ==> RecordFits(rows.conversations[cid], cid, rows.turns[cid])
  { }

  lemma PurgedFits(c: Conversation, cid: Id, turns: seq<Turn>, tombs: seq<Turn>)
    requires RecordFits(c, cid, turns) && AllPurged(tombs) && RetentionKept(c.retention, tombs)
    ensures RecordFits(c, cid, tombs)
  { }

  lemma DeletedFits(pending: Conversation, tombs: seq<Turn>, at: int)
    requires ConversationOk(pending) && pending.deletion.Some? && AllPurged(tombs) && RetentionKept(pending.retention, tombs)
    ensures RecordFits(DeletedForm(pending, at), pending.id, tombs) && DeletedForm(pending, at).id == pending.id
  { }

  lemma PurgeKeeps(mac: Fingerprint, rows: Rows, cid: Id, at: int)
    requires WellFormed(mac, rows) && cid in rows.turns
    ensures WellFormed(mac, PutTurns(rows, cid, Tombstones(rows.turns[cid], at)))
  {
    hide WellFormed, HistoryOk, RecordFits, Tombstones, AllPurged, RetentionKept;
    var tombs := Tombstones(rows.turns[cid], at);
    StoredFacts(mac, rows, cid);
    TombstonesKeep(mac, cid, rows.turns[cid], at);
    if cid in rows.conversations { PurgedFits(rows.conversations[cid], cid, rows.turns[cid], tombs); }
    PutTurnsKeeps(mac, rows, cid, tombs);
  }

  lemma CompleteDeletionKeeps(mac: Fingerprint, rows: Rows, pending: Conversation, at: int)
    requires WellFormed(mac, rows)
    requires pending.id in rows.turns && pending.deletion.Some? && ConversationOk(pending)
    ensures WellFormed(mac, CompleteDeletion(rows, pending, at).rows)
  {
    hide WellFormed, HistoryOk, RecordFits, Tombstones, AllPurged, RetentionKept, ConversationOk, DeletedForm,
      AuditConversation, PurgeEvents, PutConversation, PopConversation;
    var cid := pending.id;
    var tombs := Tombstones(rows.turns[cid], at);
    var purged := PutTurns(rows, cid, tombs);
    StoredFacts(mac, rows, cid);
    TombstonesKeep(mac, cid, rows.turns[cid], at);
    PurgeKeeps(mac, rows, cid, at);
    if Erases(pending) {
      PopConversationKeeps(mac, purged, cid);
      PoppedIsGone(purged, cid);
      PopTurnsKeeps(mac, PopConversation(purged, cid), cid);
    } else {
      DeletedFits(pending, tombs, at);
      PutConversationKeeps(mac, purged, DeletedForm(pending, at));
    }
  }

  lemma PoppedIsGone(rows: Rows, cid: Id)
    ensures cid !in PopConversation(rows, cid).conversations
  { }

  lemma RecoverKeeps(mac: Fingerprint, rows: Rows, at: int)
    requires WellFormed(mac, rows)
    ensures WellFormed(mac, RecoverStreamingTurns(rows, at))
  {
    var after := RecoverStreamingTurns(rows, at);
    forall cid | cid in after.turns
      ensures HistoryOk(mac, cid, after.turns[cid])
      ensures cid in after.conversations || AllPurged(after.turns[cid])
    {
      RecoveredKeep(mac, cid, rows.turns[cid], at);
    }
    forall cid | cid in after.conversations
      ensures cid in after.turns && RecordFits(after.conversations[cid], cid, after.turns[cid])
    {
      RecoveredFit(after.conversations[cid], cid, rows.turns[cid], at);
    }
  }

  lemma RecoveredKeep(mac: Fingerprint, cid: Id, turns: seq<Turn>, at: int)
    requires HistoryOk(mac, cid, turns)
    ensures HistoryOk(mac, cid, RecoveredTurns(turns, at))
    ensures AllPurged(turns) ==> AllPurged(RecoveredTurns(turns, at))
  {
    hide TreeRows, TurnFine, Recovered;
    var after := RecoveredTurns(turns, at);
    forall i | 0 <= i < |turns|
      ensures after[i].id == turns[i].id && after[i].conversationId == turns[i].conversationId
      ensures after[i].lineage == turns[i].lineage && TurnFine(mac, after[i]) && after[i].purged == turns[i].purged
    {
      RecoveredFine(mac, turns[i], at);
    }
    ShapeKeepsTree(cid, turns, after);
    forall i | 0 <= i < |turns| && AllPurged(turns) ensures after[i].purged { assert turns[i] in turns; }
  }

  lemma RecoveredFine(mac: Fingerprint, t: Turn, at: int)
    requires TurnFine(mac, t)
    ensures TurnFine(mac, Recovered(t, at))
    ensures var r := Recovered(t, at);
            r.id == t.id && r.conversationId == t.conversationId && r.lineage == t.lineage && r.purged == t.purged
  { }

  lemma RecoveredFit(c: Conversation, cid: Id, turns: seq<Turn>, at: int)
    requires RecordFits(c, cid, turns)
    ensures RecordFits(c, cid, RecoveredTurns(turns, at))
  {
    var after := RecoveredTurns(turns, at);
    forall t | t in after ensures RetentionAllows(c.retention, t) {
      var i :| 0 <= i < |after| && after[i] == t;
      assert turns[i] in turns;
    }
  }

  // -- what the gate sees --------------------------------------------------

  lemma {:induction false} OwnConcat(a: seq<Turn>, b: seq<Turn>, cid: Id)
    ensures Own(a + b, cid) == Own(a, cid) + Own(b, cid)
  {
    if a == [] {
      assert a + b == b;
    } else {
      OwnConcat(a[1..], b, cid);
      assert (a + b)[0] == a[0] && (a + b)[1..] == a[1..] + b;
      Associate([a[0]], Own(a[1..], cid), Own(b, cid));
    }
  }

  lemma {:induction false} OwnOfOne(turns: seq<Turn>, home: Id, cid: Id)
    requires forall t | t in turns :: t.conversationId == home
    ensures Own(turns, cid) == if home == cid then turns else []
  {
    if turns != [] {
      OwnOfOne(turns[1..], home, cid);
      assert turns == [turns[0]] + turns[1..];
    }
  }

  lemma {:induction false} UniverseOwnFrom(conversations: map<Id, Conversation>, turns: map<Id, seq<Turn>>,
                                           actor: Actor, cid: Id, order: seq<Id>)
    requires cid in conversations && conversations[cid].actor == actor
    requires forall c | c in order :: c in conversations && c in turns && conversations[c].id == c
    requires forall c | c in order :: forall t | t in turns[c] :: t.conversationId == c
    requires NoRepeats(order)
    ensures Own(UniverseOf(RecordsOf(order, conversations), turns, actor), cid) == if cid in order then turns[cid] else []
  {
    if order != [] {
      var c := order[0];
      var mine := if conversations[c].actor == actor then turns[c] else [];
      var later := RecordsOf(order[1..], conversations);
      var rest := UniverseOf(later, turns, actor);
      assert c in order && forall d | d in order[1..] :: d in order;
      UniverseOwnFrom(conversations, turns, actor, cid, order[1..]);
      assert RecordsOf(order, conversations) == [conversations[c]] + later;
      assert UniverseOf(RecordsOf(order, conversations), turns, actor) == mine + rest;
      OwnConcat(mine, rest, cid);
      OwnOfOne(mine, c, cid);
      assert c !in order[1..];
    }
  }

  /** The gate's own-conversation view is exactly the stored turn list. */
  lemma GateSeesTheHistory(mac: Fingerprint, rows: Rows, actor: Actor, cid: Id)
    requires WellFormed(mac, rows) && Owns(rows, actor, cid)
    ensures Own(Universe(rows, actor), cid) == rows.turns[cid]
  {
    forall c | c in rows.order ensures forall t | t in rows.turns[c] :: t.conversationId == c {
      assert HistoryOk(mac, c, rows.turns[c]);
    }
    UniverseOwnFrom(rows.conversations, rows.turns, actor, cid, rows.order);
  }

  lemma {:induction false} ByIdMembers(own: seq<Turn>)
    ensures forall id :: id in ById(own) <==> exists t :: t in own && t.id == id
    ensures forall id | id in ById(own) :: ById(own)[id] in own && ById(own)[id].id == id
  {
    if own != [] {
      ByIdMembers(own[..|own| - 1]);
      assert own == own[..|own| - 1] + [own[|own| - 1]];
    }
  }

  lemma ByIdAt(own: seq<Turn>, i: nat)
    requires UniqueIds(own) && i < |own|
    ensures own[i].id in ById(own) && ById(own)[own[i].id] == own[i]
  {
    ByIdMembers(own);
    assert own[i] in own;
    UniqueById(own, own[i], ById(own)[own[i].id]);
  }

  /** Climbing from the turn at position `i` needs at most `i + 1` steps. */
  lemma {:induction false} WalkReachesRoot(cid: Id, turns: seq<Turn>, i: nat, steps: nat)
    requires TreeRows(cid, turns) && i < |turns| && steps + i < |turns|
    ensures AncestorWalk(ById(turns), |turns|, Some(turns[i].id), steps).None?
    decreases i
  {
    ByIdAt(turns, i);
    if i > 0 {
      assert HasEarlierParent(turns, i);
      var j :| 0 <= j < i && turns[i].lineage.parent == Some(turns[j].id);
      WalkReachesRoot(cid, turns, j, steps + 1);
    }
  }

  lemma TreeLineageVerdict(cid: Id, existing: seq<Turn>, own: seq<Turn>, parent: Option<Id>)
    requires TreeRows(cid, own)
    ensures LineageVerdict(existing, own, parent) != Some(LineageCycle)
    ensures LineageVerdict(existing, own, parent) != Some(LineageBroken)
    ensures LineageVerdict(existing, own, parent).None? <==>
            if parent.None? then own == [] else exists p :: p in own && p.id == parent.value
  {
    ByIdMembers(own);
    if parent.Some? && parent.value in ById(own) {
      var i :| 0 <= i < |own| && own[i].id == parent.value;
      WalkReachesRoot(cid, own, i, 0);
    }
    if parent.None? && own != [] { assert own[0] in own; }
  }

  /** Which verdict the gate gives over a history that is a tree. */
  lemma TreeVerdict(record: Conversation, existing: seq<Turn>, own: seq<Turn>, turn: Turn)
    requires own == Own(existing, record.id) && TreeRows(record.id, own) && turn.conversationId == record.id
    ensures var verdict := GateVerdict(record, existing, turn);
            && verdict != Err(LineageCycle) && verdict != Err(LineageBroken)
            && (verdict.Ok? <==> GateAccepts(record, existing, own, turn))
  {
    TreeLineageVerdict(record.id, existing, own, turn.lineage.parent);
    hide TreeRows, Own, LineageVerdict, RetentionAllows;
  }

  /** A root into an empty history or a free place below a stored turn, with an id
      the actor has not used and content the retention policy allows. */
  ghost predicate GateAccepts(record: Conversation, existing: seq<Turn>, own: seq<Turn>, turn: Turn)
  {
    && record.status == Active
    && (forall t | t in existing :: t.id != turn.id)
    && (if turn.lineage.parent.None? then own == []
        else exists p :: p in own && p.id == turn.lineage.parent.value)
    && SiblingFree(own, turn.lineage.parent, turn.lineage.sibling)
    && RetentionAllows(record.retention, turn)
  }

  /** In a well-formed state the gate's refusals for corrupt lineage cannot happen
      (the ancestor walk always ends at the root), and the gate accepts exactly the
      appends that keep the history a tree within the retention policy. */
  lemma GateOverStoredRows(mac: Fingerprint, rows: Rows, actor: Actor, cid: Id, turn: Turn)
    requires WellFormed(mac, rows) && Owns(rows, actor, cid) && turn.conversationId == cid
    ensures var verdict := GateVerdict(rows.conversations[cid], Universe(rows, actor), turn);
            && verdict != Err(LineageCycle) && verdict != Err(LineageBroken)
            && (verdict.Ok? <==> GateAccepts(rows.conversations[cid], Universe(rows, actor), rows.turns[cid], turn))
  {
    GateSeesTheHistory(mac, rows, actor, cid);
    assert HistoryOk(mac, cid, rows.turns[cid]);
    TreeVerdict(rows.conversations[cid], Universe(rows, actor), rows.turns[cid], turn);
  }

  lemma {:induction false} OwnMembers(existing: seq<Turn>, cid: Id)
    ensures forall t :: t in Own(existing, cid) <==> t in existing && t.conversationId == cid
  {
    if existing != [] {
      OwnMembers(existing[1..], cid);
      assert existing == [existing[0]] + existing[1..];
    }
  }

  lemma AppendedTree(cid: Id, turns: seq<Turn>, turn: Turn)
    requires TreeRows(cid, turns) && turn.conversationId == cid
    requires forall t | t in turns :: t.id != turn.id
    requires if turn.lineage.parent.None? then turns == []
             else exists p :: p in turns && p.id == turn.lineage.parent.value
    requires SiblingFree(turns, turn.lineage.parent, turn.lineage.sibling)
    ensures TreeRows(cid, turns + [turn])
  {
    var all := turns + [turn];
    forall i | 0 < i < |all| ensures HasEarlierParent(all, i) {
      if i < |turns| {
        assert HasEarlierParent(turns, i);
        var j :| 0 <= j < i && turns[i].lineage.parent == Some(turns[j].id);
        assert all[i].lineage.parent == Some(all[j].id);
      } else {
        var p :| p in turns && p.id == turn.lineage.parent.value;
        var j :| 0 <= j < |turns| && turns[j] == p;
        assert all[i].lineage.parent == Some(all[j].id);
      }
    }
    forall i, j | 0 <= i < j < |all| ensures all[i].id != all[j].id && !SamePlace(all[i].lineage, all[j].lineage) {
      if j == |turns| { assert turns[i] in turns; }
    }
  }

  lemma AppendedHistory(mac: Fingerprint, c: Conversation, own: seq<Turn>, turn: Turn)
    requires HistoryOk(mac, c.id, own) && RecordFits(c, c.id, own) && c.status == Active
    requires TreeRows(c.id, own + [turn]) && TurnFine(mac, turn) && RetentionAllows(c.retention, turn)
    ensures HistoryOk(mac, c.id, own + [turn]) && RecordFits(c, c.id, own + [turn])
  { }

  lemma TouchedFits(c: Conversation, cid: Id, turns: seq<Turn>, now: int)
    requires RecordFits(c, cid, turns)
    ensures RecordFits(c.(updatedAt := now), cid, turns)
  { }

  /** What a stored append looks like. */
  lemma AppendFacts(mac: Fingerprint, rows: Rows, actor: Actor, cid: Id, id: Id, lineage: TurnLineage,
                    q: TurnRequest, now: int)
    requires AppendTurn(mac, rows, actor, cid, id, lineage, q, now).result.Ok?
    ensures var reply := AppendTurn(mac, rows, actor, cid, id, lineage, q, now);
            var turn := reply.result.value;
            && Owns(rows, actor, cid) && turn == MakeTurn(mac, cid, id, lineage, q, now) && TurnOk(turn)
            && GateVerdict(rows.conversations[cid], Universe(rows, actor), turn).Ok?
            && reply.rows == PutConversation(PutTurns(rows, cid, TurnsOf(rows, cid) + [turn]),
                                             rows.conversations[cid].(updatedAt := now))
  {
    hide GateVerdict, UniverseOf, TurnOk;
  }

  lemma AppendKeeps(mac: Fingerprint, rows: Rows, actor: Actor, cid: Id, id: Id, lineage: TurnLineage,
                    q: TurnRequest, now: int)
    requires WellFormed(mac, rows)
    ensures WellFormed(mac, AppendTurn(mac, rows, actor, cid, id, lineage, q, now).rows)
  {
    hide TurnOk, ConversationOk, GateVerdict, UniverseOf;
    var reply := AppendTurn(mac, rows, actor, cid, id, lineage, q, now);
    if reply.result.Ok? {
      AppendFacts(mac, rows, actor, cid, id, lineage, q, now);
      hide AppendTurn;
      var turn, own, record := reply.result.value, rows.turns[cid], rows.conversations[cid];
      assert HistoryOk(mac, cid, own) && RecordFits(record, cid, own);
      GateOverStoredRows(mac, rows, actor, cid, turn);
      AppendedInPlace(mac, rows, actor, cid, turn);
      AppendedHistory(mac, record, own, turn);
      TouchedFits(record, cid, own + [turn], now);
      PutTurnsKeeps(mac, rows, cid, own + [turn]);
      PutConversationKeeps(mac, PutTurns(rows, cid, own + [turn]), record.(updatedAt := now));
    }
  }

  lemma AppendedInPlace(mac: Fingerprint, rows: Rows, actor: Actor, cid: Id, turn: Turn)
    requires WellFormed(mac, rows) && Owns(rows, actor, cid) && turn.conversationId == cid
    requires GateVerdict(rows.conversations[cid], Universe(rows, actor), turn).Ok?
    ensures TreeRows(cid, rows.turns[cid] + [turn])
  {
    var own := rows.turns[cid];
    GateOverStoredRows(mac, rows, actor, cid, turn);
    assert HistoryOk(mac, cid, own);
    assert forall t | t in own :: t.id != turn.id by {
      GateSeesTheHistory(mac, rows, actor, cid);
      OwnMembers(Universe(rows, actor), cid);
    }
    AppendedTree(cid, own, turn);
  }

  // -- advancing a status ----------------------------------------------------

  lemma {:induction false} FindTurnAt(turns: seq<Turn>, id: Id) returns (i: nat)
    requires FindTurn(turns, id).Some?
    ensures i < |turns| && turns[i] == FindTurn(turns, id).value && turns[i].id == id
    ensures forall t: Turn :: t.id == id ==> ReplaceTurn(turns, t) == turns[i := t]
  {
    if turns[0].id == id {
      i := 0;
    } else {
      var k := FindTurnAt(turns[1..], id);
      i := k + 1;
      forall t: Turn | t.id == id ensures ReplaceTurn(turns, t) == turns[i := t] {
        assert ReplaceTurn(turns[1..], t) == turns[1..][k := t];
      }
    }
  }

  lemma AdvancedFine(mac: Fingerprint, t: Turn, advanced: Turn)
    requires TurnFine(mac, t) && !t.purged && Terminal(advanced.status) && advanced.completedAt.Some?
    requires advanced == t.(status := advanced.status, completedAt := advanced.completedAt)
    ensures TurnFine(mac, advanced) && forall r :: RetentionAllows(r, t) ==> RetentionAllows(r, advanced)
  { }

  lemma AdvancedHistory(mac: Fingerprint, c: Conversation, turns: seq<Turn>, i: nat, advanced: Turn)
    requires HistoryOk(mac, c.id, turns) && RecordFits(c, c.id, turns) && i < |turns| && c.status != Deleted
    requires advanced == turns[i].(status := advanced.status, completedAt := advanced.completedAt)
    requires !turns[i].purged && Terminal(advanced.status) && advanced.completedAt.Some?
    ensures HistoryOk(mac, c.id, turns[i := advanced]) && RecordFits(c, c.id, turns[i := advanced])
  {
    var after := turns[i := advanced];
    assert SameShape(turns, after) && turns[i] in turns;
    hide SameShape, TurnFine, TurnOk, TreeRows, ConversationOk, RetentionAllows;
    ShapeKeepsTree(c.id, turns, after);
    AdvancedFine(mac, turns[i], advanced);
    forall t | t in after ensures RetentionAllows(c.retention, t) {
      if t == after[i] { assert RetentionAllows(c.retention, turns[i]); }
    }
  }

  lemma AdvanceKeeps(mac: Fingerprint, rows: Rows, actor: Actor, cid: Id, id: Id, status: TurnStatus, now: int)
    requires WellFormed(mac, rows)
    ensures WellFormed(mac, AdvanceTurnStatus(rows, actor, cid, id, status, now).rows)
  {
    hide WellFormed, HistoryOk, RecordFits, TurnOk, ConversationOk, ReplaceTurn, FindTurn, AuditTurn;
    var reply := AdvanceTurnStatus(rows, actor, cid, id, status, now);
    if reply.result.Ok? {
      StoredKey(mac, rows, cid);
      var turns, record := rows.turns[cid], rows.conversations[cid];
      var i := FindTurnAt(turns, id);
      StoredFacts(mac, rows, cid);
      AdvancedHistory(mac, record, turns, i, reply.result.value);
      PutTurnsKeeps(mac, rows, cid, turns[i := reply.result.value]);
    }
  }

  lemma StoredKey(mac: Fingerprint, rows: Rows, cid: Id)
    requires WellFormed(mac, rows) && cid in rows.conversations
    ensures rows.conversations[cid].id == cid && cid in rows.turns
  { }

  // -- deletion and retention --------------------------------------------------

  lemma DeleteKeeps(mac: Fingerprint, rows: Rows, actor: Actor, cid: Id, mode: DeletionMode, requestedAt: int, at: int)
    requires WellFormed(mac, rows)
    ensures WellFormed(mac, DeleteConversation(rows, actor, cid, mode, requestedAt, at).rows)
  {
    if Owns(rows, actor, cid) {
      var record := rows.conversations[cid];
      var pending := PendingForm(record, mode, requestedAt);
      if record.status == DeletionPending {
        CompleteDeletionKeeps(mac, rows, record, at);
      } else if Listable(record.status) && ConversationOk(pending) {
        PutConversationKeeps(mac, rows, pending);
        CompleteDeletionKeeps(mac, PutConversation(rows, pending), pending, at);
      }
    }
  }

  lemma ExpiredFits(record: Conversation, turns: seq<Turn>, moment: int)
    requires ConversationOk(record) && RecordFits(record, record.id, turns) && Listable(record.status)
    ensures var expired := PendingForm(record, PurgeContentKeepTombstone, moment);
            ConversationOk(expired) && RecordFits(expired, record.id, turns)
  { }

  lemma EnforceOneKeeps(mac: Fingerprint, rows: Rows, record: Conversation, moment: Option<int>, at: int)
    requires WellFormed(mac, rows) && record.id in rows.turns && ConversationOk(record)
    requires RecordFits(record, record.id, rows.turns[record.id])
    ensures WellFormed(mac, EnforceOne(rows, record, moment, at).rows)
  {
    assert record.status == DeletionPending ==> record.deletion.Some?;
    hide WellFormed, ConversationOk, RecordFits, CompleteDeletion, PutConversation;
    if record.status == DeletionPending {
      CompleteDeletionKeeps(mac, rows, record, at);
    } else if Expired(record, moment) {
      var pending := PendingForm(record, PurgeContentKeepTombstone, moment.value);
      ExpiredFits(record, rows.turns[record.id], moment.value);
      PutConversationKeeps(mac, rows, pending);
      PutKeepsTurns(rows, pending);
      CompleteDeletionKeeps(mac, PutConversation(rows, pending), pending, at);
    }
  }

  lemma PutKeepsTurns(rows: Rows, record: Conversation)
    ensures PutConversation(rows, record).turns == rows.turns
  { }
}
