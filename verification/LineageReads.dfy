/** What the store invariant gives the readers: a read never fails on lineage or
    fingerprint, the last turn it lists is a leaf, and the send endpoint's append
    position is always free (`_send_lineage` in workbench/conversation_api.py). */
module LineageReads {
  import opened Outcomes
  import opened ConversationModels
  import opened Lineage
  import opened ConversationRows
  import opened StoreInvariants

  // -- a tree of rows reads back completely ------------------------------------

  lemma {:induction false} TreeDescends(cid: Id, turns: seq<Turn>, i: nat) returns (n: nat)
    requires TreeRows(cid, turns) && i < |turns|
    ensures Descends(turns, turns[i], n)
    decreases i
  {
    if i == 0 {
      n := 0;
    } else {
      assert HasEarlierParent(turns, i);
      var j :| 0 <= j < i && turns[i].lineage.parent == Some(turns[j].id);
      var m := TreeDescends(cid, turns, j);
      assert turns[j] in turns;
      n := m + 1;
    }
  }

  lemma TreeAllReachable(cid: Id, turns: seq<Turn>)
    requires TreeRows(cid, turns)
    ensures AllReachable(turns)
  {
    forall t | t in turns ensures Reachable(turns, t) {
      var i :| 0 <= i < |turns| && turns[i] == t;
      var n := TreeDescends(cid, turns, i);
    }
  }

  lemma InOrderIsAll(turns: seq<Turn>)
    requires UniqueIds(turns) && AllReachable(turns)
    ensures multiset(InOrder(turns)) == multiset(turns)
  {
    var trees := ForestVerdict(turns);
    ForestIsTheOne(turns, trees);
  }

  lemma ReadHistoryOk(mac: Fingerprint, cid: Id, turns: seq<Turn>)
    requires HistoryOk(mac, cid, turns)
    ensures UniqueIds(turns) && AllReachable(turns) && FingerprintsMatch(mac, InOrder(turns))
    ensures multiset(InOrder(turns)) == multiset(turns)
  {
    TreeAllReachable(cid, turns);
    InOrderIsAll(turns);
    forall t | t in InOrder(turns) ensures t.purged || t.contentHash == mac(t.content) {
      assert t in multiset(InOrder(turns));
    }
  }

  predicate Readable(rows: Rows, actor: Actor, cid: Id)
  {
    Owns(rows, actor, cid)
    && !(rows.conversations[cid].status == DeletionPending && Erases(rows.conversations[cid]))
  }

  lemma ReconciledFacts(mac: Fingerprint, rows: Rows, actor: Actor, cid: Id, at: int)
    requires WellFormed(mac, rows)
    ensures var found := GetConversation(rows, actor, cid, at);
            && (found.result.Ok? <==> Readable(rows, actor, cid))
            && (found.result.Err? ==> found.result.error == UnknownConversation)
            && (found.result.Ok? ==> found.result.value.status != DeletionPending)
            && (found.result.Ok? ==> cid in found.rows.turns && HistoryOk(mac, cid, found.rows.turns[cid]))
  {
    if Owns(rows, actor, cid) {
      var record := rows.conversations[cid];
      assert RecordFits(record, cid, rows.turns[cid]) && HistoryOk(mac, cid, rows.turns[cid]);
      assert record.id == cid;
      TombstonesKeep(mac, cid, rows.turns[cid], at);
      hide WellFormed, RecordFits, HistoryOk, Tombstones, ConversationOk;
    } else {
      hide WellFormed;
    }
  }

  /** Reading a conversation never fails on corrupt lineage or a stale fingerprint:
      the owner gets every stored turn, once, in lineage order; anyone else, and the
      owner of an erased conversation, gets the one unknown-conversation error. */
  lemma ReadsNeverCorrupt(mac: Fingerprint, rows: Rows, actor: Actor, cid: Id, at: int)
    requires WellFormed(mac, rows)
    ensures var read := GetConversationWithTurns(mac, rows, actor, cid, at);
            && (read.result.Ok? <==>
                  && cid in rows.conversations && rows.conversations[cid].actor == actor
                  && !(rows.conversations[cid].status == DeletionPending && rows.conversations[cid].deletion.Some?
                       && rows.conversations[cid].deletion.value.mode == PurgeAllRecords))
            && (read.result.Err? ==> read.result.error == UnknownConversation)
            && (read.result.Ok? ==> multiset(read.result.value.turns) == multiset(TurnsOf(read.rows, cid)))
            && read.rows == GetConversation(rows, actor, cid, at).rows
  {
    ReconciledFacts(mac, rows, actor, cid, at);
    var found := GetConversation(rows, actor, cid, at);
    hide WellFormed, GetConversation, Readable, HistoryOk, UniqueIds, AllReachable, FingerprintsMatch;
    if found.result.Ok? { ReadHistoryOk(mac, cid, found.rows.turns[cid]); }
  }

  // -- the tip ---------------------------------------------------------------------

  /** The last node of a pre-order has no children. */
  lemma {:induction false} LastIsLeaf(turns: seq<Turn>, trees: seq<Tree>)
    requires trees != [] && Lineage.Complete(turns, trees)
    ensures PreOrder(trees) != []
    ensures Kids(turns, Some(PreOrder(trees)[|PreOrder(trees)| - 1].id)) == []
  {
    if trees[1..] != [] {
      LastIsLeaf(turns, trees[1..]);
    } else if trees[0].kids != [] {
      LastIsLeaf(turns, trees[0].kids);
    }
  }

  /** `turns[-1].id if turns else None` */
  function Tip(turns: seq<Turn>): Option<Id>
  {
    if turns == [] then None else Some(turns[|turns| - 1].id)
  }

  /** `_send_lineage(prior_turns, tip)` */
  function SendLineage(prior: seq<Turn>): TurnLineage
  {
    TurnLineage(Tip(prior), NextSibling(prior, Tip(prior)), Initial)
  }

  lemma {:induction false} NoSiblingYet(turns: seq<Turn>, parent: Option<Id>)
    requires forall t | t in turns :: t.lineage.parent != parent
    ensures NextSibling(turns, parent) == 0
  {
    if turns != [] { NoSiblingYet(turns[1..], parent); }
  }

  lemma TipIsFree(turns: seq<Turn>)
    requires UniqueIds(turns) && AllReachable(turns)
    ensures forall t | t in turns :: t.lineage.parent != Tip(InOrder(turns))
    ensures InOrder(turns) == [] <==> turns == []
  {
    var ordered := InOrder(turns);
    InOrderIsAll(turns);
    assert |multiset(ordered)| == |multiset(turns)|;
    var trees := ForestVerdict(turns);
    ForestIsTheOne(turns, trees);
    if ordered != [] {
      LastIsLeaf(turns, trees);
      KidsMembers(turns, Tip(ordered));
    }
  }

  /** The position the send endpoint computes from a read: the first place below
      the last turn listed, or the root of an empty conversation. */
  lemma SendLineageIsTip(mac: Fingerprint, cid: Id, turns: seq<Turn>)
    requires HistoryOk(mac, cid, turns)
    ensures SendLineage(InOrder(turns)) == TurnLineage(Tip(InOrder(turns)), 0, Initial)
    ensures SiblingFree(turns, Tip(InOrder(turns)), 0)
    ensures if turns == [] then Tip(InOrder(turns)).None?
            else Tip(InOrder(turns)).Some? && TurnIdOk(Tip(InOrder(turns)).value)
                 && exists p :: p in turns && p.id == Tip(InOrder(turns)).value
  {
    var ordered := InOrder(turns);
    ReadHistoryOk(mac, cid, turns);
    TipIsFree(turns);
    hide HistoryOk, TreeRows, AllReachable, FingerprintsMatch;
    forall t | t in ordered ensures t in turns { assert t in multiset(ordered); }
    NoSiblingYet(ordered, Tip(ordered));
    if ordered != [] {
      assert ordered[|ordered| - 1] in ordered;
      StoredIdOk(mac, cid, turns, ordered[|ordered| - 1]);
    }
  }

  lemma StoredIdOk(mac: Fingerprint, cid: Id, turns: seq<Turn>, t: Turn)
    requires HistoryOk(mac, cid, turns) && t in turns
    ensures TurnIdOk(t.id)
  {
    var i :| 0 <= i < |turns| && turns[i] == t;
    assert TurnFine(mac, turns[i]);
  }

  /** A request whose own fields are valid and which holds no transcript block. */
  predicate PlainRequest(q: TurnRequest)
  {
    && !q.role.Unlisted? && !q.mode.Unlisted? && !q.status.Unlisted? && RedactionOk(q.redaction)
    && |q.content| <= MAX_CONTENT_BLOCKS
    && (forall b | b in q.content :: ContentBlockOk(b) && b.kind != Transcript)
    && (q.redaction.status == WithheldText ==> q.content == [])
    && q.voice == []
  }

  lemma PlainTurnOk(mac: Fingerprint, cid: Id, id: Id, lineage: TurnLineage, q: TurnRequest, now: int)
    requires PlainRequest(q) && TurnIdOk(id) && ConversationIdOk(cid) && LineageOk(lineage) && lineage.parent != Some(id)
    ensures TurnOk(MakeTurn(mac, cid, id, lineage, q, now))
    ensures forall r :: RetentionAllows(r, MakeTurn(mac, cid, id, lineage, q, now))
  {
    hide TurnIdOk, ConversationIdOk, LineageOk;
  }

  lemma StoredNameOk(mac: Fingerprint, rows: Rows, cid: Id)
    requires WellFormed(mac, rows) && cid in rows.conversations
    ensures ConversationIdOk(cid) && cid in rows.turns
  {
    assert RecordFits(rows.conversations[cid], cid, rows.turns[cid]);
    assert ConversationOk(rows.conversations[cid]);
  }

  /** On every active conversation, an append of a fresh valid turn at a free place
      below a stored turn - or as the root of an empty history - is accepted. */
  lemma FreePlaceAccepted(mac: Fingerprint, rows: Rows, actor: Actor, cid: Id, id: Id, lineage: TurnLineage,
                          q: TurnRequest, now: int)
    requires WellFormed(mac, rows) && Owns(rows, actor, cid) && rows.conversations[cid].status == Active
    requires PlainRequest(q) && TurnIdOk(id) && forall t | t in Universe(rows, actor) :: t.id != id
    requires LineageOk(lineage) && SiblingFree(rows.turns[cid], lineage.parent, lineage.sibling)
    requires if lineage.parent.None? then rows.turns[cid] == []
             else exists p :: p in rows.turns[cid] && p.id == lineage.parent.value
    ensures AppendTurn(mac, rows, actor, cid, id, lineage, q, now).result
            == Ok(MakeTurn(mac, cid, id, lineage, q, now))
  {
    hide WellFormed, UniverseOf, PlainRequest, TurnIdOk, LineageOk, TurnOk, GateVerdict, RetentionAllows, Own;
    var turn := MakeTurn(mac, cid, id, lineage, q, now);
    GateSeesTheHistory(mac, rows, actor, cid);
    OwnMembers(Universe(rows, actor), cid);
    assert lineage.parent != Some(id);
    StoredNameOk(mac, rows, cid);
    PlainTurnOk(mac, cid, id, lineage, q, now);
    GateOverStoredRows(mac, rows, actor, cid, turn);
    hide SiblingFree;
  }

  lemma ReadLive(mac: Fingerprint, rows: Rows, actor: Actor, cid: Id, at: int)
    requires WellFormed(mac, rows) && Owns(rows, actor, cid) && rows.conversations[cid].status != DeletionPending
    ensures var read := GetConversationWithTurns(mac, rows, actor, cid, at);
            read == Reply(rows, Ok(OrderedHistory(rows.conversations[cid], InOrder(rows.turns[cid]))), [])
  {
    assert HistoryOk(mac, cid, rows.turns[cid]);
    assert rows.conversations[cid].id == cid;
    ReadHistoryOk(mac, cid, rows.turns[cid]);
    hide WellFormed, HistoryOk, UniqueIds, AllReachable, FingerprintsMatch;
  }

  /** So the user turn of a send is never refused by the gate. */
  lemma SendAccepted(mac: Fingerprint, rows: Rows, actor: Actor, cid: Id, at: int, id: Id, q: TurnRequest, now: int)
    requires WellFormed(mac, rows) && Owns(rows, actor, cid) && rows.conversations[cid].status == Active
    requires PlainRequest(q) && TurnIdOk(id) && forall t | t in Universe(rows, actor) :: t.id != id
    ensures var read := GetConversationWithTurns(mac, rows, actor, cid, at);
            && read.result.Ok? && read.rows == rows && read.result.value.turns == InOrder(rows.turns[cid])
            && var lineage := SendLineage(read.result.value.turns);
            && lineage == TurnLineage(Tip(read.result.value.turns), 0, Initial)
            && AppendTurn(mac, rows, actor, cid, id, lineage, q, now).result
               == Ok(MakeTurn(mac, cid, id, lineage, q, now))
  {
    assert HistoryOk(mac, cid, rows.turns[cid]);
    ReadLive(mac, rows, actor, cid, at);
    SendLineageIsTip(mac, cid, rows.turns[cid]);
    hide WellFormed, HistoryOk, AppendTurn, UniverseOf, PlainRequest, SendLineage, GetConversationWithTurns, MakeTurn, TurnIdOk;
    FreePlaceAccepted(mac, rows, actor, cid, id, SendLineage(InOrder(rows.turns[cid])), q, now);
  }

  // -- sequential sends ---------------------------------------------------------------

  /** Every turn hangs off the one stored before it. */
  ghost predicate Chain(turns: seq<Turn>)
  {
    UniqueIds(turns) && forall i :: 0 <= i < |turns| ==> Linked(turns, i)
  }

  predicate Linked(turns: seq<Turn>, i: nat)
    requires i < |turns|
  {
    turns[i].lineage.parent == Previous(turns, i)
  }

  function Previous(turns: seq<Turn>, i: nat): Option<Id>
    requires i <= |turns|
  {
    if i == 0 then None else Some(turns[i - 1].id)
  }

  /** A linear history read back from position `i` on. */
  function ChainTree(turns: seq<Turn>, i: nat): seq<Tree>
    requires i <= |turns|
    decreases |turns| - i
  {
    if i == |turns| then [] else [Node(turns[i], ChainTree(turns, i + 1))]
  }

  lemma ChainAt(turns: seq<Turn>, i: nat, j: nat)
    requires Chain(turns) && i <= |turns| && j < |turns|
    ensures turns[j].lineage.parent == Previous(turns, i) <==> j == i
  {
    assert Linked(turns, j);
    if 0 < i < j { assert turns[i - 1].id != turns[j - 1].id; }
    else if 0 < j < i { assert turns[j - 1].id != turns[i - 1].id; }
  }

  lemma ChainKids(turns: seq<Turn>, i: nat)
    requires Chain(turns) && i <= |turns|
    ensures Kids(turns, Previous(turns, i)) == if i == |turns| then [] else [turns[i]]
  {
    var kids := Kids(turns, Previous(turns, i));
    KidsMembers(turns, Previous(turns, i));
    if i < |turns| {
      ChainAt(turns, i, i);
      assert turns[i] in turns && turns[i] in kids;
      if |kids| > 1 { OnlyKid(turns, i, 0); OnlyKid(turns, i, 1); }
    }
    if kids != [] { OnlyKid(turns, i, 0); }
  }

  lemma OnlyKid(turns: seq<Turn>, i: nat, k: nat)
    requires Chain(turns) && i <= |turns| && k < |Kids(turns, Previous(turns, i))|
    ensures i < |turns| && Kids(turns, Previous(turns, i))[k] == turns[i]
  {
    var kids := Kids(turns, Previous(turns, i));
    KidsMembers(turns, Previous(turns, i));
    assert kids[k] in kids;
    var j :| 0 <= j < |turns| && turns[j] == kids[k];
    ChainAt(turns, i, j);
  }

  lemma {:induction false} ChainReads(turns: seq<Turn>, i: nat)
    requires Chain(turns) && i <= |turns|
    ensures Lineage.Complete(turns, ChainTree(turns, i)) && PreOrder(ChainTree(turns, i)) == turns[i..]
    ensures Roots(ChainTree(turns, i)) == Kids(turns, Previous(turns, i))
    decreases |turns| - i
  {
    ChainKids(turns, i);
    if i < |turns| { ChainReads(turns, i + 1); }
  }

  /** A linear history reads back in the order it was appended. */
  lemma ChainInOrder(turns: seq<Turn>)
    requires Chain(turns)
    ensures InOrder(turns) == turns
  {
    ChainReads(turns, 0);
    ForestIsTheOne(turns, ChainTree(turns, 0));
  }

  /** One send: read, append the user turn at the tip, and - unless the stream left
      none - append the assistant turn below it. */
  datatype Send = Send(at: int, userId: Id, user: TurnRequest, userAt: int, reply: Option<SendReply>)
  datatype SendReply = SendReply(id: Id, q: TurnRequest, now: int)

  ghost function SendOnce(mac: Fingerprint, rows: Rows, actor: Actor, cid: Id, s: Send): Rows
  {
    var read := GetConversationWithTurns(mac, rows, actor, cid, s.at);
    if read.result.Err? then read.rows
    else
      var user := AppendTurn(mac, read.rows, actor, cid, s.userId, SendLineage(read.result.value.turns), s.user, s.userAt);
      if user.result.Err? || s.reply.None? then user.rows
      else AppendTurn(mac, user.rows, actor, cid, s.reply.value.id, TurnLineage(Some(s.userId), 0, Initial),
                      s.reply.value.q, s.reply.value.now).rows
  }

  ghost function Sends(mac: Fingerprint, rows: Rows, actor: Actor, cid: Id, sends: seq<Send>): Rows
  {
    if sends == [] then rows
    else SendOnce(mac, Sends(mac, rows, actor, cid, sends[..|sends| - 1]), actor, cid, sends[|sends| - 1])
  }

  lemma ChainGrows(mac: Fingerprint, rows: Rows, actor: Actor, cid: Id, id: Id, lineage: TurnLineage, q: TurnRequest, now: int)
    requires WellFormed(mac, rows) && Chain(TurnsOf(rows, cid)) && lineage.parent == Tip(TurnsOf(rows, cid))
    ensures var reply := AppendTurn(mac, rows, actor, cid, id, lineage, q, now);
            && WellFormed(mac, reply.rows) && Chain(TurnsOf(reply.rows, cid))
            && (if reply.result.Ok? then Tip(TurnsOf(reply.rows, cid)) == Some(id) else reply.rows == rows)
  {
    hide GateVerdict, TurnOk, UniverseOf, WellFormed, Chain;
    var reply := AppendTurn(mac, rows, actor, cid, id, lineage, q, now);
    AppendKeeps(mac, rows, actor, cid, id, lineage, q, now);
    if reply.result.Ok? {
      AppendFacts(mac, rows, actor, cid, id, lineage, q, now);
      hide AppendTurn;
      AppendedInPlace(mac, rows, actor, cid, reply.result.value);
      StoredKey(mac, rows, cid);
      ChainWith(TurnsOf(rows, cid), reply.result.value);
    }
  }

  lemma ChainWith(turns: seq<Turn>, turn: Turn)
    requires Chain(turns) && turn.lineage.parent == Tip(turns) && UniqueIds(turns + [turn])
    ensures Chain(turns + [turn])
  {
    forall i | 0 <= i < |turns + [turn]| ensures Linked(turns + [turn], i) {
      if i < |turns| { assert Linked(turns, i); }
    }
  }

  lemma SendKeepsChain(mac: Fingerprint, rows: Rows, actor: Actor, cid: Id, s: Send)
    requires WellFormed(mac, rows) && Chain(TurnsOf(rows, cid))
    requires cid in rows.conversations ==> rows.conversations[cid].status != DeletionPending
    ensures var after := SendOnce(mac, rows, actor, cid, s);
            && WellFormed(mac, after) && Chain(TurnsOf(after, cid))
            && (cid in after.conversations ==> after.conversations[cid].status != DeletionPending)
  {
    if Owns(rows, actor, cid) {
      ReadLive(mac, rows, actor, cid, s.at);
      ChainInOrder(TurnsOf(rows, cid));
      hide WellFormed, Chain, GetConversationWithTurns, AppendTurn;
      SendBoth(mac, rows, actor, cid, s);
    } else {
      hide WellFormed, Chain;
    }
  }

  lemma SendBoth(mac: Fingerprint, rows: Rows, actor: Actor, cid: Id, s: Send)
    requires WellFormed(mac, rows) && Chain(TurnsOf(rows, cid)) && Owns(rows, actor, cid)
    requires rows.conversations[cid].status != DeletionPending
    requires GetConversationWithTurns(mac, rows, actor, cid, s.at)
             == Reply(rows, Ok(OrderedHistory(rows.conversations[cid], TurnsOf(rows, cid))), [])
    ensures var after := SendOnce(mac, rows, actor, cid, s);
            && WellFormed(mac, after) && Chain(TurnsOf(after, cid))
            && (cid in after.conversations ==> after.conversations[cid].status != DeletionPending)
  {
    hide WellFormed, Chain, GetConversationWithTurns, AppendTurn, NextSibling;
    var lineage := SendLineage(TurnsOf(rows, cid));
    var user := AppendTurn(mac, rows, actor, cid, s.userId, lineage, s.user, s.userAt);
    ChainGrows(mac, rows, actor, cid, s.userId, lineage, s.user, s.userAt);
    StatusKept(mac, rows, actor, cid, s.userId, lineage, s.user, s.userAt);
    if user.result.Ok? && s.reply.Some? {
      var q := s.reply.value;
      ChainGrows(mac, user.rows, actor, cid, q.id, TurnLineage(Some(s.userId), 0, Initial), q.q, q.now);
      StatusKept(mac, user.rows, actor, cid, q.id, TurnLineage(Some(s.userId), 0, Initial), q.q, q.now);
    }
  }

  lemma StatusKept(mac: Fingerprint, rows: Rows, actor: Actor, cid: Id, id: Id, lineage: TurnLineage, q: TurnRequest, now: int)
    requires cid in rows.conversations ==> rows.conversations[cid].status != DeletionPending
    ensures var after := AppendTurn(mac, rows, actor, cid, id, lineage, q, now).rows;
            cid in after.conversations ==> after.conversations[cid].status != DeletionPending
  {
    hide TurnOk, GateVerdict, UniverseOf;
  }

  /** A conversation built only by sends, one after another, reads back in append order. */
  lemma {:induction false} SequentialSendsReadInOrder(mac: Fingerprint, rows: Rows, actor: Actor, cid: Id, sends: seq<Send>)
    requires WellFormed(mac, rows) && TurnsOf(rows, cid) == []
    requires cid in rows.conversations ==> rows.conversations[cid].status != DeletionPending
    ensures var after := Sends(mac, rows, actor, cid, sends);
            && WellFormed(mac, after) && Chain(TurnsOf(after, cid)) && InOrder(TurnsOf(after, cid)) == TurnsOf(after, cid)
            && (cid in after.conversations ==> after.conversations[cid].status != DeletionPending)
  {
    if sends != [] {
      var front := sends[..|sends| - 1];
      SequentialSendsReadInOrder(mac, rows, actor, cid, front);
      hide WellFormed, SendOnce, Chain;
      SendKeepsChain(mac, Sends(mac, rows, actor, cid, front), actor, cid, sends[|sends| - 1]);
    } else {
      hide WellFormed;
    }
    ChainInOrder(TurnsOf(Sends(mac, rows, actor, cid, sends), cid));
  }
}
