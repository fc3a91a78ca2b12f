/** What one pass over all conversations does: retention enforcement, and the
    completion of pending deletions when a store is reopened. */
module Sweeps {
  import opened Outcomes
  import opened ConversationModels
  import opened Sequences
  import opened ConversationRows
  import opened StoreInvariants

  /** The deletion a due record is put under before it is purged. */
  function PendingOf(c: Conversation, moment: Option<int>): Conversation
  {
    if c.status != DeletionPending && moment.Some? then PendingForm(c, PurgeContentKeepTombstone, moment.value) else c
  }

  predicate SameAt(a: Rows, b: Rows, cid: Id)
  {
    && (cid in a.conversations <==> cid in b.conversations)
    && (cid in a.conversations ==> a.conversations[cid] == b.conversations[cid])
    && (cid in a.turns <==> cid in b.turns)
    && (cid in a.turns ==> a.turns[cid] == b.turns[cid])
  }

  /** Conversation `cid` is deleted from `a` to `b`: every row of it is gone, or a
      tombstone of the record and of every turn is left. */
  predicate DeletedAt(a: Rows, b: Rows, pending: Conversation, at: int)
  {
    var cid := pending.id;
    if Erases(pending) then cid !in b.conversations && cid !in b.turns
    else
      && cid in b.conversations && b.conversations[cid] == DeletedForm(pending, at)
      && cid in a.turns && cid in b.turns && b.turns[cid] == Tombstones(a.turns[cid], at)
  }

  /** What a pass leaves of one conversation depends on that conversation alone. */
  predicate SweptAt(a: Rows, b: Rows, cid: Id, moment: Option<int>, at: int)
  {
    if cid in a.conversations && Due(a.conversations[cid], moment)
    then DeletedAt(a, b, PendingOf(a.conversations[cid], moment), at)
    else SameAt(a, b, cid)
  }

  /** `order` with the keys that are no longer present left out. */
  function Restrict(order: seq<Id>, keys: set<Id>): seq<Id>
  {
    if order == [] then []
    else if order[0] in keys then [order[0]] + Restrict(order[1..], keys)
    else Restrict(order[1..], keys)
  }

  lemma {:induction false} RestrictAll(order: seq<Id>, keys: set<Id>)
    requires forall c | c in order :: c in keys
    ensures Restrict(order, keys) == order
  {
    if order != [] { RestrictAll(order[1..], keys); }
  }

  lemma {:induction false} WithoutIsRestrict(order: seq<Id>, cid: Id, keys: set<Id>)
    requires forall c | c in order :: c in keys <==> c != cid
    ensures Without(order, cid) == Restrict(order, keys)
  {
    if order != [] { WithoutIsRestrict(order[1..], cid, keys); }
  }

  lemma {:induction false} RestrictTwice(order: seq<Id>, first: set<Id>, second: set<Id>)
    requires second <= first
    ensures Restrict(Restrict(order, first), second) == Restrict(order, second)
  {
    if order != [] {
      RestrictTwice(order[1..], first, second);
      if order[0] in first { assert Restrict(order, first)[1..] == Restrict(order[1..], first); }
    }
  }

  /** Row sets that a sweep may start from. */
  ghost predicate Sweepable(rows: Rows)
  {
    && DictOk(rows)
    && forall cid | cid in rows.conversations ::
         && cid in rows.turns && rows.conversations[cid].id == cid
         && (rows.conversations[cid].status == DeletionPending ==> rows.conversations[cid].deletion.Some?)
  }

  lemma WellFormedSweepable(mac: Fingerprint, rows: Rows)
    requires WellFormed(mac, rows)
    ensures Sweepable(rows)
  { }

  lemma CompletedRows(rows: Rows, pending: Conversation, at: int)
    requires pending.id in rows.turns
    ensures var after := CompleteDeletion(rows, pending, at).rows;
            && DeletedAt(rows, after, pending, at)
            && (forall other | other != pending.id :: SameAt(rows, after, other))
  { }

  lemma CompletedOrder(rows: Rows, pending: Conversation, at: int)
    requires DictOk(rows) && pending.id in rows.conversations && pending.id in rows.turns
    ensures var after := CompleteDeletion(rows, pending, at).rows;
            && DictOk(after)
            && after.order == Restrict(rows.order, after.conversations.Keys)
            && after.conversations.Keys <= rows.conversations.Keys
  {
    var after := CompleteDeletion(rows, pending, at).rows;
    if Erases(pending) {
      WithoutMembers(rows.order, pending.id);
      WithoutIsRestrict(rows.order, pending.id, after.conversations.Keys);
    } else {
      RestrictAll(rows.order, after.conversations.Keys);
    }
  }

  /** A due record is first marked as pending, then its deletion is completed. */
  function Marked(rows: Rows, record: Conversation, moment: Option<int>): Rows
  {
    if record.status == DeletionPending then rows else PutConversation(rows, PendingOf(record, moment))
  }

  lemma DueStep(rows: Rows, record: Conversation, moment: Option<int>, at: int)
    ensures EnforceOne(rows, record, moment, at).rows ==
            if Due(record, moment) then CompleteDeletion(Marked(rows, record, moment), PendingOf(record, moment), at).rows
            else rows
  {
    hide CompleteDeletion, PutConversation;
  }

  lemma OneStep(rows: Rows, cid: Id, moment: Option<int>, at: int)
    requires Sweepable(rows) && cid in rows.conversations
    ensures var after := EnforceOne(rows, rows.conversations[cid], moment, at).rows;
            && SweptAt(rows, after, cid, moment, at)
            && (forall other | other != cid :: SameAt(rows, after, other))
            && Sweepable(after)
            && after.order == Restrict(rows.order, after.conversations.Keys)
            && after.conversations.Keys <= rows.conversations.Keys
  {
    hide CompleteDeletion, EnforceOne, Restrict, DeletedForm, Tombstones;
    var record := rows.conversations[cid];
    var after := EnforceOne(rows, record, moment, at).rows;
    DueStep(rows, record, moment, at);
    if Due(record, moment) {
      var marked, pending := Marked(rows, record, moment), PendingOf(record, moment);
      CompletedRows(marked, pending, at);
      CompletedOrder(marked, pending, at);
      MarkedElsewhere(rows, marked, after, pending, at);
      StillSweepable(rows, after, pending, at);
    } else {
      RestrictAll(rows.order, after.conversations.Keys);
    }
  }

  lemma MarkedElsewhere(rows: Rows, marked: Rows, after: Rows, pending: Conversation, at: int)
    requires marked == rows || marked == PutConversation(rows, pending)
    requires pending.id in rows.conversations
    requires DeletedAt(marked, after, pending, at)
    requires forall other | other != pending.id :: SameAt(marked, after, other)
    ensures DeletedAt(rows, after, pending, at)
    ensures forall other | other != pending.id :: SameAt(rows, after, other)
    ensures marked.order == rows.order && marked.conversations.Keys == rows.conversations.Keys
  {
    hide DeletedForm, Tombstones;
    forall other | other != pending.id ensures SameAt(rows, after, other) {
      assert SameAt(marked, after, other);
    }
  }

  lemma StillSweepable(rows: Rows, after: Rows, pending: Conversation, at: int)
    requires Sweepable(rows) && DictOk(after) && pending.id in rows.conversations
    requires DeletedAt(rows, after, pending, at)
    requires forall other | other != pending.id :: SameAt(rows, after, other)
    ensures Sweepable(after)
  {
    forall c | c in after.conversations && c != pending.id
      ensures c in after.turns && after.conversations[c].id == c
      ensures after.conversations[c].status == DeletionPending ==> after.conversations[c].deletion.Some?
    {
      assert SameAt(rows, after, c);
    }
  }

  lemma {:induction false} RecordsElsewhere(order: seq<Id>, a: Rows, b: Rows, cid: Id)
    requires cid !in order && forall other | other != cid :: SameAt(a, b, other)
    ensures RecordsOf(order, a.conversations) == RecordsOf(order, b.conversations)
  {
    if order != [] {
      RecordsElsewhere(order[1..], a, b, cid);
      assert SameAt(a, b, order[0]);
    }
  }

  /** The audits a pass over `order` returns: one for each due conversation, in order. */
  function SweepAudits(rows: Rows, order: seq<Id>, moment: Option<int>, at: int): seq<ConversationAudit>
  {
    if order == [] then []
    else
      var rest := SweepAudits(rows, order[1..], moment, at);
      if order[0] in rows.conversations && Due(rows.conversations[order[0]], moment)
      then [SweepAudit(rows, rows.conversations[order[0]], moment, at)] + rest
      else rest
  }

  function SweepAudit(rows: Rows, c: Conversation, moment: Option<int>, at: int): ConversationAudit
  {
    AuditConversation(DeletedForm(PendingOf(c, moment), at), Tombstones(TurnsOf(rows, c.id), at))
  }

  lemma {:induction false} AuditsElsewhere(order: seq<Id>, a: Rows, b: Rows, cid: Id, moment: Option<int>, at: int)
    requires Sweepable(a)
    requires cid !in order && forall other | other != cid :: SameAt(a, b, other)
    ensures SweepAudits(a, order, moment, at) == SweepAudits(b, order, moment, at)
  {
    if order != [] {
      AuditsElsewhere(order[1..], a, b, cid, moment, at);
      assert SameAt(a, b, order[0]);
    }
  }

  /** The conversations named by `order` are swept and all others are as they were. */
  ghost predicate TreatsEach(rows: Rows, after: Rows, order: seq<Id>, moment: Option<int>, at: int)
  {
    forall c :: if c in order then SweptAt(rows, after, c, moment, at) else SameAt(rows, after, c)
  }

  /** A pass over the conversations named by `order` treats each on its own. */
  lemma {:induction false} SweepPointwise(rows: Rows, order: seq<Id>, moment: Option<int>, at: int)
    requires Sweepable(rows) && NoRepeats(order) && forall c | c in order :: c in rows.conversations
    ensures var sweep := EnforceOver(rows, RecordsOf(order, rows.conversations), moment, at);
            && TreatsEach(rows, sweep.rows, order, moment, at)
            && sweep.rows.order == Restrict(rows.order, sweep.rows.conversations.Keys)
            && sweep.rows.conversations.Keys <= rows.conversations.Keys
            && sweep.enforced == SweepAudits(rows, order, moment, at)
            && Sweepable(sweep.rows)
    decreases |order|
  {
    if order == [] {
      RestrictAll(rows.order, rows.conversations.Keys);
    } else {
      hide TreatsEach, EnforceOne, SweptAt, SameAt, Sweepable, Restrict, EnforceOver, SweepAudits, RecordsOf, NoRepeats;
      var cid, later := order[0], order[1..];
      FirstIsOther(order);
      var first := EnforceOne(rows, rows.conversations[cid], moment, at);
      OneStep(rows, cid, moment, at);
      FirstOfSweep(rows, order, moment, at);
      LaterStay(rows, first.rows, cid, later);
      SweepPointwise(first.rows, later, moment, at);
      var rest := EnforceOver(first.rows, RecordsOf(later, first.rows.conversations), moment, at);
      Pointwise(rows, first.rows, rest.rows, order, moment, at);
      RestrictTwice(rows.order, first.rows.conversations.Keys, rest.rows.conversations.Keys);
    }
  }

  lemma FirstIsOther(order: seq<Id>)
    requires NoRepeats(order) && order != []
    ensures order[0] !in order[1..] && NoRepeats(order[1..]) && forall c | c in order[1..] :: c in order
  { }

  lemma LaterStay(a: Rows, b: Rows, cid: Id, later: seq<Id>)
    requires cid !in later && (forall other | other != cid :: SameAt(a, b, other))
    requires forall c | c in later :: c in a.conversations
    ensures forall c | c in later :: c in b.conversations
  {
    forall c | c in later ensures c in b.conversations { assert SameAt(a, b, c); }
  }

  lemma FirstOfSweep(rows: Rows, order: seq<Id>, moment: Option<int>, at: int)
    requires Sweepable(rows) && order != [] && order[0] in rows.conversations && order[0] !in order[1..]
    requires forall other | other != order[0] ::
               SameAt(rows, EnforceOne(rows, rows.conversations[order[0]], moment, at).rows, other)
    ensures var first := EnforceOne(rows, rows.conversations[order[0]], moment, at);
            var rest := EnforceOver(first.rows, RecordsOf(order[1..], first.rows.conversations), moment, at);
            var all := EnforceOver(rows, RecordsOf(order, rows.conversations), moment, at);
            && all.rows == rest.rows
            && (rest.enforced == SweepAudits(first.rows, order[1..], moment, at)
                ==> all.enforced == SweepAudits(rows, order, moment, at))
  {
    var first := EnforceOne(rows, rows.conversations[order[0]], moment, at);
    RecordsElsewhere(order[1..], rows, first.rows, order[0]);
    AuditsElsewhere(order[1..], rows, first.rows, order[0], moment, at);
    FirstAudit(rows, rows.conversations[order[0]], moment, at);
    hide EnforceOne, SweepAudit, SameAt, Due;
    assert RecordsOf(order, rows.conversations)[1..] == RecordsOf(order[1..], rows.conversations);
  }

  lemma Pointwise(rows: Rows, mid: Rows, after: Rows, order: seq<Id>, moment: Option<int>, at: int)
    requires Sweepable(rows)
    requires order != [] && SweptAt(rows, mid, order[0], moment, at) && order[0] !in order[1..]
    requires forall other | other != order[0] :: SameAt(rows, mid, other)
    requires TreatsEach(mid, after, order[1..], moment, at)
    ensures TreatsEach(rows, after, order, moment, at)
  {
    hide DeletedForm, Tombstones, Due, DictOk;
    forall c ensures if c in order then SweptAt(rows, after, c, moment, at) else SameAt(rows, after, c) {
      assert order == [order[0]] + order[1..];
      if c == order[0] {
        assert SameAt(mid, after, c);
      } else {
        assert SameAt(rows, mid, c);
        if c in order { assert SweptAt(mid, after, c, moment, at); }
        else { assert SameAt(mid, after, c); }
      }
    }
  }

  lemma FirstAudit(rows: Rows, record: Conversation, moment: Option<int>, at: int)
    requires record.id in rows.turns
    ensures var result := EnforceOne(rows, record, moment, at).result;
            && result.Ok?
            && result.value == if Due(record, moment)
                 then Some(SweepAudit(rows, record, moment, at))
                 else None
  { }

  /** The pass over a whole row set. */
  lemma SweepOfAll(rows: Rows, moment: Option<int>, at: int)
    requires Sweepable(rows)
    ensures var sweep := EnforceOver(rows, Records(rows), moment, at);
            && (forall c :: SweptAt(rows, sweep.rows, c, moment, at))
            && sweep.rows.order == Restrict(rows.order, sweep.rows.conversations.Keys)
            && sweep.rows.conversations.Keys <= rows.conversations.Keys
            && sweep.enforced == SweepAudits(rows, rows.order, moment, at)
            && Sweepable(sweep.rows)
  {
    SweepPointwise(rows, rows.order, moment, at);
    var after := EnforceOver(rows, Records(rows), moment, at).rows;
    forall c ensures SweptAt(rows, after, c, moment, at) {
      if c !in rows.order { assert SameAt(rows, after, c); }
    }
  }

  // -- retention: the preview is the pass --------------------------------------

  lemma TombstoneCounts(turns: seq<Turn>, at: int, cid: Id)
    requires forall t | t in turns :: t.conversationId == cid
    ensures Own(Tombstones(turns, at), cid) == Tombstones(turns, at) && Own(turns, cid) == turns
    ensures CountWith(Tombstones(turns, at), Complete) == CountWith(turns, Complete)
  {
    hide CountWith, Own;
    var tombs := Tombstones(turns, at);
    OwnOfOne(turns, cid, cid);
    forall t | t in tombs ensures t.conversationId == cid {
      var i :| 0 <= i < |tombs| && tombs[i] == t;
      assert turns[i] in turns;
    }
    OwnOfOne(tombs, cid, cid);
    TombstonesComplete(turns, at);
  }

  lemma {:induction false} TombstonesComplete(turns: seq<Turn>, at: int)
    ensures CountWith(Tombstones(turns, at), Complete) == CountWith(turns, Complete)
  {
    if turns != [] {
      TombstonesComplete(turns[1..], at);
      assert Tombstones(turns, at)[1..] == Tombstones(turns[1..], at);
    }
  }

  predicate SameScope(p: RetentionPreview, a: ConversationAudit)
  {
    p.conversationId == a.conversationId && p.turnCount == a.turnCount && p.committedCount == a.committedCount
  }

  lemma PreviewRowIsAudit(rows: Rows, c: Conversation, moment: Option<int>, at: int)
    requires forall t | t in TurnsOf(rows, c.id) :: t.conversationId == c.id
    ensures SameScope(PreviewRow(c, TurnsOf(rows, c.id)), SweepAudit(rows, c, moment, at))
  {
    TombstoneCounts(TurnsOf(rows, c.id), at, c.id);
    hide Tombstones, Own, CountWith;
  }

  lemma PreviewUnfolds(rows: Rows, order: seq<Id>, moment: Option<int>, at: int)
    requires order != [] && order[0] in rows.conversations && rows.conversations[order[0]].id == order[0]
    ensures var c, due := rows.conversations[order[0]], Due(rows.conversations[order[0]], moment);
            && PreviewOver(rows, RecordsOf(order, rows.conversations), moment)
               == (if due then [PreviewRow(c, TurnsOf(rows, c.id))] else [])
                  + PreviewOver(rows, RecordsOf(order[1..], rows.conversations), moment)
            && SweepAudits(rows, order, moment, at)
               == (if due then [SweepAudit(rows, c, moment, at)] else []) + SweepAudits(rows, order[1..], moment, at)
  {
    hide Due, SweepAudit, PreviewRow, TurnsOf;
    var c := rows.conversations[order[0]];
    assert RecordsOf(order, rows.conversations) == [c] + RecordsOf(order[1..], rows.conversations);
  }

  lemma {:induction false} PreviewAlong(rows: Rows, order: seq<Id>, moment: Option<int>, at: int)
    requires forall c | c in order :: c in rows.conversations && rows.conversations[c].id == c
    requires forall c | c in order :: forall t | t in TurnsOf(rows, c) :: t.conversationId == c
    ensures var previews := PreviewOver(rows, RecordsOf(order, rows.conversations), moment);
            var audits := SweepAudits(rows, order, moment, at);
            && |previews| == |audits|
            && forall i :: 0 <= i < |audits| ==> SameScope(previews[i], audits[i])
  {
    if order != [] {
      hide Due, SweepAudit, PreviewRow, TurnsOf, SameScope, PreviewOver, SweepAudits, RecordsOf;
      var c := order[0];
      assert c in order && forall d | d in order[1..] :: d in order;
      PreviewAlong(rows, order[1..], moment, at);
      PreviewUnfolds(rows, order, moment, at);
      PreviewRowIsAudit(rows, rows.conversations[c], moment, at);
      if Due(rows.conversations[c], moment) {
        ScopesJoin(PreviewRow(rows.conversations[c], TurnsOf(rows, c)), SweepAudit(rows, rows.conversations[c], moment, at),
                   PreviewOver(rows, RecordsOf(order[1..], rows.conversations), moment), SweepAudits(rows, order[1..], moment, at));
      } else {
        assert PreviewOver(rows, RecordsOf(order, rows.conversations), moment)
            == PreviewOver(rows, RecordsOf(order[1..], rows.conversations), moment);
      }
    }
  }

  lemma ScopesJoin(p: RetentionPreview, a: ConversationAudit, previews: seq<RetentionPreview>, audits: seq<ConversationAudit>)
    requires SameScope(p, a) && |previews| == |audits| && forall i :: 0 <= i < |audits| ==> SameScope(previews[i], audits[i])
    ensures forall i :: 0 <= i < |audits| + 1 ==> SameScope(([p] + previews)[i], ([a] + audits)[i])
  {
    hide SameScope;
  }

  /** A retention preview lists exactly the conversations the pass at the same instant
      then acts on, in the same order and with the same turn and committed counts. */
  lemma PreviewIsThePass(mac: Fingerprint, rows: Rows, moment: int, at: int)
    requires WellFormed(mac, rows)
    ensures var previews, enforced := PreviewRetention(rows, moment), EnforceRetention(rows, moment, at).enforced;
            && |previews| == |enforced|
            && forall i :: 0 <= i < |enforced| ==> SameScope(previews[i], enforced[i])
  {
    WellFormedSweepable(mac, rows);
    SweepOfAll(rows, Some(moment), at);
    forall c | c in rows.order ensures forall t | t in TurnsOf(rows, c) :: t.conversationId == c {
      assert HistoryOk(mac, c, rows.turns[c]);
    }
    PreviewAlong(rows, rows.order, Some(moment), at);
  }

  lemma {:induction false} NothingDue(rows: Rows, order: seq<Id>, moment: Option<int>, at: int)
    requires forall c | c in order :: c in rows.conversations ==> !Due(rows.conversations[c], moment)
    ensures SweepAudits(rows, order, moment, at) == []
  {
    if order != [] { NothingDue(rows, order[1..], moment, at); }
  }

  lemma SameEverywhere(a: Rows, b: Rows)
    requires a.order == b.order && forall c :: SameAt(a, b, c)
    ensures a == b
  {
    forall c ensures (c in a.conversations <==> c in b.conversations) && (c in a.turns <==> c in b.turns) {
      assert SameAt(a, b, c);
    }
    assert a.conversations.Keys == b.conversations.Keys && a.turns.Keys == b.turns.Keys;
    forall c | c in a.conversations ensures a.conversations[c] == b.conversations[c] { assert SameAt(a, b, c); }
    forall c | c in a.turns ensures a.turns[c] == b.turns[c] { assert SameAt(a, b, c); }
  }

  /** A pass with nothing due changes no row and returns nothing. */
  lemma IdleSweep(rows: Rows, moment: Option<int>, at: int)
    requires Sweepable(rows) && forall c | c in rows.conversations :: !Due(rows.conversations[c], moment)
    ensures var sweep := EnforceOver(rows, Records(rows), moment, at); sweep.rows == rows && sweep.enforced == []
  {
    SweepOfAll(rows, moment, at);
    var after := EnforceOver(rows, Records(rows), moment, at).rows;
    hide Due;
    NothingDue(rows, rows.order, moment, at);
    forall c ensures SameAt(rows, after, c) { assert SweptAt(rows, after, c, moment, at); }
    forall c | c in rows.order ensures c in after.conversations { assert SameAt(rows, after, c); }
    RestrictAll(rows.order, after.conversations.Keys);
    SameEverywhere(rows, after);
  }

  /** A second pass at the same instant finds nothing and changes nothing. */
  lemma SecondPassIsIdle(mac: Fingerprint, rows: Rows, moment: int, at: int, later: int)
    requires WellFormed(mac, rows)
    ensures var first := EnforceRetention(rows, moment, at).rows;
            EnforceRetention(first, moment, later).enforced == [] && EnforceRetention(first, moment, later).rows == first
  {
    WellFormedSweepable(mac, rows);
    SweepOfAll(rows, Some(moment), at);
    var first := EnforceRetention(rows, moment, at).rows;
    hide WellFormed, EnforceOver, SweptAt, Due, Sweepable;
    forall c | c in first.conversations ensures !Due(first.conversations[c], Some(moment)) {
      NotDueAgain(rows, first, c, Some(moment), at);
    }
    IdleSweep(first, Some(moment), later);
  }

  lemma NotDueAgain(rows: Rows, after: Rows, cid: Id, moment: Option<int>, at: int)
    requires Sweepable(rows) && SweptAt(rows, after, cid, moment, at) && cid in after.conversations
    ensures !Due(after.conversations[cid], moment)
  { }
}
