/** A deletion as the sequence of single row writes it performs, and what a crash
    between two of those writes leaves for a later pass to finish. */
module DeletionRecovery {
  import opened Outcomes
  import opened ConversationModels
  import opened Lineage
  import opened ConversationRows
  import opened StoreInvariants
  import opened Sequences
  import opened Sweeps

  datatype RowWrite =
    | WriteConversation(record: Conversation)
    | WriteTurn(cid: Id, index: nat, turn: Turn)
    | EraseConversation(cid: Id)
    | EraseTurns(cid: Id)

  function ApplyWrite(rows: Rows, w: RowWrite): Rows
  {
    match w
    case WriteConversation(record) => PutConversation(rows, record)
    case WriteTurn(cid, index, turn) =>
      if cid in rows.turns && index < |rows.turns[cid]| then PutTurns(rows, cid, rows.turns[cid][index := turn]) else rows
    case EraseConversation(cid) => PopConversation(rows, cid)
    case EraseTurns(cid) => PopTurns(rows, cid)
  }

  function ApplyWrites(rows: Rows, writes: seq<RowWrite>): Rows
  {
    if writes == [] then rows else ApplyWrite(ApplyWrites(rows, writes[..|writes| - 1]), writes[|writes| - 1])
  }

  /** One write for every turn among the first `n` that still has content. */
  function TombstoneWrites(cid: Id, turns: seq<Turn>, n: nat, at: int): seq<RowWrite>
    requires n <= |turns|
  {
    if n == 0 then []
    else if turns[n - 1].purged then TombstoneWrites(cid, turns, n - 1, at)
    else TombstoneWrites(cid, turns, n - 1, at) + [WriteTurn(cid, n - 1, Tombstone(turns[n - 1], at))]
  }

  function LastWrites(pending: Conversation, at: int): seq<RowWrite>
  {
    if Erases(pending) then [EraseConversation(pending.id), EraseTurns(pending.id)]
    else [WriteConversation(DeletedForm(pending, at))]
  }

  function CompletionWrites(rows: Rows, pending: Conversation, at: int): seq<RowWrite>
  {
    TombstoneWrites(pending.id, TurnsOf(rows, pending.id), |TurnsOf(rows, pending.id)|, at) + LastWrites(pending, at)
  }

  /** A deletion: persist the pending record, then complete it. */
  function DeletionWrites(rows: Rows, pending: Conversation, at: int): seq<RowWrite>
  {
    [WriteConversation(pending)] + CompletionWrites(PutConversation(rows, pending), pending, at)
  }

  /** The first `n` turns as tombstones, the others as stored. */
  function PartlyPurged(turns: seq<Turn>, n: nat, at: int): seq<Turn>
  {
    seq(|turns|, i requires 0 <= i < |turns| => if i < n then Tombstone(turns[i], at) else turns[i])
  }

  // -- the writes are the deletion -----------------------------------------

  lemma {:induction false} ApplyAppend(rows: Rows, a: seq<RowWrite>, b: seq<RowWrite>)
    ensures ApplyWrites(rows, a + b) == ApplyWrites(ApplyWrites(rows, a), b)
  {
    if b == [] {
      assert a + b == a;
    } else {
      hide ApplyWrites, ApplyWrite;
      var front, last := b[..|b| - 1], b[|b| - 1];
      SplitLast(a, b);
      ApplyAppend(rows, a, front);
      ApplyLast(rows, a + front, last);
      ApplyLast(ApplyWrites(rows, a), front, last);
    }
  }

  lemma PartlyNext(turns: seq<Turn>, n: nat, at: int)
    requires n < |turns|
    ensures PartlyPurged(turns, n + 1, at) == PartlyPurged(turns, n, at)[n := Tombstone(turns[n], at)]
    ensures turns[n].purged ==> PartlyPurged(turns, n + 1, at) == PartlyPurged(turns, n, at)
    ensures |PartlyPurged(turns, n, at)| == |turns|
  { }

  lemma ApplyLast(rows: Rows, writes: seq<RowWrite>, w: RowWrite)
    ensures ApplyWrites(rows, writes + [w]) == ApplyWrite(ApplyWrites(rows, writes), w)
  {
    assert (writes + [w])[..|writes + [w]| - 1] == writes;
  }

  lemma {:induction false} AfterTombstoneWrites(rows: Rows, cid: Id, n: nat, at: int)
    requires cid in rows.turns && n <= |rows.turns[cid]|
    ensures ApplyWrites(rows, TombstoneWrites(cid, rows.turns[cid], n, at))
         == PutTurns(rows, cid, PartlyPurged(rows.turns[cid], n, at))
  {
    var turns := rows.turns[cid];
    hide PartlyPurged, Tombstone, ApplyWrites, ApplyWrite, PutTurns;
    if n == 0 {
      NonePurged(rows, cid, at);
    } else {
      var before := TombstoneWrites(cid, turns, n - 1, at);
      AfterTombstoneWrites(rows, cid, n - 1, at);
      PartlyNext(turns, n - 1, at);
      if !turns[n - 1].purged {
        var w := WriteTurn(cid, n - 1, Tombstone(turns[n - 1], at));
        assert TombstoneWrites(cid, turns, n, at) == before + [w];
        hide TombstoneWrites;
        ApplyLast(rows, before, w);
        WriteOne(rows, cid, PartlyPurged(turns, n - 1, at), n - 1, w.turn);
      }
    }
  }

  lemma WriteOne(rows: Rows, cid: Id, now: seq<Turn>, i: nat, turn: Turn)
    requires i < |now|
    ensures ApplyWrite(PutTurns(rows, cid, now), WriteTurn(cid, i, turn)) == PutTurns(rows, cid, now[i := turn])
  { }

  lemma NonePurged(rows: Rows, cid: Id, at: int)
    requires cid in rows.turns
    ensures ApplyWrites(rows, []) == PutTurns(rows, cid, PartlyPurged(rows.turns[cid], 0, at))
  {
    assert PartlyPurged(rows.turns[cid], 0, at) == rows.turns[cid];
  }

  lemma AllPurgedPart(turns: seq<Turn>, at: int)
    ensures PartlyPurged(turns, |turns|, at) == Tombstones(turns, at)
  { }

  /** Performing all the writes is the deletion. */
  lemma CompletionIsItsWrites(rows: Rows, pending: Conversation, at: int)
    requires pending.id in rows.turns
    ensures ApplyWrites(rows, CompletionWrites(rows, pending, at)) == CompleteDeletion(rows, pending, at).rows
  {
    hide TombstoneWrites, Tombstones, PartlyPurged, Without, DeletedForm, ApplyWrites, AuditConversation, PurgeEvents;
    var cid := pending.id;
    var turns := rows.turns[cid];
    var writes, last := TombstoneWrites(cid, turns, |turns|, at), LastWrites(pending, at);
    AfterTombstoneWrites(rows, cid, |turns|, at);
    AllPurgedPart(turns, at);
    ApplyAppend(rows, writes, last);
    var purged := ApplyWrites(rows, writes);
    if Erases(pending) {
      assert last == [EraseConversation(cid)] + [EraseTurns(cid)];
      ApplyAppend(purged, [EraseConversation(cid)], [EraseTurns(cid)]);
      ApplyOne(purged, EraseConversation(cid));
      ApplyOne(PopConversation(purged, cid), EraseTurns(cid));
    } else {
      ApplyOne(purged, WriteConversation(DeletedForm(pending, at)));
    }
  }

  lemma ApplyOne(rows: Rows, w: RowWrite)
    ensures ApplyWrites(rows, [w]) == ApplyWrite(rows, w)
  {
    assert [w][..0] == [];
  }

  // -- where a crash can leave the rows -------------------------------------

  /** Rows part-way through completing `pending`: some turns are tombstones; the
      record is still pending, or already deleted, or erased. */
  ghost predicate CutShort(rows: Rows, pending: Conversation, at: int, cut: Rows)
  {
    || (exists n :: 0 <= n <= |TurnsOf(rows, pending.id)|
          && cut == PutTurns(rows, pending.id, PartlyPurged(TurnsOf(rows, pending.id), n, at)))
    || (Erases(pending) && cut == PopConversation(PutTurns(rows, pending.id, Tombstones(TurnsOf(rows, pending.id), at)), pending.id))
    || cut == CompleteDeletion(rows, pending, at).rows
  }

  lemma {:induction false} CutTombstones(cid: Id, turns: seq<Turn>, n: nat, at: int, k: nat) returns (m: nat)
    requires n <= |turns| && k <= |TombstoneWrites(cid, turns, n, at)|
    ensures m <= n && TombstoneWrites(cid, turns, n, at)[..k] == TombstoneWrites(cid, turns, m, at)
  {
    var all := TombstoneWrites(cid, turns, n, at);
    if k == |all| {
      m := n;
      assert all[..k] == all;
    } else {
      m := CutTombstones(cid, turns, n - 1, at, k);
      assert all[..k] == TombstoneWrites(cid, turns, n - 1, at)[..k];
    }
  }

  lemma CutCompletion(rows: Rows, pending: Conversation, at: int, k: nat)
    requires pending.id in rows.turns && k <= |CompletionWrites(rows, pending, at)|
    ensures CutShort(rows, pending, at, ApplyWrites(rows, CompletionWrites(rows, pending, at)[..k]))
  {
    var cid := pending.id;
    var turns := rows.turns[cid];
    var writes, last := TombstoneWrites(cid, turns, |turns|, at), LastWrites(pending, at);
    var all := CompletionWrites(rows, pending, at);
    if k <= |writes| {
      var m := CutTombstones(cid, turns, |turns|, at, k);
      assert all[..k] == writes[..k];
      AfterTombstoneWrites(rows, cid, m, at);
    } else if k == |all| {
      assert all[..k] == all;
      CompletionIsItsWrites(rows, pending, at);
    } else {
      assert Erases(pending) && all[..k] == writes + [EraseConversation(cid)];
      AfterTombstoneWrites(rows, cid, |turns|, at);
      AllPurgedPart(turns, at);
      ApplyAppend(rows, writes, [EraseConversation(cid)]);
      ApplyOne(ApplyWrites(rows, writes), EraseConversation(cid));
    }
  }

  // -- what every later pass makes of it --------------------------------------

  function TimelessTurn(t: Turn): Turn
  {
    t.(completedAt := if t.completedAt.Some? then Some(0) else None)
  }

  function TimelessTurns(turns: seq<Turn>): seq<Turn>
  {
    seq(|turns|, i requires 0 <= i < |turns| => TimelessTurn(turns[i]))
  }

  function TimelessConversation(c: Conversation): Conversation
  {
    c.(updatedAt := 0,
       deletion := if c.deletion.None? then None
                   else Some(Deletion(0, c.deletion.value.mode,
                                      if c.deletion.value.completedAt.Some? then Some(0) else None)))
  }

  /** The same rows, timestamps of the deleted conversation and orphaned turn rows aside. */
  predicate SettledAlike(a: Rows, b: Rows, cid: Id)
  {
    && a.order == b.order
    && (cid in a.conversations <==> cid in b.conversations)
    && (cid in a.conversations ==>
          && TimelessConversation(a.conversations[cid]) == TimelessConversation(b.conversations[cid])
          && TimelessTurns(TurnsOf(a, cid)) == TimelessTurns(TurnsOf(b, cid)))
  }

  ghost predicate SettledLike(a: Rows, b: Rows, cid: Id)
  {
    SettledAlike(a, b, cid) && forall other | other != cid :: SameAt(a, b, other)
  }

  /** No title, label or content block of the conversation is left in any row. */
  predicate Scrubbed(rows: Rows, cid: Id)
  {
    && (cid in rows.conversations ==>
          var c := rows.conversations[cid]; c.title.None? && !c.pinned && c.tags == {} && c.folder.None?)
    && forall t | t in TurnsOf(rows, cid) :: t.purged && t.content == []
  }

  /** `now` will purge to the same tombstones as `turns`, or already has. */
  predicate PurgesLike(turns: seq<Turn>, now: seq<Turn>)
  {
    TimelessTurns(Tombstones(now, 0)) == TimelessTurns(Tombstones(turns, 0))
  }

  /** Any state in which only the completion of `pending` is unfinished business. */
  ghost predicate Stage(order: seq<Id>, pending: Conversation, turns: seq<Turn>, at: int, rows: Rows)
  {
    var cid := pending.id;
    && Sweepable(rows) && rows.order == Restrict(order, rows.conversations.Keys)
    && (if cid !in rows.conversations then Erases(pending)
        else
          || rows.conversations[cid] == pending
          || (!Erases(pending) && rows.conversations[cid] == DeletedForm(pending, at) && AllPurged(TurnsOf(rows, cid))))
    && (cid in rows.turns ==> PurgesLike(turns, rows.turns[cid]) && Sound(rows.turns[cid]))
    && (cid !in rows.conversations ==> AllPurged(TurnsOf(rows, cid)))
  }

  /** A tombstone holds no content and is not streaming. */
  predicate Sound(turns: seq<Turn>)
  {
    forall i :: 0 <= i < |turns| ==> turns[i].purged ==> turns[i].content == [] && turns[i].status != Streaming
  }

  lemma TombstoneTimes(turns: seq<Turn>, a: int, b: int)
    ensures TimelessTurns(Tombstones(turns, a)) == TimelessTurns(Tombstones(turns, b))
  { }

  lemma PurgedAreTombstones(turns: seq<Turn>, at: int)
    requires AllPurged(turns)
    ensures Tombstones(turns, at) == turns
  {
    forall i | 0 <= i < |turns| ensures Tombstone(turns[i], at) == turns[i] { assert turns[i] in turns; }
  }

  /** One pass settles the conversation, whatever stage it was left in. */
  lemma StageSettles(order: seq<Id>, pending: Conversation, turns: seq<Turn>, at: int, rows: Rows,
                     moment: Option<int>, later: int)
    requires pending.status == DeletionPending && pending.deletion.Some? && Stage(order, pending, turns, at, rows)
    ensures var cid, after := pending.id, EnforceOver(rows, Records(rows), moment, later).rows;
            && after.order == Restrict(order, after.conversations.Keys)
            && (cid in after.conversations <==> !Erases(pending))
            && (!Erases(pending) ==>
                  && TimelessConversation(after.conversations[cid]) == TimelessConversation(DeletedForm(pending, 0))
                  && TimelessTurns(TurnsOf(after, cid)) == TimelessTurns(Tombstones(turns, 0)))
            && Scrubbed(after, cid)
  {
    var cid, after := pending.id, EnforceOver(rows, Records(rows), moment, later).rows;
    SweepOfAll(rows, moment, later);
    RestrictTwice(order, rows.conversations.Keys, after.conversations.Keys);
    assert SweptAt(rows, after, cid, moment, later);
    hide SweptAt, Stage, Sweepable, EnforceOver, Restrict, DictOk;
    StageSettlesAt(order, pending, turns, at, rows, after, moment, later);
  }

  lemma StageSettlesAt(order: seq<Id>, pending: Conversation, turns: seq<Turn>, at: int, rows: Rows, after: Rows,
                       moment: Option<int>, later: int)
    requires pending.status == DeletionPending && pending.deletion.Some? && Stage(order, pending, turns, at, rows)
    requires SweptAt(rows, after, pending.id, moment, later)
    ensures var cid := pending.id;
            && (cid in after.conversations <==> !Erases(pending))
            && (!Erases(pending) ==>
                  && TimelessConversation(after.conversations[cid]) == TimelessConversation(DeletedForm(pending, 0))
                  && TimelessTurns(TurnsOf(after, cid)) == TimelessTurns(Tombstones(turns, 0)))
            && Scrubbed(after, cid)
  {
    var cid := pending.id;
    if cid in rows.conversations && rows.conversations[cid] == pending {
      assert DeletedAt(rows, after, pending, later);
      var now := rows.turns[cid];
      TombstoneTimes(now, later, 0);
      ScrubbedTombstones(now, later);
    } else {
      assert SameAt(rows, after, cid);
      if cid in rows.turns {
        PurgedAreTombstones(rows.turns[cid], 0);
        ScrubbedTombstones(rows.turns[cid], 0);
      }
    }
  }

  lemma ScrubbedTombstones(turns: seq<Turn>, at: int)
    requires Sound(turns)
    ensures forall t | t in Tombstones(turns, at) :: t.purged && t.content == []
  { }

  // -- every cut is such a stage ------------------------------------------------

  lemma PartlyPurgesLike(turns: seq<Turn>, n: nat, at: int)
    requires Sound(turns)
    ensures PurgesLike(turns, PartlyPurged(turns, n, at)) && Sound(PartlyPurged(turns, n, at))
  { }

  lemma RecoveredPurgesLike(turns: seq<Turn>, now: seq<Turn>, at: int)
    requires PurgesLike(turns, now) && Sound(now)
    ensures PurgesLike(turns, RecoveredTurns(now, at)) && Sound(RecoveredTurns(now, at))
    ensures AllPurged(now) ==> RecoveredTurns(now, at) == now
  {
    var after := RecoveredTurns(now, at);
    assert TimelessTurns(Tombstones(after, 0)) == TimelessTurns(Tombstones(now, 0));
    if AllPurged(now) {
      forall i | 0 <= i < |now| ensures after[i] == now[i] { assert now[i] in now; }
    }
  }

  lemma SoundHistory(mac: Fingerprint, rows: Rows, cid: Id)
    requires WellFormed(mac, rows) && cid in rows.turns
    ensures Sound(rows.turns[cid])
  {
    assert HistoryOk(mac, cid, rows.turns[cid]);
  }

  ghost predicate SameElsewhere(a: Rows, b: Rows, cid: Id)
  {
    forall other | other != cid :: SameAt(a, b, other)
  }

  lemma PurgingStage(marked: Rows, pending: Conversation, at: int, n: nat)
    requires Sweepable(marked) && pending.id in marked.conversations && marked.conversations[pending.id] == pending
    requires Sound(marked.turns[pending.id])
    ensures var cut := PutTurns(marked, pending.id, PartlyPurged(marked.turns[pending.id], n, at));
            Stage(marked.order, pending, marked.turns[pending.id], at, cut) && SameElsewhere(marked, cut, pending.id)
  {
    var turns := marked.turns[pending.id];
    PartlyPurgesLike(turns, n, at);
    PendingStage(marked, pending, turns, at, PartlyPurged(turns, n, at));
  }

  lemma PendingStage(marked: Rows, pending: Conversation, turns: seq<Turn>, at: int, now: seq<Turn>)
    requires Sweepable(marked) && pending.id in marked.conversations && marked.conversations[pending.id] == pending
    requires PurgesLike(turns, now) && Sound(now)
    ensures var cut := PutTurns(marked, pending.id, now);
            Stage(marked.order, pending, turns, at, cut) && SameElsewhere(marked, cut, pending.id)
  {
    RestrictAll(marked.order, marked.conversations.Keys);
    PutTurnsElsewhere(marked, pending.id, now);
    hide PurgesLike, Sound, Restrict, Sweepable, DeletedForm, Erases, AllPurged, SameElsewhere;
  }

  lemma PutTurnsElsewhere(rows: Rows, cid: Id, turns: seq<Turn>)
    requires Sweepable(rows)
    ensures Sweepable(PutTurns(rows, cid, turns)) && SameElsewhere(rows, PutTurns(rows, cid, turns), cid)
  { }

  lemma PurgedStage(marked: Rows, pending: Conversation, at: int)
    requires Sweepable(marked) && pending.id in marked.conversations && marked.conversations[pending.id] == pending
    requires Sound(marked.turns[pending.id]) && Erases(pending)
    ensures var cut := PopConversation(PutTurns(marked, pending.id, Tombstones(marked.turns[pending.id], at)), pending.id);
            Stage(marked.order, pending, marked.turns[pending.id], at, cut) && SameElsewhere(marked, cut, pending.id)
  {
    var cid, turns := pending.id, marked.turns[pending.id];
    var tombs := Tombstones(turns, at);
    hide PurgesLike, Sound, Restrict, Without, PartlyPurged, DeletedForm;
    PartlyPurgesLike(turns, |turns|, at);
    AllPurgedPart(turns, at);
    assert AllPurged(tombs);
    hide Tombstones, AllPurged;
    WithoutMembers(marked.order, cid);
    WithoutIsRestrict(marked.order, cid, marked.conversations.Keys - {cid});
    PopSweepable(marked, cid, tombs);
    hide Sweepable, SameElsewhere;
  }

  lemma PopSweepable(rows: Rows, cid: Id, turns: seq<Turn>)
    requires Sweepable(rows)
    ensures var after := PopConversation(PutTurns(rows, cid, turns), cid);
            Sweepable(after) && SameElsewhere(rows, after, cid)
  {
    WithoutMembers(rows.order, cid);
    hide Without;
  }

  lemma FinishedStage(marked: Rows, pending: Conversation, at: int)
    requires Sweepable(marked) && pending.id in marked.conversations && marked.conversations[pending.id] == pending
    requires Sound(marked.turns[pending.id])
    ensures var done := CompleteDeletion(marked, pending, at).rows;
            Stage(marked.order, pending, marked.turns[pending.id], at, done) && SameElsewhere(marked, done, pending.id)
  {
    var cid, turns := pending.id, marked.turns[pending.id];
    var done := CompleteDeletion(marked, pending, at).rows;
    PartlyPurgesLike(turns, |turns|, at);
    AllPurgedPart(turns, at);
    assert AllPurged(Tombstones(turns, at));
    CompletedRows(marked, pending, at);
    CompletedOrder(marked, pending, at);
    StillSweepable(marked, done, pending, at);
    hide Tombstones, PurgesLike, Sound, Restrict, CompleteDeletion, Sweepable;
  }

  lemma CutIsStage(marked: Rows, pending: Conversation, at: int, cut: Rows)
    requires Sweepable(marked) && pending.id in marked.conversations && marked.conversations[pending.id] == pending
    requires Sound(marked.turns[pending.id]) && CutShort(marked, pending, at, cut)
    ensures Stage(marked.order, pending, marked.turns[pending.id], at, cut) && SameElsewhere(marked, cut, pending.id)
  {
    var cid, turns := pending.id, marked.turns[pending.id];
    hide Stage, SameElsewhere, PartlyPurged, Tombstones, CompleteDeletion;
    if n :| 0 <= n <= |turns| && cut == PutTurns(marked, cid, PartlyPurged(turns, n, at)) {
      PurgingStage(marked, pending, at, n);
    } else if Erases(pending) && cut == PopConversation(PutTurns(marked, cid, Tombstones(turns, at)), cid) {
      PurgedStage(marked, pending, at);
    } else {
      FinishedStage(marked, pending, at);
    }
  }

  /** Recovering the streaming turns first changes nothing about the stage. */
  lemma RecoveredStage(order: seq<Id>, pending: Conversation, turns: seq<Turn>, at: int, rows: Rows, later: int)
    requires Stage(order, pending, turns, at, rows)
    ensures Stage(order, pending, turns, at, RecoverStreamingTurns(rows, later))
  {
    var cid, after := pending.id, RecoverStreamingTurns(rows, later);
    if cid in rows.turns { RecoveredPurgesLike(turns, rows.turns[cid], later); }
    hide PurgesLike, Sound, Restrict, DeletedForm;
  }

  lemma RecoveredElsewhere(a: Rows, b: Rows, cid: Id, later: int)
    requires SameElsewhere(a, b, cid)
    ensures SameElsewhere(RecoverStreamingTurns(a, later), RecoverStreamingTurns(b, later), cid)
  {
    forall other | other != cid
      ensures SameAt(RecoverStreamingTurns(a, later), RecoverStreamingTurns(b, later), other)
    {
      assert SameAt(a, b, other);
    }
  }

  // -- and all stages settle alike ------------------------------------------------

  lemma SweptAlike(a: Rows, b: Rows, a': Rows, b': Rows, cid: Id, moment: Option<int>, at: int)
    requires Sweepable(a) && SameAt(a, b, cid) && SweptAt(a, a', cid, moment, at) && SweptAt(b, b', cid, moment, at)
    ensures SameAt(a', b', cid)
  {
    hide DeletedForm, Tombstones, Due;
  }

  lemma StagesSettleAlike(order: seq<Id>, pending: Conversation, turns: seq<Turn>, at: int, a: Rows, b: Rows,
                          moment: Option<int>, later: int)
    requires pending.status == DeletionPending && pending.deletion.Some?
    requires Stage(order, pending, turns, at, a) && Stage(order, pending, turns, at, b)
    requires SameElsewhere(a, b, pending.id)
    ensures SettledLike(EnforceOver(a, Records(a), moment, later).rows,
                        EnforceOver(b, Records(b), moment, later).rows, pending.id)
  {
    var cid := pending.id;
    var a', b' := EnforceOver(a, Records(a), moment, later).rows, EnforceOver(b, Records(b), moment, later).rows;
    StageSettles(order, pending, turns, at, a, moment, later);
    StageSettles(order, pending, turns, at, b, moment, later);
    SweepOfAll(a, moment, later);
    SweepOfAll(b, moment, later);
    hide Stage, EnforceOver, SweptAt, DeletedForm, Tombstones, Restrict, Scrubbed, TimelessConversation, TimelessTurns;
    forall other | other != cid ensures SameAt(a', b', other) {
      assert SameAt(a, b, other);
      StageSweepable(order, pending, turns, at, a);
      SweptAlike(a, b, a', b', other, moment, later);
    }
    forall c ensures c in a'.conversations <==> c in b'.conversations {
      if c != cid { assert SameAt(a', b', c); }
    }
    assert a'.conversations.Keys == b'.conversations.Keys;
  }

  lemma StageSweepable(order: seq<Id>, pending: Conversation, turns: seq<Turn>, at: int, rows: Rows)
    requires Stage(order, pending, turns, at, rows)
    ensures Sweepable(rows)
  { }

  /** The deletion of `cid` itself has the same outcome in both row sets. */
  predicate SameOutcome(a: Rows, b: Rows, cid: Id)
  {
    && (cid in a.conversations <==> cid in b.conversations)
    && (cid in a.conversations ==>
          && TimelessConversation(a.conversations[cid]) == TimelessConversation(b.conversations[cid])
          && TimelessTurns(TurnsOf(a, cid)) == TimelessTurns(TurnsOf(b, cid)))
  }

  /** A pass over the interrupted rows ends like the same pass over the finished
      deletion, in every row of every conversation, and the deletion's own rows are
      then what the uninterrupted deletion leaves. */
  ghost predicate EndsAlike(after: Rows, undisturbed: Rows, done: Rows, cid: Id)
  {
    SettledLike(after, undisturbed, cid) && SameOutcome(after, done, cid) && Scrubbed(after, cid)
  }

  lemma StageEndsAlike(mac: Fingerprint, marked: Rows, pending: Conversation, at: int, a: Rows, b: Rows,
                       moment: Option<int>, later: int)
    requires pending.id in marked.turns && pending.status == DeletionPending && pending.deletion.Some?
    requires Stage(marked.order, pending, marked.turns[pending.id], at, a)
    requires Stage(marked.order, pending, marked.turns[pending.id], at, b)
    requires SameElsewhere(a, b, pending.id)
    ensures EndsAlike(EnforceOver(a, Records(a), moment, later).rows, EnforceOver(b, Records(b), moment, later).rows,
                      CompleteDeletion(marked, pending, at).rows, pending.id)
  {
    var turns := marked.turns[pending.id];
    StagesSettleAlike(marked.order, pending, turns, at, a, b, moment, later);
    StageSettles(marked.order, pending, turns, at, a, moment, later);
    CompletedRows(marked, pending, at);
    TombstoneTimes(turns, at, 0);
    hide Stage, EnforceOver, Tombstones, CompleteDeletion, Scrubbed, SettledLike, Restrict, TimelessTurns;
  }

  /** A crash after any number of the completion's row writes, followed by an
      enforcement pass or by reopening the store. */
  lemma CrashInCompletion(mac: Fingerprint, marked: Rows, pending: Conversation, at: int, k: nat, moment: int, later: int)
    requires WellFormed(mac, marked) && pending.id in marked.conversations
    requires marked.conversations[pending.id] == pending && pending.status == DeletionPending
    requires k <= |CompletionWrites(marked, pending, at)|
    ensures var cut := ApplyWrites(marked, CompletionWrites(marked, pending, at)[..k]);
            var done := CompleteDeletion(marked, pending, at).rows;
            && EndsAlike(EnforceRetention(cut, moment, later).rows, EnforceRetention(done, moment, later).rows, done, pending.id)
            && EndsAlike(Reopen(cut, later), Reopen(done, later), done, pending.id)
  {
    var cid := pending.id;
    var cut := ApplyWrites(marked, CompletionWrites(marked, pending, at)[..k]);
    var done := CompleteDeletion(marked, pending, at).rows;
    WellFormedSweepable(mac, marked);
    SoundHistory(mac, marked, cid);
    CutCompletion(marked, pending, at, k);
    assert pending.deletion.Some?;
    hide WellFormed, Stage, SameElsewhere, EnforceOver, CompletionWrites, ApplyWrites, CompleteDeletion, Sound, EndsAlike;
    CutIsStage(marked, pending, at, cut);
    CutIsStage(marked, pending, at, done);
    ElsewhereJoin(marked, cut, done, cid);
    StageEndsAlike(mac, marked, pending, at, cut, done, Some(moment), later);
    RecoveredStage(marked.order, pending, marked.turns[cid], at, cut, later);
    RecoveredStage(marked.order, pending, marked.turns[cid], at, done, later);
    RecoveredElsewhere(cut, done, cid, later);
    StageEndsAlike(mac, marked, pending, at, RecoverStreamingTurns(cut, later), RecoverStreamingTurns(done, later), None, later);
  }

  lemma ElsewhereJoin(rows: Rows, a: Rows, b: Rows, cid: Id)
    requires SameElsewhere(rows, a, cid) && SameElsewhere(rows, b, cid)
    ensures SameElsewhere(a, b, cid)
  {
    forall other | other != cid ensures SameAt(a, b, other) {
      assert SameAt(rows, a, other) && SameAt(rows, b, other);
    }
  }

  /** The pending record a deletion of `record` works from. */
  function PendingFor(record: Conversation, mode: DeletionMode, requestedAt: int): Conversation
  {
    if record.status == DeletionPending then record else PendingForm(record, mode, requestedAt)
  }

  predicate Deletable(record: Conversation, mode: DeletionMode, requestedAt: int)
  {
    record.status != Deleted && ConversationOk(PendingFor(record, mode, requestedAt))
  }

  /** The row writes of deleting a stored conversation, in the order they are made. */
  function WritesOfDeletion(rows: Rows, cid: Id, mode: DeletionMode, requestedAt: int, at: int): seq<RowWrite>
    requires cid in rows.conversations
  {
    var record := rows.conversations[cid];
    if record.status == DeletionPending then CompletionWrites(rows, record, at)
    else DeletionWrites(rows, PendingForm(record, mode, requestedAt), at)
  }

  /** An owner's delete request is exactly those writes. */
  lemma DeletionIsItsWrites(mac: Fingerprint, rows: Rows, actor: Actor, cid: Id, mode: DeletionMode, requestedAt: int, at: int)
    requires WellFormed(mac, rows) && Owns(rows, actor, cid)
    ensures DeleteConversation(rows, actor, cid, mode, requestedAt, at).result.Ok?
            <==> Deletable(rows.conversations[cid], mode, requestedAt)
    ensures Deletable(rows.conversations[cid], mode, requestedAt) ==>
              DeleteConversation(rows, actor, cid, mode, requestedAt, at).rows
              == ApplyWrites(rows, WritesOfDeletion(rows, cid, mode, requestedAt, at))
  {
    var record := rows.conversations[cid];
    assert RecordFits(record, cid, rows.turns[cid]);
    assert record.id == cid && ConversationOk(record) && cid in rows.turns;
    hide WellFormed, RecordFits, CompleteDeletion, CompletionWrites, DeletionWrites, ApplyWrites, ConversationOk;
    DeleteOutcome(rows, actor, cid, mode, requestedAt, at);
    hide DeleteConversation, Deletable;
    if record.status == DeletionPending {
      CompletionIsItsWrites(rows, record, at);
    } else {
      MarkThenComplete(rows, PendingForm(record, mode, requestedAt), at);
    }
  }

  lemma DeleteOutcome(rows: Rows, actor: Actor, cid: Id, mode: DeletionMode, requestedAt: int, at: int)
    requires Owns(rows, actor, cid) && ConversationOk(rows.conversations[cid])
    ensures var reply, record := DeleteConversation(rows, actor, cid, mode, requestedAt, at), rows.conversations[cid];
            && (reply.result.Ok? <==> Deletable(record, mode, requestedAt))
            && (reply.result.Ok? && record.status == DeletionPending ==>
                  reply.rows == CompleteDeletion(rows, record, at).rows)
            && (reply.result.Ok? && record.status != DeletionPending ==>
                  var pending := PendingForm(record, mode, requestedAt);
                  reply.rows == CompleteDeletion(PutConversation(rows, pending), pending, at).rows)
  {
    CompletionSucceeds(rows, rows.conversations[cid], at);
    hide ConversationOk, PutConversation;
  }

  lemma CompletionSucceeds(rows: Rows, pending: Conversation, at: int)
    ensures CompleteDeletion(rows, pending, at).result.Ok?
  { }

  /** So is what a pass does to a conversation whose retention ceiling is reached. */
  lemma ExpiryIsItsWrites(mac: Fingerprint, rows: Rows, cid: Id, moment: int, at: int)
    requires WellFormed(mac, rows) && cid in rows.conversations && Due(rows.conversations[cid], Some(moment))
    ensures Deletable(rows.conversations[cid], PurgeContentKeepTombstone, moment)
    ensures EnforceOne(rows, rows.conversations[cid], Some(moment), at).rows
            == ApplyWrites(rows, WritesOfDeletion(rows, cid, PurgeContentKeepTombstone, moment, at))
  {
    var record := rows.conversations[cid];
    assert RecordFits(record, cid, rows.turns[cid]);
    assert record.id == cid && ConversationOk(record) && cid in rows.turns;
    hide WellFormed, RecordFits, CompleteDeletion, CompletionWrites, DeletionWrites, ApplyWrites, EnforceOne, Deletable;
    ExpiryIsDeletable(record, moment);
    DueStep(rows, record, Some(moment), at);
    hide ConversationOk;
    if record.status == DeletionPending {
      CompletionIsItsWrites(rows, record, at);
    } else {
      MarkThenComplete(rows, PendingForm(record, PurgeContentKeepTombstone, moment), at);
    }
  }

  lemma ExpiryIsDeletable(record: Conversation, moment: int)
    requires ConversationOk(record) && Due(record, Some(moment))
    ensures Deletable(record, PurgeContentKeepTombstone, moment)
  { }

  lemma MarkThenComplete(rows: Rows, pending: Conversation, at: int)
    requires pending.id in rows.turns
    ensures ApplyWrites(rows, DeletionWrites(rows, pending, at))
            == CompleteDeletion(PutConversation(rows, pending), pending, at).rows
  {
    var writes := CompletionWrites(PutConversation(rows, pending), pending, at);
    ApplyAppend(rows, [WriteConversation(pending)], writes);
    ApplyOne(rows, WriteConversation(pending));
    CompletionIsItsWrites(PutConversation(rows, pending), pending, at);
  }

  /** Crash safety of deletion.  However many of its row writes were made before the
      crash - at least the first - an enforcement pass, or reopening with recovery,
      reaches the rows the uninterrupted deletion reaches (timestamps and erased
      conversations' leftover turn rows aside), with no title, label or content left. */
  lemma CrashedDeletionIsFinished(mac: Fingerprint, rows: Rows, cid: Id, mode: DeletionMode, requestedAt: int, at: int,
                                  k: nat, moment: int, later: int)
    requires WellFormed(mac, rows) && cid in rows.conversations && Deletable(rows.conversations[cid], mode, requestedAt)
    requires 1 <= k <= |WritesOfDeletion(rows, cid, mode, requestedAt, at)|
    ensures var writes := WritesOfDeletion(rows, cid, mode, requestedAt, at);
            var cut, done := ApplyWrites(rows, writes[..k]), ApplyWrites(rows, writes);
            && EndsAlike(EnforceRetention(cut, moment, later).rows, EnforceRetention(done, moment, later).rows, done, cid)
            && EndsAlike(Reopen(cut, later), Reopen(done, later), done, cid)
  {
    var record := rows.conversations[cid];
    assert RecordFits(record, cid, rows.turns[cid]);
    assert record.id == cid && cid in rows.turns;
    if record.status == DeletionPending {
      hide WellFormed, RecordFits, EnforceRetention, Reopen, EndsAlike, CompleteDeletion, ApplyWrites, CompletionWrites, ConversationOk;
      CompletionIsItsWrites(rows, record, at);
      CrashInCompletion(mac, rows, record, at, k, moment, later);
    } else {
      var pending := PendingForm(record, mode, requestedAt);
      PutConversationKeeps(mac, rows, pending);
      hide WellFormed, RecordFits, EnforceRetention, Reopen, EndsAlike, ApplyWrites, DeletionWrites, ConversationOk;
      CrashAfterMark(mac, rows, pending, at, k, moment, later);
    }
  }

  lemma CrashAfterMark(mac: Fingerprint, rows: Rows, pending: Conversation, at: int, k: nat, moment: int, later: int)
    requires pending.id in rows.turns && WellFormed(mac, PutConversation(rows, pending))
    requires pending.status == DeletionPending && 1 <= k <= |DeletionWrites(rows, pending, at)|
    ensures var writes := DeletionWrites(rows, pending, at);
            var cut, done := ApplyWrites(rows, writes[..k]), ApplyWrites(rows, writes);
            && EndsAlike(EnforceRetention(cut, moment, later).rows, EnforceRetention(done, moment, later).rows, done, pending.id)
            && EndsAlike(Reopen(cut, later), Reopen(done, later), done, pending.id)
  {
    var marked := PutConversation(rows, pending);
    var completion := CompletionWrites(marked, pending, at);
    hide WellFormed, EnforceRetention, Reopen, EndsAlike, CompleteDeletion, ApplyWrites, CompletionWrites;
    MarkThenComplete(rows, pending, at);
    assert ([WriteConversation(pending)] + completion)[..k] == [WriteConversation(pending)] + completion[..k - 1];
    ApplyAppend(rows, [WriteConversation(pending)], completion[..k - 1]);
    ApplyOne(rows, WriteConversation(pending));
    CrashInCompletion(mac, marked, pending, at, k - 1, moment, later);
  }
}
