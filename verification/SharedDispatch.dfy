/** The sibling turns of a dispatch (workbench/advanced_dispatch.py) while everyone else goes
    on using the conversation store: other requests come between any two forks, while the
    attempts run, and between any two settlements. */
module SharedDispatch {
  import opened Outcomes
  import opened Sequences
  import opened ConversationModels
  import opened Lineage
  import opened ConversationRows
  import opened StoreInvariants
  import opened Sweeps
  import opened TurnHistory
  import R = StoreRuns
  import P = ParallelSiblings
  import D = AdvancedDispatch
  import L = ResponseLifecycle
  import StoreRoundTrips
  import DeletionRecovery

  /** What a dispatch does to its conversation: one streaming turn below `parent` for each
      id, settled at the status its thread left. */
  datatype Dispatch = Dispatch(actor: Actor, cid: Id, parent: Id, q: TurnRequest, ids: seq<Id>, statuses: seq<TurnStatus>)

  predicate DispatchOk(d: Dispatch)
  {
    |d.ids| == |d.statuses| && NoRepeats(d.ids) && d.q.status == Streaming && forall s | s in d.statuses :: Terminal(s)
  }

  /** How far the dispatch has come, and the refusal that stopped it, if any. */
  datatype World = World(store: R.World, forked: nat, settled: nat, refused: Option<StoreError>)

  datatype Action = Elsewhere(call: R.Call) | Fork(now: int) | Settle(now: int)

  function ForkCall(d: Dispatch, n: nat, now: int): R.Call
    requires n < |d.ids|
  {
    R.Branching(d.actor, d.cid, d.parent, d.ids[n], d.q, now)
  }

  function SettleCall(d: Dispatch, n: nat, now: int): R.Call
    requires n < |d.ids| == |d.statuses|
  {
    R.Advancing(d.actor, d.cid, d.ids[n], d.statuses[n], now)
  }

  predicate Forking(d: Dispatch, w: World) { w.refused.None? && w.forked < |d.ids| }

  predicate SettlesNext(d: Dispatch, w: World) { w.refused.None? && w.settled < |d.ids| <= w.forked }

  function Step(mac: Fingerprint, d: Dispatch, w: World, a: Action): World
    requires DispatchOk(d)
  {
    match a
    case Elsewhere(call) => w.(store := R.Step(mac, w.store, call))
    case Fork(now) =>
      if !Forking(d, w) then w
      else
        var result := BranchTurn(mac, w.store.rows, d.actor, d.cid, d.parent, d.ids[w.forked], d.q, now).result;
        var store := R.Step(mac, w.store, ForkCall(d, w.forked, now));
        if result.Ok? then World(store, w.forked + 1, w.settled, None) else World(store, w.forked, w.settled, Some(result.error))
    case Settle(now) =>
      if !SettlesNext(d, w) then w
      else
        var result := AdvanceTurnStatus(w.store.rows, d.actor, d.cid, d.ids[w.settled], d.statuses[w.settled], now).result;
        var store := R.Step(mac, w.store, SettleCall(d, w.settled, now));
        if result.Ok? then World(store, w.forked, w.settled + 1, None) else World(store, w.forked, w.settled, Some(result.error))
  }

  predicate Enabled(w: World, a: Action) { a.Elsewhere? ==> R.Enabled(w.store, a.call) }

  function Run(mac: Fingerprint, d: Dispatch, w: World, actions: seq<Action>): World
    requires DispatchOk(d)
    decreases |actions|
  {
    if actions == [] then w else Run(mac, d, Step(mac, d, w, actions[0]), actions[1..])
  }

  predicate Possible(mac: Fingerprint, d: Dispatch, w: World, actions: seq<Action>)
    requires DispatchOk(d)
    decreases |actions|
  {
    actions == [] || (Enabled(w, actions[0]) && Possible(mac, d, Step(mac, d, w, actions[0]), actions[1..]))
  }

  // -- what holds whatever the others do ------------------------------------------------------

  predicate IsSibling(t: Turn, d: Dispatch, k: nat)
    requires k < |d.ids|
  {
    t.id == d.ids[k] && t.lineage.parent == Some(d.parent) && t.lineage.kind == Branch
  }

  /** Sibling `k` is stored, and at its own status if it is among the first `settled`. */
  ghost predicate Stands(turns: seq<Turn>, d: Dispatch, k: nat, settled: nat)
    requires k < |d.ids| == |d.statuses|
  {
    exists i :: 0 <= i < |turns| && IsSibling(turns[i], d, k) && (k < settled ==> turns[i].status == d.statuses[k])
  }

  ghost predicate Standing(d: Dispatch, w: World)
    requires |d.ids| == |d.statuses|
  {
    && w.settled <= w.forked <= |d.ids| && (w.settled > 0 ==> w.forked == |d.ids|)
    && (w.forked > 0 ==> d.cid in w.store.used)
    && (d.cid in w.store.rows.turns ==>
          forall k | 0 <= k < w.forked :: Stands(w.store.rows.turns[d.cid], d, k, w.settled))
  }

  ghost predicate Inv(mac: Fingerprint, d: Dispatch, w: World)
    requires DispatchOk(d)
  {
    R.Sane(mac, w.store) && Standing(d, w)
  }

  lemma StandsLater(a: seq<Turn>, b: seq<Turn>, d: Dispatch, k: nat, settled: nat)
    requires DispatchOk(d) && k < |d.ids| && Extends(a, b) && Stands(a, d, k, settled)
    ensures Stands(b, d, k, settled)
  {
    var i :| 0 <= i < |a| && IsSibling(a[i], d, k) && (k < settled ==> a[i].status == d.statuses[k]);
    assert Evolves(a[i], b[i]);
    assert d.statuses[k] in d.statuses;
  }

  lemma StandingLater(d: Dispatch, w: World, store: R.World)
    requires DispatchOk(d) && Standing(d, w) && Since(w.store, store)
    ensures Standing(d, w.(store := store))
  {
    assert |d.ids| == |d.statuses|;
    hide Extends, RecordEvolves, Stands, DispatchOk;
    if d.cid in store.rows.turns && w.forked > 0 {
      var a, b := w.store.rows.turns[d.cid], store.rows.turns[d.cid];
      hide Since;
      forall k | 0 <= k < w.forked ensures Stands(b, d, k, w.settled) { StandsLater(a, b, d, k, w.settled); }
    }
  }

  lemma ForkKeeps(mac: Fingerprint, d: Dispatch, w: World, now: int)
    requires DispatchOk(d) && Inv(mac, d, w) && Forking(d, w)
    ensures Inv(mac, d, Step(mac, d, w, Fork(now)))
  {
    assert |d.ids| == |d.statuses|;
    hide WellFormed, BranchTurn, Since, Stands, DispatchOk;
    var w' := Step(mac, d, w, Fork(now));
    ForkStep(mac, d, w, now);
    StepKeeps(mac, w.store, ForkCall(d, w.forked, now));
    StandingLater(d, w, w'.store);
    if w'.refused.None? {
      P.BranchFacts(mac, w.store.rows, d.actor, d.cid, d.parent, d.ids[w.forked], d.q, now);
      var turns := w'.store.rows.turns[d.cid];
      NewSibling(mac, d, w.forked, NextSibling(TurnsOf(w.store.rows, d.cid), Some(d.parent)), now, turns);
      ForkedNext(d, w, w');
    }
  }

  lemma ForkedNext(d: Dispatch, w: World, w': World)
    requires DispatchOk(d) && Standing(d, w.(store := w'.store)) && w'.forked == w.forked + 1 <= |d.ids| && w'.settled == w.settled
    requires d.cid in w'.store.used && d.cid in w'.store.rows.turns && Stands(w'.store.rows.turns[d.cid], d, w.forked, w.forked)
    ensures Standing(d, w')
  {
    var turns := w'.store.rows.turns[d.cid];
    forall k | 0 <= k < w'.forked ensures Stands(turns, d, k, w'.settled) {
      if k < w.forked { assert Stands(turns, d, k, w.settled); }
    }
  }

  lemma ForkStep(mac: Fingerprint, d: Dispatch, w: World, now: int)
    requires DispatchOk(d) && Forking(d, w)
    ensures var reply := BranchTurn(mac, w.store.rows, d.actor, d.cid, d.parent, d.ids[w.forked], d.q, now);
            var w' := Step(mac, d, w, Fork(now));
            && w'.store == R.Step(mac, w.store, ForkCall(d, w.forked, now)) == R.World(reply.rows, w.store.used)
            && w' == World(w'.store, if reply.result.Ok? then w.forked + 1 else w.forked, w.settled,
                           if reply.result.Ok? then None else Some(reply.result.error))
  {
    hide BranchTurn;
  }

  lemma SettleStep(mac: Fingerprint, d: Dispatch, w: World, now: int)
    requires DispatchOk(d) && SettlesNext(d, w)
    ensures var reply := AdvanceTurnStatus(w.store.rows, d.actor, d.cid, d.ids[w.settled], d.statuses[w.settled], now);
            var w' := Step(mac, d, w, Settle(now));
            && w'.store == R.Step(mac, w.store, SettleCall(d, w.settled, now)) == R.World(reply.rows, w.store.used)
            && w' == World(w'.store, w.forked, if reply.result.Ok? then w.settled + 1 else w.settled,
                           if reply.result.Ok? then None else Some(reply.result.error))
  {
    hide AdvanceTurnStatus;
  }

  lemma NewSibling(mac: Fingerprint, d: Dispatch, k: nat, index: int, now: int, turns: seq<Turn>)
    requires DispatchOk(d) && k < |d.ids| && turns != []
    requires turns[|turns| - 1] == MakeTurn(mac, d.cid, d.ids[k], TurnLineage(Some(d.parent), index, Branch), d.q, now)
    ensures Stands(turns, d, k, k) && turns[|turns| - 1].id == d.ids[k] && turns[|turns| - 1].status == Streaming
  { }

  lemma SettleKeeps(mac: Fingerprint, d: Dispatch, w: World, now: int)
    requires DispatchOk(d) && Inv(mac, d, w) && SettlesNext(d, w)
    ensures Inv(mac, d, Step(mac, d, w, Settle(now)))
  {
    assert |d.ids| == |d.statuses|;
    hide WellFormed, AdvanceTurnStatus, Since, Stands, DispatchOk, UniqueIds;
    var k := w.settled;
    var w' := Step(mac, d, w, Settle(now));
    SettleStep(mac, d, w, now);
    StepKeeps(mac, w.store, SettleCall(d, k, now));
    StandingLater(d, w, w'.store);
    if w'.refused.None? {
      var i := SettledTurn(mac, d, w, now);
      NowSettled(w'.store.rows.turns[d.cid], d, k, i);
    }
    StandNext(d, w, w');
  }

  lemma StandNext(d: Dispatch, w: World, w': World)
    requires DispatchOk(d) && Standing(d, w.(store := w'.store)) && w'.forked == w.forked == |d.ids|
    requires w'.settled == w.settled || (w'.settled == w.settled + 1 <= |d.ids| && d.cid in w'.store.rows.turns
                                         && Stands(w'.store.rows.turns[d.cid], d, w.settled, w.settled + 1))
    ensures Standing(d, w')
  {
    if d.cid in w'.store.rows.turns {
      var turns := w'.store.rows.turns[d.cid];
      forall k | 0 <= k < w'.forked ensures Stands(turns, d, k, w'.settled) {
        assert Stands(turns, d, k, w.settled);
      }
    }
  }

  lemma NowSettled(turns: seq<Turn>, d: Dispatch, k: nat, i: nat)
    requires DispatchOk(d) && k < |d.ids| && i < |turns| && Stands(turns, d, k, k)
    requires turns[i].id == d.ids[k] && turns[i].status == d.statuses[k] && UniqueIds(turns)
    ensures Stands(turns, d, k, k + 1)
  {
    var j :| 0 <= j < |turns| && IsSibling(turns[j], d, k);
    assert i == j;
  }

  /** A settlement that is accepted finds its sibling streaming, and changes that turn only. */
  lemma SettledTurn(mac: Fingerprint, d: Dispatch, w: World, now: int) returns (i: nat)
    requires DispatchOk(d) && Inv(mac, d, w) && SettlesNext(d, w) && Step(mac, d, w, Settle(now)).refused.None?
    ensures var rows, rows' := w.store.rows, Step(mac, d, w, Settle(now)).store.rows;
            && d.cid in rows.turns && i < |rows.turns[d.cid]| && UniqueIds(rows.turns[d.cid])
            && rows.turns[d.cid][i].id == d.ids[w.settled] && rows.turns[d.cid][i].status == Streaming
            && rows' == PutTurns(rows, d.cid, rows.turns[d.cid][i := rows.turns[d.cid][i].(status := d.statuses[w.settled],
                                                                                          completedAt := Some(now))])
            && UniqueIds(rows'.turns[d.cid])
  {
    assert |d.ids| == |d.statuses|;
    hide AdvanceTurnStatus, DispatchOk, Standing, WellFormed, UniqueIds;
    var rows, id, status := w.store.rows, d.ids[w.settled], d.statuses[w.settled];
    SettleStep(mac, d, w, now);
    i := FoundWhenAdvanced(mac, rows, d.actor, d.cid, id, status, now);
    StoreRoundTrips.AdvanceExactly(mac, rows, d.actor, d.cid, i, status, now);
    OwnHistoryOk(mac, rows, d.cid);
    SameIds(rows.turns[d.cid], i, rows.turns[d.cid][i].(status := status, completedAt := Some(now)));
  }

  lemma SameIds(turns: seq<Turn>, i: nat, t: Turn)
    requires UniqueIds(turns) && i < |turns| && t.id == turns[i].id
    ensures UniqueIds(turns[i := t])
  { }

  lemma OwnHistoryOk(mac: Fingerprint, rows: Rows, cid: Id)
    requires WellFormed(mac, rows) && cid in rows.turns
    ensures UniqueIds(rows.turns[cid]) && HistoryOk(mac, cid, rows.turns[cid])
  { }

  lemma FoundWhenAdvanced(mac: Fingerprint, rows: Rows, actor: Actor, cid: Id, id: Id, status: TurnStatus, now: int) returns (i: nat)
    requires WellFormed(mac, rows) && AdvanceTurnStatus(rows, actor, cid, id, status, now).result.Ok?
    ensures Owns(rows, actor, cid) && Listable(rows.conversations[cid].status)
    ensures cid in rows.turns && i < |rows.turns[cid]| && rows.turns[cid][i].id == id
  {
    hide WellFormed, ReplaceTurn;
    R.StoredFits(mac, rows, cid);
    i := FindTurnAt(TurnsOf(rows, cid), id);
  }

  lemma StepInv(mac: Fingerprint, d: Dispatch, w: World, a: Action)
    requires DispatchOk(d) && Inv(mac, d, w) && Enabled(w, a)
    ensures Inv(mac, d, Step(mac, d, w, a))
  {
    match a
    case Elsewhere(call) =>
      StepKeeps(mac, w.store, call);
      hide R.Sane, Since;
      StandingLater(d, w, R.Step(mac, w.store, call));
    case Fork(now) => if Forking(d, w) { ForkKeeps(mac, d, w, now); }
    case Settle(now) => if SettlesNext(d, w) { SettleKeeps(mac, d, w, now); }
  }

  lemma {:induction false} RunInv(mac: Fingerprint, d: Dispatch, w: World, actions: seq<Action>)
    requires DispatchOk(d) && Inv(mac, d, w) && Possible(mac, d, w, actions)
    ensures Inv(mac, d, Run(mac, d, w, actions))
    decreases |actions|
  {
    hide Inv, Step, Enabled, DispatchOk;
    if actions != [] {
      StepInv(mac, d, w, actions[0]);
      RunInv(mac, d, Step(mac, d, w, actions[0]), actions[1..]);
    }
  }

  /** Whatever others do in between: as long as the history exists, every fork made stands
      in it, no two at one index, and every sibling settled so far has the status its own
      thread left. */
  lemma SiblingsAmongOthers(mac: Fingerprint, d: Dispatch, store: R.World, actions: seq<Action>)
    requires DispatchOk(d) && R.Sane(mac, store) && Possible(mac, d, World(store, 0, 0, None), actions)
    ensures var w := Run(mac, d, World(store, 0, 0, None), actions);
            d.cid in w.store.rows.turns ==>
              var turns := w.store.rows.turns[d.cid];
              && (forall k | 0 <= k < w.forked <= |d.ids| :: Stands(turns, d, k, w.settled))
              && (forall i, j | 0 <= i < j < |turns| && turns[i].lineage.parent == turns[j].lineage.parent ::
                    turns[i].lineage.sibling != turns[j].lineage.sibling)
  {
    var w0 := World(store, 0, 0, None);
    assert Inv(mac, d, w0);
    hide Run, Possible, Stands, WellFormed;
    RunInv(mac, d, w0, actions);
    var w := Run(mac, d, w0, actions);
    if d.cid in w.store.rows.turns { PlacesDiffer(mac, w.store.rows, d.cid); }
  }

  lemma PlacesDiffer(mac: Fingerprint, rows: Rows, cid: Id)
    requires WellFormed(mac, rows) && cid in rows.turns
    ensures var turns := rows.turns[cid];
            forall i, j | 0 <= i < j < |turns| && turns[i].lineage.parent == turns[j].lineage.parent ::
              turns[i].lineage.sibling != turns[j].lineage.sibling
  {
    assert TreeRows(cid, rows.turns[cid]) by { OwnHistoryOk(mac, rows, cid); }
    hide WellFormed;
    var turns := rows.turns[cid];
    forall i, j | 0 <= i < j < |turns| && turns[i].lineage.parent == turns[j].lineage.parent
      ensures turns[i].lineage.sibling != turns[j].lineage.sibling
    {
      assert !SamePlace(turns[i].lineage, turns[j].lineage);
    }
  }

  /** What the attempts of a dispatch leave is such a list of statuses, however they
      interleave and from whatever lifecycle rows. */
  lemma AttemptsLeaveStatuses(responses: L.LifecycleRows, actor: Actor, cid: Id, parent: Id, q: TurnRequest, ids: seq<Id>,
                              tasks: seq<D.Task>, schedule: seq<nat>)
    requires NoRepeats(ids) && q.status == Streaming && |ids| == |tasks|
    requires D.DistinctIds(tasks) && (forall i | i in schedule :: i < |tasks|)
    requires forall i | 0 <= i < |tasks| :: D.Turns(schedule, i) >= 2 * |D.EventsOf(tasks[i])| + 2
    ensures var w := D.Interleave(actor, cid, tasks, D.Start(responses, |tasks|), schedule);
            && (forall k | 0 <= k < |w.threads| :: w.threads[k].Finished?)
            && DispatchOk(Dispatch(actor, cid, parent, q, ids, P.StatusesOf(P.JoinedOf(w))))
  {
    hide D.Outcome, D.Interleave, D.EventsOf, D.TotalEvents, D.HasRoom, D.Turns, D.SettledAt;
    D.AttemptsAreIsolated(responses, actor, cid, tasks, schedule);
    var w := D.Interleave(actor, cid, tasks, D.Start(responses, |tasks|), schedule);
    var joined := P.JoinedOf(w);
    forall k | 0 <= k < |joined| ensures P.Joinable(joined[k]) {
      P.OutcomeIsJoinable(responses, actor, cid, tasks[k], D.HasRoom(responses, cid, tasks), joined[k]);
    }
    P.StatusesTerminal(joined);
  }

  // -- when a settlement is refused ---------------------------------------------------------------

  ghost predicate Live(rows: Rows, d: Dispatch)
  {
    Owns(rows, d.actor, d.cid) && Listable(rows.conversations[d.cid].status) && d.cid in rows.turns
  }

  /** Sibling `k` is still streaming. */
  ghost predicate Waits(turns: seq<Turn>, d: Dispatch, k: nat)
    requires k < |d.ids|
  {
    exists i :: 0 <= i < |turns| && turns[i].id == d.ids[k] && turns[i].status == Streaming
  }

  /** The settling loop is stopped exactly when it comes to a sibling that is not streaming
      any more, or whose conversation is being deleted or gone; the siblings behind it then
      stay as they are. */
  lemma SettlementRefusedExactly(mac: Fingerprint, d: Dispatch, w: World, now: int)
    requires DispatchOk(d) && Inv(mac, d, w) && SettlesNext(d, w)
    ensures var w' := Step(mac, d, w, Settle(now));
            && (w'.refused.None? <==> Live(w.store.rows, d) && Waits(w.store.rows.turns[d.cid], d, w.settled))
            && (w'.refused.Some? ==> w'.store.rows == w.store.rows)
  {
    assert |d.ids| == |d.statuses| && d.statuses[w.settled] in d.statuses;
    hide AdvanceTurnStatus, WellFormed, Live, Waits, R.Step, Step, Standing;
    SettleStep(mac, d, w, now);
    AdvancedExactly(mac, w.store.rows, d, w.settled, now);
    if Step(mac, d, w, Settle(now)).refused.Some? {
      RefusedAdvance(w.store.rows, d.actor, d.cid, d.ids[w.settled], d.statuses[w.settled], now);
    }
  }

  lemma AdvancedExactly(mac: Fingerprint, rows: Rows, d: Dispatch, k: nat, now: int)
    requires WellFormed(mac, rows) && k < |d.ids| == |d.statuses| && Terminal(d.statuses[k])
    ensures AdvanceTurnStatus(rows, d.actor, d.cid, d.ids[k], d.statuses[k], now).result.Ok?
            <==> Live(rows, d) && Waits(rows.turns[d.cid], d, k)
  {
    hide AdvanceTurnStatus, WellFormed;
    if AdvanceTurnStatus(rows, d.actor, d.cid, d.ids[k], d.statuses[k], now).result.Ok? {
      var i := FoundWhenAdvanced(mac, rows, d.actor, d.cid, d.ids[k], d.statuses[k], now);
      StoreRoundTrips.AdvanceExactly(mac, rows, d.actor, d.cid, i, d.statuses[k], now);
    } else if Live(rows, d) && Waits(rows.turns[d.cid], d, k) {
      var turns := rows.turns[d.cid];
      var i :| 0 <= i < |turns| && turns[i].id == d.ids[k] && turns[i].status == Streaming;
      StoreRoundTrips.AdvanceExactly(mac, rows, d.actor, d.cid, i, d.statuses[k], now);
      assert false;
    }
  }

  lemma RefusedAdvance(rows: Rows, actor: Actor, cid: Id, id: Id, status: TurnStatus, now: int)
    requires AdvanceTurnStatus(rows, actor, cid, id, status, now).result.Err?
    ensures AdvanceTurnStatus(rows, actor, cid, id, status, now).rows == rows
  {
    hide FindTurn, ReplaceTurn;
  }

  // -- when nobody interferes ------------------------------------------------------------------------

  /** Calls that neither settle one of the siblings nor delete their conversation. */
  predicate Harmless(d: Dispatch, call: R.Call)
  {
    match call
    case Advancing(actor, cid, id, _, _) => actor != d.actor || cid != d.cid || id !in d.ids
    case Deleting(actor, cid, _, _, _) => actor != d.actor || cid != d.cid
    case Creating(_, _, _, _, _) => true
    case Changing(_, _, _, _) => true
    case Appending(_, _, _, _, _, _) => true
    case Retrying(_, _, _, _, _, _) => true
    case Branching(_, _, _, _, _, _) => true
    case Reading(_, _, _) => true
    case CrashedCreate(_) => true
    case CrashedAppend(_, _, _, _, _, _) => true
    case _ => false
  }

  /** The conversation stays live, and who was waiting waits. */
  ghost predicate KeepsWaiting(a: Rows, b: Rows, d: Dispatch)
    requires Live(a, d)
  {
    Live(b, d) && forall k | 0 <= k < |d.ids| && Waits(a.turns[d.cid], d, k) :: Waits(b.turns[d.cid], d, k)
  }

  lemma SameKeepsWaiting(a: Rows, b: Rows, d: Dispatch)
    requires Live(a, d) && SameAt(a, b, d.cid)
    ensures KeepsWaiting(a, b, d)
  { }

  lemma GrownKeepsWaiting(a: Rows, b: Rows, d: Dispatch)
    requires Live(a, d) && Live(b, d)
    requires |a.turns[d.cid]| <= |b.turns[d.cid]|
    requires forall i | 0 <= i < |a.turns[d.cid]| ::
               b.turns[d.cid][i] == a.turns[d.cid][i] || a.turns[d.cid][i].id !in d.ids
    ensures KeepsWaiting(a, b, d)
  {
    forall k | 0 <= k < |d.ids| && Waits(a.turns[d.cid], d, k) ensures Waits(b.turns[d.cid], d, k) {
      var i :| 0 <= i < |a.turns[d.cid]| && a.turns[d.cid][i].id == d.ids[k] && a.turns[d.cid][i].status == Streaming;
      assert b.turns[d.cid][i] == a.turns[d.cid][i];
    }
  }

  lemma AppendKeepsWaiting(mac: Fingerprint, d: Dispatch, rows: Rows, actor: Actor, cid: Id, id: Id, lineage: TurnLineage,
                           q: TurnRequest, now: int)
    requires WellFormed(mac, rows) && Live(rows, d)
    ensures KeepsWaiting(rows, AppendTurn(mac, rows, actor, cid, id, lineage, q, now).rows, d)
    ensures KeepsWaiting(rows, R.CutAppend(mac, rows, actor, cid, id, lineage, q, now), d)
  {
    hide WellFormed, GateVerdict, UniverseOf, TurnOk, Waits, KeepsWaiting;
    var reply := AppendTurn(mac, rows, actor, cid, id, lineage, q, now);
    SameKeepsWaiting(rows, rows, d);
    if reply.result.Ok? {
      AppendFacts(mac, rows, actor, cid, id, lineage, q, now);
      R.StoredFits(mac, rows, cid);
      hide AppendTurn, RecordFits, ConversationOk;
      assert rows.conversations[cid].id == cid;
      GrownKeepsWaiting(rows, reply.rows, d);
      GrownKeepsWaiting(rows, R.CutAppend(mac, rows, actor, cid, id, lineage, q, now), d);
    }
  }

  lemma ChangeKeepsWaiting(mac: Fingerprint, d: Dispatch, rows: Rows, actor: Actor, cid: Id, change: Change, now: int)
    requires WellFormed(mac, rows) && Live(rows, d)
    ensures KeepsWaiting(rows, ChangeConversation(rows, actor, cid, change, now).rows, d)
  {
    hide WellFormed, ConversationOk, AuditConversation, Waits, KeepsWaiting, Changed;
    SameKeepsWaiting(rows, rows, d);
    if ChangeConversation(rows, actor, cid, change, now).result.Ok? {
      R.ChangeFacts(rows, actor, cid, change, now);
      R.StoredFits(mac, rows, cid);
      hide ChangeConversation, RecordFits;
      StaysListable(rows.conversations[cid], change, now);
      GrownKeepsWaiting(rows, PutConversation(rows, Changed(rows.conversations[cid], change).(updatedAt := now)), d);
    }
  }

  lemma StaysListable(c: Conversation, change: Change, now: int)
    requires Listable(c.status)
    ensures var after := Changed(c, change).(updatedAt := now); Listable(after.status) && after.actor == c.actor && after.id == c.id
  { }

  lemma AdvanceKeepsWaiting(mac: Fingerprint, d: Dispatch, rows: Rows, actor: Actor, cid: Id, id: Id, status: TurnStatus, now: int)
    requires WellFormed(mac, rows) && Live(rows, d) && (actor != d.actor || cid != d.cid || id !in d.ids)
    ensures KeepsWaiting(rows, AdvanceTurnStatus(rows, actor, cid, id, status, now).rows, d)
  {
    hide WellFormed, Waits, KeepsWaiting, ReplaceTurn;
    SameKeepsWaiting(rows, rows, d);
    if AdvanceTurnStatus(rows, actor, cid, id, status, now).result.Ok? {
      var i := FoundWhenAdvanced(mac, rows, actor, cid, id, status, now);
      StoreRoundTrips.AdvanceExactly(mac, rows, actor, cid, i, status, now);
      GrownKeepsWaiting(rows, AdvanceTurnStatus(rows, actor, cid, id, status, now).rows, d);
    }
  }

  lemma DeleteKeepsWaiting(mac: Fingerprint, d: Dispatch, rows: Rows, actor: Actor, cid: Id, mode: DeletionMode, requestedAt: int, at: int)
    requires WellFormed(mac, rows) && Live(rows, d) && (actor != d.actor || cid != d.cid)
    ensures KeepsWaiting(rows, DeleteConversation(rows, actor, cid, mode, requestedAt, at).rows, d)
  {
    hide WellFormed, KeepsWaiting, ConversationOk, CompleteDeletion, AuditConversation;
    SameKeepsWaiting(rows, rows, d);
    var reply := DeleteConversation(rows, actor, cid, mode, requestedAt, at);
    if Owns(rows, actor, cid) {
      R.StoredFits(mac, rows, cid);
      hide RecordFits;
      var record, pending := rows.conversations[cid], PendingForm(rows.conversations[cid], mode, requestedAt);
      DeletionRecovery.DeleteOutcome(rows, actor, cid, mode, requestedAt, at);
      if reply.result.Ok? {
        hide DeleteConversation;
        CompletedRows(rows, record, at);
        CompletedRows(PutConversation(rows, pending), pending, at);
        if record.status != DeletionPending { SameTwice(rows, PutConversation(rows, pending), reply.rows, d.cid); }
        SameKeepsWaiting(rows, reply.rows, d);
      } else {
        RefusedDeletion(rows, actor, cid, mode, requestedAt, at);
      }
    }
  }

  lemma SameTwice(a: Rows, b: Rows, c: Rows, cid: Id)
    requires SameAt(a, b, cid) && SameAt(b, c, cid)
    ensures SameAt(a, c, cid)
  { }

  lemma RefusedDeletion(rows: Rows, actor: Actor, cid: Id, mode: DeletionMode, requestedAt: int, at: int)
    requires DeleteConversation(rows, actor, cid, mode, requestedAt, at).result.Err?
    requires Owns(rows, actor, cid) && ConversationOk(rows.conversations[cid])
    ensures DeleteConversation(rows, actor, cid, mode, requestedAt, at).rows == rows
  {
    DeletionRecovery.DeleteOutcome(rows, actor, cid, mode, requestedAt, at);
    hide ConversationOk, CompleteDeletion;
  }

  lemma ReadKeepsWaiting(mac: Fingerprint, d: Dispatch, rows: Rows, actor: Actor, cid: Id, at: int)
    requires WellFormed(mac, rows) && Live(rows, d)
    ensures KeepsWaiting(rows, GetConversation(rows, actor, cid, at).rows, d)
  {
    hide WellFormed, KeepsWaiting, ConversationOk, CompleteDeletion, AuditConversation;
    SameKeepsWaiting(rows, rows, d);
    if Owns(rows, actor, cid) && rows.conversations[cid].status == DeletionPending {
      R.StoredFits(mac, rows, cid);
      hide RecordFits;
      CompletedRows(rows, rows.conversations[cid], at);
      SameKeepsWaiting(rows, GetConversation(rows, actor, cid, at).rows, d);
    }
  }

  lemma RetryKeepsWaiting(mac: Fingerprint, d: Dispatch, rows: Rows, actor: Actor, cid: Id, of: Id, id: Id, q: TurnRequest, now: int)
    requires WellFormed(mac, rows) && Live(rows, d)
    ensures KeepsWaiting(rows, RetryTurn(mac, rows, actor, cid, of, id, q, now).rows, d)
  {
    hide WellFormed, KeepsWaiting, AppendTurn, LineageOk;
    SameKeepsWaiting(rows, rows, d);
    var target := FindTurn(TurnsOf(rows, cid), of);
    if target.Some? {
      var parent := target.value.lineage.parent;
      AppendKeepsWaiting(mac, d, rows, actor, cid, id, TurnLineage(parent, NextSibling(TurnsOf(rows, cid), parent), Retry), q, now);
    }
  }

  lemma BranchKeepsWaiting(mac: Fingerprint, d: Dispatch, rows: Rows, actor: Actor, cid: Id, parent: Id, id: Id, q: TurnRequest, now: int)
    requires WellFormed(mac, rows) && Live(rows, d)
    ensures KeepsWaiting(rows, BranchTurn(mac, rows, actor, cid, parent, id, q, now).rows, d)
  {
    hide WellFormed, KeepsWaiting, AppendTurn, LineageOk;
    SameKeepsWaiting(rows, rows, d);
    AppendKeepsWaiting(mac, d, rows, actor, cid, id,
                       TurnLineage(Some(parent), NextSibling(TurnsOf(rows, cid), Some(parent)), Branch), q, now);
  }

  lemma HarmlessKeeps(mac: Fingerprint, d: Dispatch, store: R.World, call: R.Call)
    requires R.Sane(mac, store) && R.Enabled(store, call) && Harmless(d, call) && Live(store.rows, d)
    ensures KeepsWaiting(store.rows, R.Step(mac, store, call).rows, d)
  {
    hide WellFormed, KeepsWaiting, AppendTurn, RetryTurn, BranchTurn, ChangeConversation, AdvanceTurnStatus, GetConversation,
      DeleteConversation, R.CutAppend, Create;
    var rows := store.rows;
    match call
    case Creating(_, id, _, _, _) =>
      CreatedElsewhere(mac, rows, call);
      SameKeepsWaiting(rows, R.Perform(mac, rows, call), d);
    case CrashedCreate(id) =>
      CreatedElsewhere(mac, rows, call);
      SameKeepsWaiting(rows, R.Perform(mac, rows, call), d);
    case Changing(actor, cid, change, now) => ChangeKeepsWaiting(mac, d, rows, actor, cid, change, now);
    case Appending(actor, cid, id, lineage, q, now) => AppendKeepsWaiting(mac, d, rows, actor, cid, id, lineage, q, now);
    case CrashedAppend(actor, cid, id, lineage, q, now) => AppendKeepsWaiting(mac, d, rows, actor, cid, id, lineage, q, now);
    case Retrying(actor, cid, of, id, q, now) => RetryKeepsWaiting(mac, d, rows, actor, cid, of, id, q, now);
    case Branching(actor, cid, parent, id, q, now) => BranchKeepsWaiting(mac, d, rows, actor, cid, parent, id, q, now);
    case Advancing(actor, cid, id, status, now) => AdvanceKeepsWaiting(mac, d, rows, actor, cid, id, status, now);
    case Reading(actor, cid, at) => ReadKeepsWaiting(mac, d, rows, actor, cid, at);
    case Deleting(actor, cid, mode, requestedAt, at) => DeleteKeepsWaiting(mac, d, rows, actor, cid, mode, requestedAt, at);
  }

  /** The conversation is live and the siblings from `settled` on are waiting. */
  ghost predicate Quiet(rows: Rows, d: Dispatch, settled: nat, forked: nat)
    requires forked <= |d.ids|
  {
    Live(rows, d) && forall k | settled <= k < forked :: Waits(rows.turns[d.cid], d, k)
  }

  lemma QuietLater(a: Rows, b: Rows, d: Dispatch, settled: nat, forked: nat)
    requires forked <= |d.ids| && Quiet(a, d, settled, forked) && KeepsWaiting(a, b, d)
    ensures Quiet(b, d, settled, forked)
  {
    var before, after := a.turns[d.cid], b.turns[d.cid];
    hide Waits, Live;
    forall k | settled <= k < forked ensures Waits(after, d, k) { assert Waits(before, d, k); }
  }

  /** Once a fork has been made the conversation is quiet, and only a fork can have been
      refused. */
  ghost predicate Calm(mac: Fingerprint, d: Dispatch, w: World)
    requires DispatchOk(d)
  {
    && Inv(mac, d, w) && (w.refused.Some? ==> w.forked < |d.ids|)
    && (w.forked > 0 ==> Quiet(w.store.rows, d, w.settled, w.forked))
  }

  predicate Undisturbed(d: Dispatch, a: Action) { a.Elsewhere? ==> Harmless(d, a.call) }

  lemma CalmElsewhere(mac: Fingerprint, d: Dispatch, w: World, call: R.Call)
    requires DispatchOk(d) && Calm(mac, d, w) && R.Enabled(w.store, call) && Harmless(d, call)
    ensures Calm(mac, d, w.(store := R.Step(mac, w.store, call)))
  {
    hide DispatchOk, Inv, Quiet, R.Step, R.Enabled, Harmless, R.Sane;
    StepInv(mac, d, w, Elsewhere(call));
    InvSane(mac, d, w);
    if w.forked > 0 {
      QuietIsLive(w.store.rows, d, w.settled, w.forked);
      HarmlessKeeps(mac, d, w.store, call);
      QuietLater(w.store.rows, R.Step(mac, w.store, call).rows, d, w.settled, w.forked);
    }
  }

  lemma QuietIsLive(rows: Rows, d: Dispatch, settled: nat, forked: nat)
    requires forked <= |d.ids| && Quiet(rows, d, settled, forked)
    ensures Live(rows, d)
    ensures settled < forked ==> Waits(rows.turns[d.cid], d, settled)
  { }

  lemma InvSane(mac: Fingerprint, d: Dispatch, w: World)
    requires DispatchOk(d) && Inv(mac, d, w)
    ensures R.Sane(mac, w.store) && w.settled <= w.forked <= |d.ids| && (w.settled > 0 ==> w.forked == |d.ids|)
  { }

  lemma CalmFork(mac: Fingerprint, d: Dispatch, w: World, now: int)
    requires DispatchOk(d) && Calm(mac, d, w) && Forking(d, w)
    ensures Calm(mac, d, Step(mac, d, w, Fork(now)))
  {
    var rows, w' := w.store.rows, Step(mac, d, w, Fork(now));
    hide DispatchOk, Inv, Quiet, R.Step, Step, BranchTurn, WellFormed;
    StepInv(mac, d, w, Fork(now));
    InvSane(mac, d, w);
    ForkStep(mac, d, w, now);
    if w.forked > 0 {
      QuietIsLive(rows, d, w.settled, w.forked);
      BranchKeepsWaiting(mac, d, rows, d.actor, d.cid, d.parent, d.ids[w.forked], d.q, now);
      QuietLater(rows, w'.store.rows, d, w.settled, w.forked);
    }
    if w'.refused.None? {
      ForkWaits(mac, d, rows, w.forked, now);
      OneMoreWaits(w'.store.rows, d, w.settled, w.forked);
    }
  }

  lemma OneMoreWaits(rows: Rows, d: Dispatch, settled: nat, forked: nat)
    requires forked < |d.ids| && Live(rows, d) && Waits(rows.turns[d.cid], d, forked)
    requires forked > 0 ==> Quiet(rows, d, settled, forked)
    ensures Quiet(rows, d, settled, forked + 1)
  {
    hide Waits, Live;
  }

  lemma ForkWaits(mac: Fingerprint, d: Dispatch, rows: Rows, n: nat, now: int)
    requires DispatchOk(d) && WellFormed(mac, rows) && n < |d.ids|
    requires BranchTurn(mac, rows, d.actor, d.cid, d.parent, d.ids[n], d.q, now).result.Ok?
    ensures var after := BranchTurn(mac, rows, d.actor, d.cid, d.parent, d.ids[n], d.q, now).rows;
            Live(after, d) && Waits(after.turns[d.cid], d, n)
  {
    hide WellFormed, BranchTurn;
    P.BranchFacts(mac, rows, d.actor, d.cid, d.parent, d.ids[n], d.q, now);
    var after := BranchTurn(mac, rows, d.actor, d.cid, d.parent, d.ids[n], d.q, now).rows;
    R.StoredFits(mac, after, d.cid);
    var turns := after.turns[d.cid];
    NewSibling(mac, d, n, NextSibling(TurnsOf(rows, d.cid), Some(d.parent)), now, turns);
    assert turns[|turns| - 1].id == d.ids[n];
  }

  lemma CalmSettle(mac: Fingerprint, d: Dispatch, w: World, now: int)
    requires DispatchOk(d) && Calm(mac, d, w) && SettlesNext(d, w)
    ensures Calm(mac, d, Step(mac, d, w, Settle(now))) && Step(mac, d, w, Settle(now)).settled == w.settled + 1
  {
    assert |d.ids| == |d.statuses|;
    var w' := Step(mac, d, w, Settle(now));
    hide Inv, Quiet, R.Step, Step, AdvanceTurnStatus, Live;
    StepInv(mac, d, w, Settle(now));
    InvSane(mac, d, w);
    SettleStep(mac, d, w, now);
    QuietIsLive(w.store.rows, d, w.settled, w.forked);
    SettlementRefusedExactly(mac, d, w, now);
    var i := SettledTurn(mac, d, w, now);
    QuietBehind(w.store.rows, d, w.settled, w.forked, i, w'.store.rows.turns[d.cid][i]);
  }

  lemma QuietBehind(rows: Rows, d: Dispatch, settled: nat, forked: nat, i: nat, t: Turn)
    requires DispatchOk(d) && settled < forked <= |d.ids| && Quiet(rows, d, settled, forked)
    requires i < |rows.turns[d.cid]| && rows.turns[d.cid][i].id == d.ids[settled]
    ensures Quiet(PutTurns(rows, d.cid, rows.turns[d.cid][i := t]), d, settled + 1, forked)
  {
    var a, b := rows.turns[d.cid], rows.turns[d.cid][i := t];
    forall k | settled + 1 <= k < forked ensures Waits(b, d, k) {
      assert Waits(a, d, k);
      var j :| 0 <= j < |a| && a[j].id == d.ids[k] && a[j].status == Streaming;
      assert d.ids[k] != d.ids[settled] && b[j] == a[j];
    }
  }

  function Settlements(actions: seq<Action>): nat
  {
    if actions == [] then 0 else (if actions[0].Settle? then 1 else 0) + Settlements(actions[1..])
  }

  lemma CalmStep(mac: Fingerprint, d: Dispatch, w: World, a: Action)
    requires DispatchOk(d) && Calm(mac, d, w) && Enabled(w, a) && Undisturbed(d, a)
    ensures Calm(mac, d, Step(mac, d, w, a))
    ensures w.forked == |d.ids| ==>
              Step(mac, d, w, a).forked == |d.ids|
              && Step(mac, d, w, a).settled == if a.Settle? && w.settled < |d.ids| then w.settled + 1 else w.settled
  {
    match a
    case Elsewhere(call) => CalmElsewhere(mac, d, w, call);
    case Fork(now) => if Forking(d, w) { CalmFork(mac, d, w, now); }
    case Settle(now) => if SettlesNext(d, w) { CalmSettle(mac, d, w, now); }
  }

  lemma {:induction false} RunCalm(mac: Fingerprint, d: Dispatch, w: World, actions: seq<Action>)
    requires DispatchOk(d) && Calm(mac, d, w) && Possible(mac, d, w, actions) && forall a | a in actions :: Undisturbed(d, a)
    ensures Calm(mac, d, Run(mac, d, w, actions))
    ensures w.forked == |d.ids| && w.settled <= |d.ids| ==>
              Run(mac, d, w, actions).forked == |d.ids|
              && Run(mac, d, w, actions).settled == if w.settled + Settlements(actions) < |d.ids|
                                                    then w.settled + Settlements(actions) else |d.ids|
    decreases |actions|
  {
    hide Calm, Step, Enabled, Undisturbed, DispatchOk;
    if actions != [] {
      assert actions[0] in actions && forall a | a in actions[1..] :: a in actions;
      CalmStep(mac, d, w, actions[0]);
      RunCalm(mac, d, Step(mac, d, w, actions[0]), actions[1..]);
    }
  }

  /** If in between nobody advances one of the siblings or deletes their conversation - every
      other request is free to come at any time - no settlement is ever refused: once all
      forks are made and the loop has come to its end, every sibling stands at the status of
      its own thread. */
  lemma SettlesUndisturbed(mac: Fingerprint, d: Dispatch, store: R.World, before: seq<Action>, later: seq<Action>)
    requires DispatchOk(d) && 0 < |d.ids| && R.Sane(mac, store)
    requires Possible(mac, d, World(store, 0, 0, None), before)
    requires Possible(mac, d, Run(mac, d, World(store, 0, 0, None), before), later)
    requires (forall a | a in before :: Undisturbed(d, a)) && forall a | a in later :: Undisturbed(d, a)
    requires Run(mac, d, World(store, 0, 0, None), before).forked == |d.ids| && Settlements(later) >= |d.ids|
    ensures var w := Run(mac, d, Run(mac, d, World(store, 0, 0, None), before), later);
            && w.refused.None? && w.settled == |d.ids| && d.cid in w.store.rows.turns
            && forall k | 0 <= k < |d.ids| :: Stands(w.store.rows.turns[d.cid], d, k, |d.ids|)
  {
    var w0 := World(store, 0, 0, None);
    var w1 := Run(mac, d, w0, before);
    assert Calm(mac, d, w0);
    hide Run, Possible, R.Sane, DispatchOk, Undisturbed, Inv, Waits;
    RunCalm(mac, d, w0, before);
    InvSane(mac, d, w1);
    hide Calm;
    RunCalm(mac, d, w1, later);
    AllStand(mac, d, Run(mac, d, w1, later));
  }

  lemma AllStand(mac: Fingerprint, d: Dispatch, w: World)
    requires DispatchOk(d) && 0 < |d.ids| && Calm(mac, d, w) && w.forked == w.settled == |d.ids|
    ensures w.refused.None? && d.cid in w.store.rows.turns
    ensures forall k | 0 <= k < |d.ids| :: Stands(w.store.rows.turns[d.cid], d, k, |d.ids|)
  {
    hide R.Sane, Stands, Waits, DispatchOk;
  }
}
