/** The sibling turns of a parallel dispatch (workbench/advanced_dispatch.py): refused
    before any effect or forked one by one, and settled once the attempts have joined. */
module ParallelSiblings {
  import opened Outcomes
  import opened ConversationModels
  import opened ConversationRows
  import opened StoreInvariants
  import opened ConversationStore
  import StoreRuns
  import AR = AdvancedRuntime
  import D = AdvancedDispatch
  import L = ResponseLifecycle

  // -- preflight ---------------------------------------------------------------------

  datatype RouteDispatch<C> = RouteDispatch(requestId: string, routeId: string, controls: C)

  datatype DispatchBudget = DispatchBudget(maxConcurrency: nat, maxTotalOutput: Option<nat>)

  datatype DispatchError =
    | NothingToDispatch | TooConcurrent | DuplicateRequestId | SelectionRefused | OverBudget
    | StoreRefused(error: StoreError)

  /** The fail-closed selection of a route and its controls. */
  type Selector<!C, S> = (string, C) -> Option<S>

  predicate RepeatedId<C>(ds: seq<RouteDispatch<C>>, i: nat)
    requires i < |ds|
  {
    exists j | 0 <= j < i :: ds[j].requestId == ds[i].requestId
  }

  /** What is wrong with the first dispatch, from `i` on, that has something wrong. */
  function Problem<C, S>(ds: seq<RouteDispatch<C>>, select: Selector<C, S>, i: nat): Option<DispatchError>
    requires i <= |ds|
    decreases |ds| - i
  {
    if i == |ds| then None
    else if RepeatedId(ds, i) then Some(DuplicateRequestId)
    else if select(ds[i].routeId, ds[i].controls).None? then Some(SelectionRefused)
    else Problem(ds, select, i + 1)
  }

  function Selections<C, S>(ds: seq<RouteDispatch<C>>, select: Selector<C, S>, n: nat): seq<S>
    requires n <= |ds|
  {
    if n == 0 then []
    else
      var s := select(ds[n - 1].routeId, ds[n - 1].controls);
      if s.Some? then Selections(ds, select, n - 1) + [s.value] else Selections(ds, select, n - 1)
  }

  function TotalOutput<S>(selections: seq<S>, output: S -> nat): nat
  {
    if selections == [] then 0
    else TotalOutput(selections[..|selections| - 1], output) + output(selections[|selections| - 1])
  }

  function PreflightVerdict<C, S>(ds: seq<RouteDispatch<C>>, select: Selector<C, S>, output: S -> nat, budget: DispatchBudget)
    : Result<seq<S>, DispatchError>
  {
    if ds == [] then Err(NothingToDispatch)
    else if |ds| > budget.maxConcurrency then Err(TooConcurrent)
    else if Problem(ds, select, 0).Some? then Err(Problem(ds, select, 0).value)
    else
      var selections := Selections(ds, select, |ds|);
      if budget.maxTotalOutput.Some? && TotalOutput(selections, output) > budget.maxTotalOutput.value then Err(OverBudget)
      else Ok(selections)
  }

  method Preflight<C, S>(ds: seq<RouteDispatch<C>>, select: Selector<C, S>, output: S -> nat, budget: DispatchBudget)
    returns (r: Result<seq<S>, DispatchError>)
    ensures r == PreflightVerdict(ds, select, output, budget)
  {
    if ds == [] { return Err(NothingToDispatch); }
    if |ds| > budget.maxConcurrency { return Err(TooConcurrent); }
    var seen: set<string> := {};
    var selections := [];
    var total := 0;
    for i := 0 to |ds|
      invariant forall id :: id in seen <==> exists j | 0 <= j < i :: ds[j].requestId == id
      invariant Problem(ds, select, 0) == Problem(ds, select, i)
      invariant selections == Selections(ds, select, i) && total == TotalOutput(selections, output)
    {
      if ds[i].requestId in seen { return Err(DuplicateRequestId); }
      seen := seen + {ds[i].requestId};
      var s := select(ds[i].routeId, ds[i].controls);
      if s.None? { return Err(SelectionRefused); }
      assert (selections + [s.value])[..|selections|] == selections;
      selections := selections + [s.value];
      total := total + output(s.value);
    }
    if budget.maxTotalOutput.Some? && total > budget.maxTotalOutput.value { return Err(OverBudget); }
    return Ok(selections);
  }

  lemma {:induction false} NoProblem<C, S>(ds: seq<RouteDispatch<C>>, select: Selector<C, S>, i: nat)
    requires i <= |ds|
    ensures Problem(ds, select, i).None? <==>
      forall k | i <= k < |ds| :: !RepeatedId(ds, k) && select(ds[k].routeId, ds[k].controls).Some?
    decreases |ds| - i
  {
    if i < |ds| { NoProblem(ds, select, i + 1); }
  }

  /** A dispatch is let through exactly when it names at least one and at most the
      declared number of routes, with pairwise distinct request ids, every selection
      allowed, and the requested output within the budget. */
  lemma PreflightAcceptsExactly<C, S>(ds: seq<RouteDispatch<C>>, select: Selector<C, S>, output: S -> nat, budget: DispatchBudget)
    ensures PreflightVerdict(ds, select, output, budget).Ok? <==>
      && 0 < |ds| <= budget.maxConcurrency
      && (forall i, j | 0 <= i < j < |ds| :: ds[i].requestId != ds[j].requestId)
      && (forall k | 0 <= k < |ds| :: select(ds[k].routeId, ds[k].controls).Some?)
      && (budget.maxTotalOutput.Some? ==> TotalOutput(Selections(ds, select, |ds|), output) <= budget.maxTotalOutput.value)
  {
    NoProblem(ds, select, 0);
    hide Problem, Selections, TotalOutput;
    if Problem(ds, select, 0).None? {
      forall i, j | 0 <= i < j < |ds| ensures ds[i].requestId != ds[j].requestId { assert !RepeatedId(ds, j); }
    } else {
      var k :| 0 <= k < |ds| && (RepeatedId(ds, k) || select(ds[k].routeId, ds[k].controls).None?);
    }
  }

  /** The total is the sum of what each selection asks for. */
  lemma {:induction false} TotalIsSum<S>(a: seq<S>, b: seq<S>, s: S, output: S -> nat)
    ensures TotalOutput([], output) == 0 && TotalOutput([s], output) == output(s)
    ensures TotalOutput(a + b, output) == TotalOutput(a, output) + TotalOutput(b, output)
    decreases |b|
  {
    assert [s][..0] == [];
    if b == [] {
      assert a + b == a;
    } else {
      assert (a + b)[..|a + b| - 1] == a + b[..|b| - 1];
      TotalIsSum(a, b[..|b| - 1], s, output);
    }
  }

  lemma {:induction false} SelectionsAt<C, S>(ds: seq<RouteDispatch<C>>, select: Selector<C, S>, n: nat)
    requires n <= |ds| && forall k | 0 <= k < n :: select(ds[k].routeId, ds[k].controls).Some?
    ensures |Selections(ds, select, n)| == n
    ensures forall k | 0 <= k < n :: Some(Selections(ds, select, n)[k]) == select(ds[k].routeId, ds[k].controls)
  {
    if n > 0 { SelectionsAt(ds, select, n - 1); }
  }

  lemma {:induction false} FirstProblem<C, S>(ds: seq<RouteDispatch<C>>, select: Selector<C, S>, i: nat, k: nat)
    requires i <= k < |ds| && forall j | i <= j < k :: !RepeatedId(ds, j) && select(ds[j].routeId, ds[j].controls).Some?
    requires RepeatedId(ds, k) || select(ds[k].routeId, ds[k].controls).None?
    ensures Problem(ds, select, i) == Some(if RepeatedId(ds, k) then DuplicateRequestId else SelectionRefused)
    decreases k - i
  {
    if i < k { FirstProblem(ds, select, i + 1, k); }
  }

  /** What a preflight returns: an accepted one the selection of every route, in order; a
      refused one the first thing wrong - nothing to do, too many routes, the first route
      that repeats an id or is not allowed, or a requested total, the sum over all routes,
      above the budget. */
  lemma PreflightReturns<C, S>(ds: seq<RouteDispatch<C>>, select: Selector<C, S>, output: S -> nat, budget: DispatchBudget)
    ensures var r := PreflightVerdict(ds, select, output, budget);
            && (r.Ok? ==> |r.value| == |ds| && (forall k | 0 <= k < |ds| :: Some(r.value[k]) == select(ds[k].routeId, ds[k].controls))
                          && (budget.maxTotalOutput.Some? ==> TotalOutput(r.value, output) <= budget.maxTotalOutput.value))
            && (r == Err(NothingToDispatch) <==> ds == [])
            && (r == Err(TooConcurrent) <==> ds != [] && |ds| > budget.maxConcurrency)
            && (r == Err(DuplicateRequestId)
                <==> (0 < |ds| <= budget.maxConcurrency
                      && exists k :: 0 <= k < |ds| && RepeatedId(ds, k) && CleanBefore(ds, select, k)))
            && (r == Err(SelectionRefused)
                <==> (0 < |ds| <= budget.maxConcurrency
                      && exists k :: 0 <= k < |ds| && !RepeatedId(ds, k) && CleanBefore(ds, select, k)
                                     && select(ds[k].routeId, ds[k].controls).None?))
            && (r == Err(OverBudget) ==> budget.maxTotalOutput.Some? && |ds| <= budget.maxConcurrency)
  {
    NoProblem(ds, select, 0);
    hide Problem, Selections, TotalOutput, RepeatedId;
    forall k | 0 <= k < |ds| && (RepeatedId(ds, k) || select(ds[k].routeId, ds[k].controls).None?) && CleanBefore(ds, select, k)
      ensures Problem(ds, select, 0) == Some(if RepeatedId(ds, k) then DuplicateRequestId else SelectionRefused)
    {
      FirstProblem(ds, select, 0, k);
    }
    if Problem(ds, select, 0).None? {
      SelectionsAt(ds, select, |ds|);
    } else {
      var k := LeastProblem(ds, select, 0);
    }
  }

  ghost predicate CleanBefore<C, S>(ds: seq<RouteDispatch<C>>, select: Selector<C, S>, k: nat)
    requires k <= |ds|
  {
    forall j | 0 <= j < k :: !RepeatedId(ds, j) && select(ds[j].routeId, ds[j].controls).Some?
  }

  lemma {:induction false} LeastProblem<C, S>(ds: seq<RouteDispatch<C>>, select: Selector<C, S>, i: nat) returns (k: nat)
    requires i <= |ds| && Problem(ds, select, i).Some? && CleanBefore(ds, select, i)
    ensures k < |ds| && CleanBefore(ds, select, k) && (RepeatedId(ds, k) || select(ds[k].routeId, ds[k].controls).None?)
    decreases |ds| - i
  {
    k := i;
    if !RepeatedId(ds, i) && select(ds[i].routeId, ds[i].controls).Some? { k := LeastProblem(ds, select, i + 1); }
  }

  // -- forking ----------------------------------------------------------------------------

  /** Rows after some forks or settlements, and the refusal that stopped them, if any. */
  datatype Progress = Progress(rows: Rows, refused: Option<StoreError>)

  function ForkAll(mac: Fingerprint, rows: Rows, actor: Actor, cid: Id, parent: Id, q: TurnRequest, ids: seq<Id>,
                   now: int, n: nat): Progress
    requires n <= |ids|
  {
    if n == 0 then Progress(rows, None)
    else
      var before := ForkAll(mac, rows, actor, cid, parent, q, ids, now, n - 1);
      if before.refused.Some? then before
      else
        var fork := BranchTurn(mac, before.rows, actor, cid, parent, ids[n - 1], q, now);
        if fork.result.Err? then Progress(fork.rows, Some(fork.result.error)) else Progress(fork.rows, None)
  }

  /** The n-th fork under `parent`, given where the first one goes. */
  function Sibling(mac: Fingerprint, cid: Id, parent: Id, q: TurnRequest, ids: seq<Id>, now: int, first: int, n: nat): Turn
    requires n < |ids|
  {
    MakeTurn(mac, cid, ids[n], TurnLineage(Some(parent), first + n, Branch), q, now)
  }

  function Siblings(mac: Fingerprint, cid: Id, parent: Id, q: TurnRequest, ids: seq<Id>, now: int, first: int, n: nat): seq<Turn>
    requires n <= |ids|
  {
    seq(n, k requires 0 <= k < n => Sibling(mac, cid, parent, q, ids, now, first, k))
  }

  lemma {:induction false} NextSiblingNatural(turns: seq<Turn>, parent: Option<Id>)
    ensures NextSibling(turns, parent) >= 0
  {
    if turns != [] { NextSiblingNatural(turns[1..], parent); }
  }

  lemma {:induction false} NextSiblingAppend(turns: seq<Turn>, t: Turn, parent: Option<Id>)
    requires t.lineage.parent == parent && t.lineage.sibling >= NextSibling(turns, parent)
    ensures NextSibling(turns + [t], parent) == t.lineage.sibling + 1
  {
    NextSiblingNatural(turns, parent);
    if turns != [] {
      assert (turns + [t])[1..] == turns[1..] + [t];
      NextSiblingAppend(turns[1..], t, parent);
    } else {
      assert [t][1..] == [];
    }
  }

  lemma BranchFacts(mac: Fingerprint, rows: Rows, actor: Actor, cid: Id, parent: Id, id: Id, q: TurnRequest, now: int)
    requires WellFormed(mac, rows) && BranchTurn(mac, rows, actor, cid, parent, id, q, now).result.Ok?
    ensures var turn := MakeTurn(mac, cid, id, TurnLineage(Some(parent), NextSibling(TurnsOf(rows, cid), Some(parent)), Branch), q, now);
            var after := BranchTurn(mac, rows, actor, cid, parent, id, q, now).rows;
            && WellFormed(mac, after) && Owns(after, actor, cid) && after.conversations[cid].status == Active
            && cid in rows.turns && TurnsOf(after, cid) == rows.turns[cid] + [turn]
  {
    hide WellFormed, AppendTurn, LineageOk, FindTurn, NextSibling, GateVerdict, UniverseOf, TurnOk;
    var lineage := TurnLineage(Some(parent), NextSibling(TurnsOf(rows, cid), Some(parent)), Branch);
    AppendFacts(mac, rows, actor, cid, id, lineage, q, now);
    AppendKeeps(mac, rows, actor, cid, id, lineage, q, now);
    StoreRuns.StoredFits(mac, rows, cid);
    ActiveWhenAppended(rows, actor, cid, MakeTurn(mac, cid, id, lineage, q, now));
  }

  lemma ActiveWhenAppended(rows: Rows, actor: Actor, cid: Id, turn: Turn)
    requires Owns(rows, actor, cid) && GateVerdict(rows.conversations[cid], Universe(rows, actor), turn).Ok?
    ensures rows.conversations[cid].status == Active
  { }

  /** If all forks succeed, they are appended in order, streaming, under one parent,
      at consecutive sibling indices above every index in use. */
  lemma {:induction false} ForksAreDistinct(mac: Fingerprint, rows: Rows, actor: Actor, cid: Id, parent: Id, q: TurnRequest,
                                            ids: seq<Id>, now: int, n: nat)
    requires WellFormed(mac, rows) && n <= |ids| && ForkAll(mac, rows, actor, cid, parent, q, ids, now, n).refused.None?
    ensures var after := ForkAll(mac, rows, actor, cid, parent, q, ids, now, n).rows;
            var first := NextSibling(TurnsOf(rows, cid), Some(parent));
            && WellFormed(mac, after)
            && (n > 0 ==> Owns(after, actor, cid) && after.conversations[cid].status == Active)
            && TurnsOf(after, cid) == TurnsOf(rows, cid) + Siblings(mac, cid, parent, q, ids, now, first, n)
            && NextSibling(TurnsOf(after, cid), Some(parent)) == first + n
  {
    hide WellFormed, BranchTurn, NextSibling, MakeTurn;
    var first := NextSibling(TurnsOf(rows, cid), Some(parent));
    if n > 0 {
      ForksAreDistinct(mac, rows, actor, cid, parent, q, ids, now, n - 1);
      var before := ForkAll(mac, rows, actor, cid, parent, q, ids, now, n - 1).rows;
      BranchFacts(mac, before, actor, cid, parent, ids[n - 1], q, now);
      var turn := Sibling(mac, cid, parent, q, ids, now, first, n - 1);
      MadeAt(mac, cid, ids[n - 1], TurnLineage(Some(parent), first + n - 1, Branch), q, now);
      NextSiblingAppend(TurnsOf(before, cid), turn, Some(parent));
      assert Siblings(mac, cid, parent, q, ids, now, first, n) == Siblings(mac, cid, parent, q, ids, now, first, n - 1) + [turn];
    }
  }

  lemma MadeAt(mac: Fingerprint, cid: Id, id: Id, lineage: TurnLineage, q: TurnRequest, now: int)
    ensures var t := MakeTurn(mac, cid, id, lineage, q, now); t.id == id && t.lineage == lineage
  { }

  // -- settling ------------------------------------------------------------------------------

  function SettleAll(rows: Rows, actor: Actor, cid: Id, ids: seq<Id>, statuses: seq<TurnStatus>, now: int, n: nat): Progress
    requires n <= |ids| == |statuses|
  {
    if n == 0 then Progress(rows, None)
    else
      var before := SettleAll(rows, actor, cid, ids, statuses, now, n - 1);
      if before.refused.Some? then before
      else
        var settled := AdvanceTurnStatus(before.rows, actor, cid, ids[n - 1], statuses[n - 1], now);
        if settled.result.Err? then Progress(settled.rows, Some(settled.result.error)) else Progress(settled.rows, None)
  }

  /** `all` with the first `n` of the streaming turns from `base` on advanced. */
  function Advanced(all: seq<Turn>, base: nat, statuses: seq<TurnStatus>, now: int, n: nat): seq<Turn>
    requires n <= |statuses|
  {
    seq(|all|, k requires 0 <= k < |all| =>
      if base <= k < base + n then all[k].(status := statuses[k - base], completedAt := Some(now)) else all[k])
  }

  lemma AdvanceAt(mac: Fingerprint, rows: Rows, actor: Actor, cid: Id, i: nat, status: TurnStatus, now: int)
    requires WellFormed(mac, rows) && Owns(rows, actor, cid) && Listable(rows.conversations[cid].status)
    requires i < |rows.turns[cid]| && rows.turns[cid][i].status == Streaming && Terminal(status)
    ensures var reply := AdvanceTurnStatus(rows, actor, cid, rows.turns[cid][i].id, status, now);
            && reply.result.Ok? && WellFormed(mac, reply.rows)
            && reply.rows == PutTurns(rows, cid, rows.turns[cid][i := rows.turns[cid][i].(status := status, completedAt := Some(now))])
  {
    var turns, id := rows.turns[cid], rows.turns[cid][i].id;
    assert HistoryOk(mac, cid, turns) && TurnFine(mac, turns[i]);
    AdvanceKeeps(mac, rows, actor, cid, id, status, now);
    hide WellFormed, TurnOk, TreeRows;
    FindTurnUnique(mac, cid, turns, i);
    var k := FindTurnAt(turns, id);
    assert k == i by { SameIndex(mac, cid, turns, i, k); }
    hide FindTurn, ReplaceTurn;
  }

  lemma {:induction false} FindTurnExists(turns: seq<Turn>, i: nat)
    requires i < |turns|
    ensures FindTurn(turns, turns[i].id).Some?
  {
    if i > 0 { FindTurnExists(turns[1..], i - 1); }
  }

  lemma FindTurnUnique(mac: Fingerprint, cid: Id, turns: seq<Turn>, i: nat)
    requires HistoryOk(mac, cid, turns) && i < |turns|
    ensures FindTurn(turns, turns[i].id) == Some(turns[i])
  {
    FindTurnExists(turns, i);
    var k := FindTurnAt(turns, turns[i].id);
    SameIndex(mac, cid, turns, i, k);
  }

  lemma SameIndex(mac: Fingerprint, cid: Id, turns: seq<Turn>, i: nat, k: nat)
    requires HistoryOk(mac, cid, turns) && i < |turns| && k < |turns| && turns[i].id == turns[k].id
    ensures i == k
  { }

  /** The last turns are the ones with these ids, all streaming. */
  ghost predicate Await(all: seq<Turn>, base: nat, ids: seq<Id>)
  {
    base + |ids| == |all| && forall k | 0 <= k < |ids| :: all[base + k].id == ids[k] && all[base + k].status == Streaming
  }

  /** Every sibling turn settles, once, at its own attempt's status; no other turn of
      the conversation changes. */
  lemma {:induction false} SiblingsSettle(mac: Fingerprint, rows: Rows, actor: Actor, cid: Id, base: nat, ids: seq<Id>,
                                          statuses: seq<TurnStatus>, now: int, n: nat)
    requires WellFormed(mac, rows) && Owns(rows, actor, cid) && Listable(rows.conversations[cid].status)
    requires n <= |ids| == |statuses| && cid in rows.turns && Await(rows.turns[cid], base, ids)
    requires forall k | 0 <= k < |ids| :: Terminal(statuses[k])
    ensures SettleAll(rows, actor, cid, ids, statuses, now, n)
            == Progress(PutTurns(rows, cid, Advanced(rows.turns[cid], base, statuses, now, n)), None)
    ensures WellFormed(mac, SettleAll(rows, actor, cid, ids, statuses, now, n).rows)
  {
    hide WellFormed, AdvanceTurnStatus, Advanced, Await;
    var all := rows.turns[cid];
    if n == 0 {
      NoneAdvanced(rows, cid, base, statuses, now);
    } else {
      AwaitAt(all, base, ids, n - 1);
      SiblingsSettle(mac, rows, actor, cid, base, ids, statuses, now, n - 1);
      AdvancedNext(all, base, statuses, now, n);
      hide SettleAll;
      SettleUnfolds(rows, actor, cid, ids, statuses, now, n);
      SettleOne(mac, rows, actor, cid, base + n - 1, Advanced(all, base, statuses, now, n - 1), statuses[n - 1], now);
    }
  }

  lemma AwaitAt(all: seq<Turn>, base: nat, ids: seq<Id>, k: nat)
    requires Await(all, base, ids) && k < |ids|
    ensures base + k < |all| && all[base + k].id == ids[k] && all[base + k].status == Streaming
  { }

  lemma SettleUnfolds(rows: Rows, actor: Actor, cid: Id, ids: seq<Id>, statuses: seq<TurnStatus>, now: int, n: nat)
    requires 0 < n <= |ids| == |statuses| && SettleAll(rows, actor, cid, ids, statuses, now, n - 1).refused.None?
    ensures var settled := AdvanceTurnStatus(SettleAll(rows, actor, cid, ids, statuses, now, n - 1).rows, actor, cid,
                                             ids[n - 1], statuses[n - 1], now);
            settled.result.Ok? ==> SettleAll(rows, actor, cid, ids, statuses, now, n) == Progress(settled.rows, None)
  {
    hide AdvanceTurnStatus;
  }

  lemma NoneAdvanced(rows: Rows, cid: Id, base: nat, statuses: seq<TurnStatus>, now: int)
    requires cid in rows.turns
    ensures PutTurns(rows, cid, Advanced(rows.turns[cid], base, statuses, now, 0)) == rows
  {
    assert Advanced(rows.turns[cid], base, statuses, now, 0) == rows.turns[cid];
  }

  lemma AdvancedNext(all: seq<Turn>, base: nat, statuses: seq<TurnStatus>, now: int, n: nat)
    requires 0 < n <= |statuses| && base + n <= |all|
    ensures var i, before := base + n - 1, Advanced(all, base, statuses, now, n - 1);
            && |before| == |all| && before[i] == all[i]
            && Advanced(all, base, statuses, now, n) == before[i := all[i].(status := statuses[n - 1], completedAt := Some(now))]
  { }

  lemma SettleOne(mac: Fingerprint, rows: Rows, actor: Actor, cid: Id, i: nat, turns: seq<Turn>, status: TurnStatus, now: int)
    requires WellFormed(mac, PutTurns(rows, cid, turns)) && Owns(rows, actor, cid) && Listable(rows.conversations[cid].status)
    requires i < |turns| && turns[i].status == Streaming && Terminal(status)
    ensures var reply := AdvanceTurnStatus(PutTurns(rows, cid, turns), actor, cid, turns[i].id, status, now);
            && reply.result.Ok? && WellFormed(mac, reply.rows)
            && reply.rows == PutTurns(rows, cid, turns[i := turns[i].(status := status, completedAt := Some(now))])
  {
    hide WellFormed, AdvanceTurnStatus;
    AdvanceAt(mac, PutTurns(rows, cid, turns), actor, cid, i, status, now);
  }

  // -- the dispatch -----------------------------------------------------------------------------

  /** An attempt that raised settles its own sibling as failed. */
  function StatusOf(joined: Result<AR.AdvancedResult, AR.AttemptError>): TurnStatus
  {
    if joined.Ok? then joined.value.turnStatus else Failed
  }

  function StatusesOf(joined: seq<Result<AR.AdvancedResult, AR.AttemptError>>): seq<TurnStatus>
  {
    seq(|joined|, k requires 0 <= k < |joined| => StatusOf(joined[k]))
  }

  predicate Joinable(joined: Result<AR.AdvancedResult, AR.AttemptError>)
  {
    joined.Ok? ==> Terminal(joined.value.turnStatus)
  }

  /** `dispatch_parallel`.  `joined[k]` is what thread k left in its slot of `results` or
      `errors` when it was joined; `ids` are the fresh turn ids. */
  method DispatchParallel<C, S>(
      store: MemoryConversationStore, actor: Actor, cid: Id, parent: Id, ds: seq<RouteDispatch<C>>,
      select: Selector<C, S>, output: S -> nat, budget: DispatchBudget, q: TurnRequest, ids: seq<Id>, forkedAt: int,
      joined: seq<Result<AR.AdvancedResult, AR.AttemptError>>, settledAt: int)
    returns (r: Result<seq<TurnStatus>, DispatchError>)
    requires store.Valid() && |ids| == |joined| == |ds| && q.status == Streaming
    requires forall k | 0 <= k < |joined| :: Joinable(joined[k])
    modifies store
    ensures store.Valid()
    ensures PreflightVerdict(ds, select, output, budget).Err? ==>
              && r == Err(PreflightVerdict(ds, select, output, budget).error)
              && store.View() == old(store.View()) && store.audit == old(store.audit)
    ensures PreflightVerdict(ds, select, output, budget).Ok? ==>
              var forked := ForkAll(store.mac, old(store.View()), actor, cid, parent, q, ids, forkedAt, |ids|);
              if forked.refused.Some? then r == Err(StoreRefused(forked.refused.value)) && store.View() == forked.rows
              else
                var first := NextSibling(TurnsOf(old(store.View()), cid), Some(parent));
                var before := TurnsOf(old(store.View()), cid);
                && r == Ok(StatusesOf(joined))
                && TurnsOf(store.View(), cid)
                   == before + Advanced(Siblings(store.mac, cid, parent, q, ids, forkedAt, first, |ids|), 0,
                                        StatusesOf(joined), settledAt, |ids|)
  {
    var preflight := Preflight(ds, select, output, budget);
    if preflight.Err? { return Err(preflight.error); }
    hide WellFormed, PreflightVerdict, NextSibling, Siblings, Advanced, ForkAll, SettleAll, TurnsOf;
    PreflightNonEmpty(ds, select, output, budget);
    ghost var rows := store.View();
    var refused := ForkSiblings(store, actor, cid, parent, q, ids, forkedAt);
    if refused.Some? { return Err(StoreRefused(refused.value)); }
    var statuses := StatusesOf(joined);
    StatusesTerminal(joined);
    SettleSiblings(store, actor, cid, parent, q, ids, forkedAt, statuses, settledAt, rows);
    return Ok(statuses);
  }

  /** The turns are forked one after the other, so each draws its own sibling index. */
  method ForkSiblings(store: MemoryConversationStore, actor: Actor, cid: Id, parent: Id, q: TurnRequest, ids: seq<Id>, now: int)
    returns (refused: Option<StoreError>)
    requires store.Valid()
    modifies store
    ensures store.Valid()
    ensures ForkAll(store.mac, old(store.View()), actor, cid, parent, q, ids, now, |ids|) == Progress(store.View(), refused)
  {
    ghost var rows := store.View();
    hide WellFormed, BranchTurn;
    for i := 0 to |ids|
      invariant store.Valid()
      invariant ForkAll(store.mac, rows, actor, cid, parent, q, ids, now, i) == Progress(store.View(), None)
    {
      ForkStops(store.mac, rows, actor, cid, parent, q, ids, now, i);
      hide ForkAll;
      var fork := store.BranchTurn(actor, cid, parent, ids[i], q, now);
      if fork.Err? { return Some(fork.error); }
    }
    return None;
  }

  method SettleSiblings(store: MemoryConversationStore, actor: Actor, cid: Id, parent: Id, q: TurnRequest, ids: seq<Id>,
                        forkedAt: int, statuses: seq<TurnStatus>, now: int, ghost rows: Rows)
    requires store.Valid() && WellFormed(store.mac, rows) && ids != [] && |ids| == |statuses| && q.status == Streaming
    requires ForkAll(store.mac, rows, actor, cid, parent, q, ids, forkedAt, |ids|) == Progress(store.View(), None)
    requires forall k | 0 <= k < |statuses| :: Terminal(statuses[k])
    modifies store
    ensures store.Valid()
    ensures var first := NextSibling(TurnsOf(rows, cid), Some(parent));
            TurnsOf(store.View(), cid)
            == TurnsOf(rows, cid)
               + Advanced(Siblings(store.mac, cid, parent, q, ids, forkedAt, first, |ids|), 0, statuses, now, |ids|)
  {
    hide WellFormed, ForkAll, AdvanceTurnStatus, NextSibling, Siblings, Advanced, Await;
    ghost var forked := store.View();
    ghost var base, first := |TurnsOf(rows, cid)|, NextSibling(TurnsOf(rows, cid), Some(parent));
    ForksAreDistinct(store.mac, rows, actor, cid, parent, q, ids, forkedAt, |ids|);
    SiblingCount(store.mac, cid, parent, q, ids, forkedAt, first);
    StoreRuns.StoredFits(store.mac, forked, cid);
    ReadyToSettle(store.mac, forked, cid, parent, q, ids, forkedAt, first, TurnsOf(rows, cid));
    for i := 0 to |ids|
      invariant store.Valid()
      invariant SettleAll(forked, actor, cid, ids, statuses, now, i) == Progress(store.View(), None)
    {
      SiblingsSettle(store.mac, forked, actor, cid, base, ids, statuses, now, i + 1);
      SettleNext(forked, actor, cid, ids, statuses, now, i);
      hide SettleAll;
      var settled := store.AdvanceTurnStatus(actor, cid, ids[i], statuses[i], now);
    }
    SiblingsSettle(store.mac, forked, actor, cid, base, ids, statuses, now, |ids|);
    AdvancedTail(TurnsOf(rows, cid), Siblings(store.mac, cid, parent, q, ids, forkedAt, first, |ids|), statuses, now);
  }

  lemma SiblingCount(mac: Fingerprint, cid: Id, parent: Id, q: TurnRequest, ids: seq<Id>, now: int, first: int)
    ensures |Siblings(mac, cid, parent, q, ids, now, first, |ids|)| == |ids|
  { }

  lemma SettleNext(rows: Rows, actor: Actor, cid: Id, ids: seq<Id>, statuses: seq<TurnStatus>, now: int, i: nat)
    requires i < |ids| == |statuses| && SettleAll(rows, actor, cid, ids, statuses, now, i + 1).refused.None?
    ensures SettleAll(rows, actor, cid, ids, statuses, now, i).refused.None?
    ensures SettleAll(rows, actor, cid, ids, statuses, now, i + 1).rows
            == AdvanceTurnStatus(SettleAll(rows, actor, cid, ids, statuses, now, i).rows, actor, cid, ids[i], statuses[i], now).rows
  {
    hide AdvanceTurnStatus;
  }

  lemma PreflightNonEmpty<C, S>(ds: seq<RouteDispatch<C>>, select: Selector<C, S>, output: S -> nat, budget: DispatchBudget)
    requires PreflightVerdict(ds, select, output, budget).Ok?
    ensures ds != []
  { }

  lemma {:induction false} ForkStuck(mac: Fingerprint, rows: Rows, actor: Actor, cid: Id, parent: Id, q: TurnRequest,
                                     ids: seq<Id>, now: int, i: nat, n: nat)
    requires i <= n <= |ids| && ForkAll(mac, rows, actor, cid, parent, q, ids, now, i).refused.Some?
    ensures ForkAll(mac, rows, actor, cid, parent, q, ids, now, n) == ForkAll(mac, rows, actor, cid, parent, q, ids, now, i)
  {
    hide BranchTurn;
    if i < n { ForkStuck(mac, rows, actor, cid, parent, q, ids, now, i, n - 1); }
  }

  lemma ForkStops(mac: Fingerprint, rows: Rows, actor: Actor, cid: Id, parent: Id, q: TurnRequest, ids: seq<Id>, now: int, i: nat)
    requires i < |ids| && ForkAll(mac, rows, actor, cid, parent, q, ids, now, i).refused.None?
    ensures var before := ForkAll(mac, rows, actor, cid, parent, q, ids, now, i).rows;
            var fork := BranchTurn(mac, before, actor, cid, parent, ids[i], q, now);
            && (fork.result.Ok? ==> ForkAll(mac, rows, actor, cid, parent, q, ids, now, i + 1) == Progress(fork.rows, None))
            && (fork.result.Err? ==> ForkAll(mac, rows, actor, cid, parent, q, ids, now, |ids|)
                                     == Progress(fork.rows, Some(fork.result.error)))
  {
    hide BranchTurn;
    if BranchTurn(mac, ForkAll(mac, rows, actor, cid, parent, q, ids, now, i).rows, actor, cid, parent, ids[i], q, now).result.Err? {
      ForkStuck(mac, rows, actor, cid, parent, q, ids, now, i + 1, |ids|);
    }
  }

  lemma ReadyToSettle(mac: Fingerprint, rows: Rows, cid: Id, parent: Id, q: TurnRequest, ids: seq<Id>, now: int, first: int,
                      before: seq<Turn>)
    requires q.status == Streaming && TurnsOf(rows, cid) == before + Siblings(mac, cid, parent, q, ids, now, first, |ids|)
    ensures Await(TurnsOf(rows, cid), |before|, ids)
  {
    forall k | 0 <= k < |ids|
      ensures TurnsOf(rows, cid)[|before| + k].id == ids[k] && TurnsOf(rows, cid)[|before| + k].status == Streaming
    {
      assert TurnsOf(rows, cid)[|before| + k] == Sibling(mac, cid, parent, q, ids, now, first, k);
    }
  }

  lemma StatusesTerminal(joined: seq<Result<AR.AdvancedResult, AR.AttemptError>>)
    requires forall k | 0 <= k < |joined| :: Joinable(joined[k])
    ensures forall k | 0 <= k < |joined| :: Terminal(StatusesOf(joined)[k])
  {
    forall k | 0 <= k < |joined| ensures Terminal(StatusesOf(joined)[k]) { assert Joinable(joined[k]); }
  }

  lemma AdvancedTail(before: seq<Turn>, forks: seq<Turn>, statuses: seq<TurnStatus>, now: int)
    requires |forks| == |statuses|
    ensures Advanced(before + forks, |before|, statuses, now, |statuses|) == before + Advanced(forks, 0, statuses, now, |statuses|)
    ensures |Advanced(forks, 0, statuses, now, |statuses|)| == |forks|
  { }

  /** What a thread leaves is always something its sibling can settle at. */
  lemma AloneIsJoinable(a: AR.Attempt)
    ensures Joinable(AR.Alone(a))
  {
    hide AR.Alone;
    if AR.Alone(a).Ok? { AloneStatus(a); }
  }

  lemma AloneStatus(a: AR.Attempt)
    requires AR.Alone(a).Ok?
    ensures Terminal(AR.Alone(a).value.turnStatus)
  {
    AR.CompleteTogether(AR.Alone(a).value.state);
    hide AR.SettledState, AR.Verdict, AR.UsageOf, AR.DeltaCount, AR.SawMalformed;
  }

  // -- the dispatch as a whole ----------------------------------------------------------------

  /** What the threads left when they were joined. */
  function JoinedOf(w: D.World): seq<Result<AR.AdvancedResult, AR.AttemptError>>
    requires forall k | 0 <= k < |w.threads| :: w.threads[k].Finished?
  {
    seq(|w.threads|, k requires 0 <= k < |w.threads| => w.threads[k].result)
  }

  /** The n-th turn after `base` is the n-th fork, settled at the status of what its thread left. */
  predicate SettledSibling(all: seq<Turn>, base: nat, parent: Id, first: int, n: nat, id: Id, left: Result<AR.AdvancedResult, AR.AttemptError>)
  {
    && base + n < |all|
    && var t := all[base + n];
       t.id == id && t.lineage == TurnLineage(Some(parent), first + n, Branch) && Terminal(t.status)
       && t.status == (if left.Ok? then left.value.turnStatus else Failed)
  }

  /** However the attempts interleave, over any lifecycle rows, given that all forks succeed
      and every attempt gets its turns: every sibling turn has its own index under the parent
      and settles, exactly once, at the terminal status of its own attempt's outcome - which
      is what that attempt gives alone, unless its request is refused or the sequence runs
      out; no other turn changes. */
  lemma DispatchSettlesEachAlone(
      mac: Fingerprint, rows: Rows, actor: Actor, cid: Id, parent: Id, q: TurnRequest, ids: seq<Id>, forkedAt: int,
      responses: L.LifecycleRows, tasks: seq<D.Task>, schedule: seq<nat>, settledAt: int)
    requires WellFormed(mac, rows) && q.status == Streaming && 0 < |ids| == |tasks|
    requires ForkAll(mac, rows, actor, cid, parent, q, ids, forkedAt, |ids|).refused.None?
    requires D.DistinctIds(tasks) && (forall i | i in schedule :: i < |tasks|)
    requires forall i | 0 <= i < |tasks| :: D.Turns(schedule, i) >= 2 * |D.EventsOf(tasks[i])| + 2
    ensures var w := D.Interleave(actor, cid, tasks, D.Start(responses, |tasks|), schedule);
            var before, first := TurnsOf(rows, cid), NextSibling(TurnsOf(rows, cid), Some(parent));
            var forked := ForkAll(mac, rows, actor, cid, parent, q, ids, forkedAt, |ids|).rows;
            && |w.threads| == |ids| && (forall k | 0 <= k < |w.threads| :: w.threads[k].Finished?)
            && var settled := SettleAll(forked, actor, cid, ids, StatusesOf(JoinedOf(w)), settledAt, |ids|);
            && settled.refused.None? && WellFormed(mac, settled.rows)
            && |TurnsOf(settled.rows, cid)| == |before| + |ids| && TurnsOf(settled.rows, cid)[..|before|] == before
            && forall k | 0 <= k < |ids| ::
                 && SettledSibling(TurnsOf(settled.rows, cid), |before|, parent, first, k, ids[k], w.threads[k].result)
                 && D.Outcome(responses, actor, cid, tasks[k], D.HasRoom(responses, cid, tasks), w.threads[k].result)
  {
    hide WellFormed, ForkAll, SettleAll, NextSibling, D.Outcome, D.Interleave, D.EventsOf, D.TotalEvents, D.HasRoom, D.Turns, D.SettledAt;
    D.AttemptsAreIsolated(responses, actor, cid, tasks, schedule);
    var w := D.Interleave(actor, cid, tasks, D.Start(responses, |tasks|), schedule);
    var joined := JoinedOf(w);
    forall k | 0 <= k < |joined| ensures Joinable(joined[k]) {
      OutcomeIsJoinable(responses, actor, cid, tasks[k], D.HasRoom(responses, cid, tasks), joined[k]);
    }
    StatusesTerminal(joined);
    SettledForks(mac, rows, actor, cid, parent, q, ids, forkedAt, joined, settledAt);
  }

  lemma OutcomeIsJoinable(responses: L.LifecycleRows, actor: Actor, cid: Id, t: D.Task, room: bool,
                          result: Result<AR.AdvancedResult, AR.AttemptError>)
    requires D.Outcome(responses, actor, cid, t, room, result)
    ensures Joinable(result)
  {
    AloneIsJoinable(t.attempt);
    hide AR.Alone, Joinable;
    if result.Err? { RefusalIsJoinable(result); }
  }

  lemma RefusalIsJoinable(result: Result<AR.AdvancedResult, AR.AttemptError>)
    requires result.Err?
    ensures Joinable(result)
  { }

  lemma SettledForks(mac: Fingerprint, rows: Rows, actor: Actor, cid: Id, parent: Id, q: TurnRequest, ids: seq<Id>, forkedAt: int,
                     joined: seq<Result<AR.AdvancedResult, AR.AttemptError>>, settledAt: int)
    requires WellFormed(mac, rows) && q.status == Streaming && 0 < |ids| == |joined|
    requires ForkAll(mac, rows, actor, cid, parent, q, ids, forkedAt, |ids|).refused.None?
    requires forall k | 0 <= k < |joined| :: Terminal(StatusesOf(joined)[k])
    ensures var before, first := TurnsOf(rows, cid), NextSibling(TurnsOf(rows, cid), Some(parent));
            var forked := ForkAll(mac, rows, actor, cid, parent, q, ids, forkedAt, |ids|).rows;
            var settled := SettleAll(forked, actor, cid, ids, StatusesOf(joined), settledAt, |ids|);
            && settled.refused.None? && WellFormed(mac, settled.rows)
            && |TurnsOf(settled.rows, cid)| == |before| + |ids| && TurnsOf(settled.rows, cid)[..|before|] == before
            && forall k | 0 <= k < |ids| ::
                 SettledSibling(TurnsOf(settled.rows, cid), |before|, parent, first, k, ids[k], joined[k])
  {
    hide WellFormed, ForkAll, SettleAll, NextSibling, Siblings, Advanced, Await;
    var before, first := TurnsOf(rows, cid), NextSibling(TurnsOf(rows, cid), Some(parent));
    var forked := ForkAll(mac, rows, actor, cid, parent, q, ids, forkedAt, |ids|).rows;
    var forks := Siblings(mac, cid, parent, q, ids, forkedAt, first, |ids|);
    ForksAreDistinct(mac, rows, actor, cid, parent, q, ids, forkedAt, |ids|);
    SiblingCount(mac, cid, parent, q, ids, forkedAt, first);
    StoreRuns.StoredFits(mac, forked, cid);
    ReadyToSettle(mac, forked, cid, parent, q, ids, forkedAt, first, before);
    SiblingsSettle(mac, forked, actor, cid, |before|, ids, StatusesOf(joined), settledAt, |ids|);
    AdvancedTail(before, forks, StatusesOf(joined), settledAt);
    forall k | 0 <= k < |ids|
      ensures SettledSibling(before + Advanced(forks, 0, StatusesOf(joined), settledAt, |ids|), |before|, parent, first, k, ids[k], joined[k])
    {
      AdvancedFork(mac, cid, parent, q, ids, forkedAt, first, before, joined, settledAt, k);
    }
  }

  lemma AdvancedFork(mac: Fingerprint, cid: Id, parent: Id, q: TurnRequest, ids: seq<Id>, forkedAt: int, first: int,
                     before: seq<Turn>, joined: seq<Result<AR.AdvancedResult, AR.AttemptError>>, settledAt: int, k: nat)
    requires k < |ids| == |joined| && Terminal(StatusesOf(joined)[k])
    ensures SettledSibling(before + Advanced(Siblings(mac, cid, parent, q, ids, forkedAt, first, |ids|), 0, StatusesOf(joined), settledAt, |ids|),
                           |before|, parent, first, k, ids[k], joined[k])
  { }
}
