/** Parallel dispatch of N Advanced attempts (workbench/advanced_dispatch.py): the
    attempts' threads as processes whose store calls interleave in any order, and the
    forking and settling of the sibling turns around them. */
module AdvancedDispatch {
  import opened Outcomes
  import opened ChatStream
  import opened AdvancedRuntime
  import M = ConversationModels
  import L = ResponseLifecycle

  // -- the threads -----------------------------------------------------------------

  /** One thread's request id and attempt. */
  datatype Task = Task(requestId: string, attempt: Attempt)

  function EventsOf(t: Task): seq<RelayEvent>
  {
    Drained(Classified(t.attempt.script), t.attempt.cancel).events
  }

  /** How far a thread is: `drawn` sequence numbers drawn so far, the last being `last`;
      `Holding` is between drawing a delta's number and committing it. */
  datatype Thread =
    | Waiting
    | Streaming(drawn: nat, last: nat)
    | Holding(drawn: nat, last: nat)
    | Finished(drawn: nat, result: Result<AdvancedResult, AttemptError>)

  /** The shared lifecycle rows, the threads, and every (thread, number) drawn so far. */
  datatype World = World(rows: L.LifecycleRows, threads: seq<Thread>, log: seq<(nat, nat)>)

  function Crash(w: World, i: nat, drawn: nat, e: L.LifecycleError): World
    requires i < |w.threads|
  {
    w.(threads := w.threads[i := Finished(drawn, Err(LifecycleRefused(e)))])
  }

  /** The next store call of thread `i`, made atomically. */
  function Step(actor: M.Actor, cid: M.Id, tasks: seq<Task>, w: World, i: nat): World
    requires i < |tasks| == |w.threads|
  {
    var t, id := tasks[i], tasks[i].requestId;
    match w.threads[i]
    case Waiting =>
      var begun := L.Begin(w.rows, actor, cid, id);
      if t.attempt.requestRefused then w.(threads := w.threads[i := Finished(0, Err(RequestRefused))])
      else if begun.Err? then Crash(w, i, 0, begun.error)
      else w.(rows := begun.value, threads := w.threads[i := Streaming(0, 0)])
    case Streaming(drawn, last) =>
      if drawn < |EventsOf(t)| then
        var next := L.NextSeq(w.rows, actor, id);
        if next.Err? then Crash(w, i, drawn, next.error)
        else
          var seqNo := next.value.1;
          World(next.value.0,
                w.threads[i := if EventsOf(t)[drawn].Delta? then Holding(drawn + 1, seqNo) else Streaming(drawn + 1, seqNo)],
                w.log + [(i, seqNo)])
      else
        var ran := SettleInto(w.rows, actor, id, t.attempt, Drained(Classified(t.attempt.script), t.attempt.cancel), last);
        w.(rows := ran.rows, threads := w.threads[i := Finished(drawn, ran.result)])
    case Holding(drawn, last) =>
      var committed := L.Advance(w.rows, actor, id, L.InProgress, None, Some(last));
      if committed.Err? then Crash(w, i, drawn, committed.error)
      else w.(rows := committed.value, threads := w.threads[i := Streaming(drawn, last)])
    case Finished(_, _) => w
  }

  function Interleave(actor: M.Actor, cid: M.Id, tasks: seq<Task>, w: World, schedule: seq<nat>): World
    requires |tasks| == |w.threads| && forall i | i in schedule :: i < |tasks|
    decreases |schedule|
  {
    if schedule == [] then w
    else
      assert schedule[0] in schedule && forall i | i in schedule[1..] :: i in schedule;
      Interleave(actor, cid, tasks, Step(actor, cid, tasks, w, schedule[0]), schedule[1..])
  }

  function Start(rows: L.LifecycleRows, n: nat): World
  {
    World(rows, seq(n, _ => Waiting), [])
  }

  // -- the invariant ------------------------------------------------------------------

  function Drawn(t: Thread): nat { if t.Waiting? then 0 else t.drawn }

  function TotalDrawn(threads: seq<Thread>): nat
  {
    if threads == [] then 0 else TotalDrawn(threads[..|threads| - 1]) + Drawn(threads[|threads| - 1])
  }

  function TotalEvents(tasks: seq<Task>): nat
  {
    if tasks == [] then 0 else TotalEvents(tasks[..|tasks| - 1]) + |EventsOf(tasks[|tasks| - 1])|
  }

  predicate DistinctIds(tasks: seq<Task>)
  {
    forall i, j | 0 <= i < j < |tasks| :: tasks[i].requestId != tasks[j].requestId
  }

  /** The record of a thread that is still streaming. */
  predicate Live(rows: L.LifecycleRows, actor: M.Actor, cid: M.Id, t: Task, below: nat)
  {
    var key := L.KeyOf(actor, t.requestId);
    && key in rows.responses
    && rows.responses[key] == L.Response(t.requestId, cid, actor, L.InProgress, L.NO_USAGE, 1, rows.responses[key].committed)
    && rows.responses[key].committed < below
  }

  /** The record of a thread whose attempt settled. */
  predicate SettledAt(rows: L.LifecycleRows, actor: M.Actor, t: Task, state: L.LifecycleState)
  {
    var key := L.KeyOf(actor, t.requestId);
    key in rows.responses && rows.responses[key].state == state
  }

  /** What an attempt can give: a request that cannot be built is refused as such, a
      request id that cannot begin over the starting rows is refused with that error, and
      any other attempt gives what it gives alone - or is refused a number, but only if the
      sequence has no room for the events of all attempts. */
  predicate Outcome(initial: L.LifecycleRows, actor: M.Actor, cid: M.Id, t: Task, room: bool,
                    result: Result<AdvancedResult, AttemptError>)
  {
    if t.attempt.requestRefused then result == Err(RequestRefused)
    else
      var begun := L.Begin(initial, actor, cid, t.requestId);
      if begun.Err? then result == Err(LifecycleRefused(begun.error))
      else result == Alone(t.attempt) || (!room && result == Err(LifecycleRefused(L.Exhausted)))
  }

  predicate Begins(initial: L.LifecycleRows, actor: M.Actor, cid: M.Id, t: Task)
  {
    !t.attempt.requestRefused && L.Begin(initial, actor, cid, t.requestId).Ok?
  }

  /** Where the threads start: the rows, and whether the sequence has room for all events. */
  datatype Setting = Setting(rows: L.LifecycleRows, room: bool)

  predicate ThreadOk(at: Setting, rows: L.LifecycleRows, actor: M.Actor, cid: M.Id, t: Task, thread: Thread, hw: nat)
  {
    match thread
    case Waiting => L.KeyOf(actor, t.requestId) in rows.responses <==> L.KeyOf(actor, t.requestId) in at.rows.responses
    case Streaming(drawn, last) =>
      Begins(at.rows, actor, cid, t) && drawn <= |EventsOf(t)| && last <= hw && last <= L.MAX_SEQUENCE
      && Live(rows, actor, cid, t, if drawn == |EventsOf(t)| then last else last + 1)
    case Holding(drawn, last) =>
      Begins(at.rows, actor, cid, t) && 0 < drawn <= |EventsOf(t)| && EventsOf(t)[drawn - 1].Delta?
      && last <= hw && last <= L.MAX_SEQUENCE && Live(rows, actor, cid, t, last)
    case Finished(drawn, result) =>
      drawn <= |EventsOf(t)| && Outcome(at.rows, actor, cid, t, at.room, result)
      && (result.Ok? ==> SettledAt(rows, actor, t, result.value.lifecycle))
  }

  ghost predicate Inv(at: Setting, actor: M.Actor, cid: M.Id, tasks: seq<Task>, w: World)
  {
    var start := L.HighWater(at.rows, cid);
    && |w.threads| == |tasks| && DistinctIds(tasks)
    && (at.room <==> start + TotalEvents(tasks) <= L.MAX_SEQUENCE)
    && |w.log| == TotalDrawn(w.threads) && L.HighWater(w.rows, cid) == start + |w.log|
    && (forall j | 0 <= j < |w.log| :: w.log[j].1 == start + 1 + j)
    && (forall i | 0 <= i < |tasks| :: ThreadOk(at, w.rows, actor, cid, tasks[i], w.threads[i], L.HighWater(w.rows, cid)))
  }

  // -- every step keeps it -----------------------------------------------------------

  lemma EventsEnd(t: Task)
    ensures EventsOf(t) != [] && EventsOf(t)[|EventsOf(t)| - 1].Terminal?
  {
    hide EndsAt, DeltasBefore;
  }

  lemma {:induction false} TotalAt(threads: seq<Thread>, i: nat, t: Thread)
    requires i < |threads|
    ensures TotalDrawn(threads[i := t]) == TotalDrawn(threads) - Drawn(threads[i]) + Drawn(t)
  {
    var front := threads[..|threads| - 1];
    if i == |threads| - 1 {
      assert threads[i := t][..|threads| - 1] == front;
    } else {
      TotalAt(front, i, t);
      assert threads[i := t][..|threads| - 1] == front[i := t];
    }
  }

  /** While some thread has an event left, fewer numbers are drawn than there are events. */
  lemma {:induction false} RoomLeft(threads: seq<Thread>, tasks: seq<Task>)
    requires |threads| == |tasks| && forall i | 0 <= i < |tasks| :: Drawn(threads[i]) <= |EventsOf(tasks[i])|
    ensures TotalDrawn(threads) <= TotalEvents(tasks)
    ensures forall i | 0 <= i < |tasks| :: Drawn(threads[i]) < |EventsOf(tasks[i])| ==> TotalDrawn(threads) < TotalEvents(tasks)
  {
    hide EventsOf;
    if tasks != [] {
      var n := |tasks| - 1;
      RoomLeft(threads[..n], tasks[..n]);
      forall i | 0 <= i < |tasks| && Drawn(threads[i]) < |EventsOf(tasks[i])| ensures TotalDrawn(threads) < TotalEvents(tasks) {
        if i < n { assert threads[..n][i] == threads[i] && tasks[..n][i] == tasks[i]; }
      }
    }
  }

  lemma ThreadDrawn(at: Setting, rows: L.LifecycleRows, actor: M.Actor, cid: M.Id, t: Task, thread: Thread, hw: nat)
    requires ThreadOk(at, rows, actor, cid, t, thread, hw)
    ensures Drawn(thread) <= |EventsOf(t)|
  {
    hide EventsOf, Alone, Outcome;
  }

  lemma Untouched(at: Setting, rows: L.LifecycleRows, rows': L.LifecycleRows, actor: M.Actor, cid: M.Id, t: Task, thread: Thread,
                  hw: nat, hw': nat)
    requires ThreadOk(at, rows, actor, cid, t, thread, hw) && hw <= hw'
    requires var key := L.KeyOf(actor, t.requestId);
             (key in rows.responses <==> key in rows'.responses)
             && (key in rows.responses ==> rows.responses[key] == rows'.responses[key])
    ensures ThreadOk(at, rows', actor, cid, t, thread, hw')
  {
    hide EventsOf, Outcome, Begins;
  }

  /** No record but the one at `key` differs. */
  ghost predicate OnlyAt(a: L.LifecycleRows, b: L.LifecycleRows, key: L.Key)
  {
    forall k | k != key ::
      (k in a.responses <==> k in b.responses) && (k in a.responses ==> a.responses[k] == b.responses[k])
  }

  /** A settlement commits the last number drawn, so it is never refused, and the
      attempt gives what it gives alone. */
  lemma SettleAlone(rows: L.LifecycleRows, actor: M.Actor, cid: M.Id, t: Task, last: nat)
    requires !t.attempt.requestRefused && Live(rows, actor, cid, t, last)
    requires last <= L.HighWater(rows, cid) && last <= L.MAX_SEQUENCE
    ensures var d := Drained(Classified(t.attempt.script), t.attempt.cancel);
            var ran := SettleInto(rows, actor, t.requestId, t.attempt, d, last);
            && ran.result == Alone(t.attempt) && ran.rows.seqs == rows.seqs
            && OnlyAt(rows, ran.rows, L.KeyOf(actor, t.requestId))
            && (ran.result.Ok? ==> SettledAt(ran.rows, actor, t, ran.result.value.lifecycle))
  {
    hide Drained, DeltaCount, SawMalformed, SettledState, UsageOf;
    var d := Drained(Classified(t.attempt.script), t.attempt.cancel);
    var r := ResultFor(t.attempt, d, SawMalformed(t.attempt.script, d.pulled));
    CompleteTogether(r.state);
    hide TurnStatusFor, TraceStatusFor, LifecycleFor;
  }

  /** What one step does to the stepping thread, and that it touches no other record. */
  ghost predicate StepFacts(at: Setting, actor: M.Actor, cid: M.Id, t: Task, w: World, w': World, i: nat, hw: nat)
    requires i < |w.threads|
  {
    && |w'.threads| == |w.threads| && w'.threads == w.threads[i := w'.threads[i]]
    && OnlyAt(w.rows, w'.rows, L.KeyOf(actor, t.requestId))
    && L.HighWater(w'.rows, cid) == hw + Drawn(w'.threads[i]) - Drawn(w.threads[i])
    && Drawn(w.threads[i]) <= Drawn(w'.threads[i]) <= Drawn(w.threads[i]) + 1
    && w'.log == (if Drawn(w'.threads[i]) > Drawn(w.threads[i]) then w.log + [(i, hw + 1)] else w.log)
    && ThreadOk(at, w'.rows, actor, cid, t, w'.threads[i], L.HighWater(w'.rows, cid))
  }

  lemma BeginsAlike(at: Setting, rows: L.LifecycleRows, actor: M.Actor, cid: M.Id, t: Task)
    requires L.KeyOf(actor, t.requestId) in rows.responses <==> L.KeyOf(actor, t.requestId) in at.rows.responses
    ensures var now, first := L.Begin(rows, actor, cid, t.requestId), L.Begin(at.rows, actor, cid, t.requestId);
            (now.Ok? <==> first.Ok?) && (now.Err? ==> now == first)
    ensures L.Begin(rows, actor, cid, t.requestId).Ok? ==>
              var begun := L.Begin(rows, actor, cid, t.requestId).value;
              begun.seqs == rows.seqs && OnlyAt(rows, begun, L.KeyOf(actor, t.requestId)) && Live(begun, actor, cid, t, 1)
  { }

  lemma BeginStep(at: Setting, actor: M.Actor, cid: M.Id, tasks: seq<Task>, w: World, i: nat)
    requires i < |tasks| == |w.threads| && w.threads[i].Waiting?
    requires ThreadOk(at, w.rows, actor, cid, tasks[i], w.threads[i], L.HighWater(w.rows, cid))
    ensures StepFacts(at, actor, cid, tasks[i], w, Step(actor, cid, tasks, w, i), i, L.HighWater(w.rows, cid))
  {
    hide EventsOf, Alone, SettleInto, Live, L.Begin, OnlyAt;
    EventsEnd(tasks[i]);
    BeginsAlike(at, w.rows, actor, cid, tasks[i]);
    SameRecords(w.rows, L.KeyOf(actor, tasks[i].requestId));
  }

  lemma SameRecords(rows: L.LifecycleRows, key: L.Key)
    ensures OnlyAt(rows, rows, key)
  { }

  lemma DrawEffect(at: Setting, actor: M.Actor, cid: M.Id, tasks: seq<Task>, w: World, i: nat)
    requires i < |tasks| == |w.threads| && w.threads[i].Streaming? && w.threads[i].drawn < |EventsOf(tasks[i])|
    requires ThreadOk(at, w.rows, actor, cid, tasks[i], w.threads[i], L.HighWater(w.rows, cid))
    ensures var next, drawn := L.HighWater(w.rows, cid) + 1, w.threads[i].drawn;
            Step(actor, cid, tasks, w, i) ==
              if next > L.MAX_SEQUENCE then w.(threads := w.threads[i := Finished(drawn, Err(LifecycleRefused(L.Exhausted)))])
              else
                World(w.rows.(seqs := w.rows.seqs[cid := next]),
                      w.threads[i := if EventsOf(tasks[i])[drawn].Delta? then Holding(drawn + 1, next) else Streaming(drawn + 1, next)],
                      w.log + [(i, next)])
  {
    hide EventsOf, Alone, SettleInto, L.Advance, L.Begin;
  }

  lemma DrawStep(at: Setting, actor: M.Actor, cid: M.Id, tasks: seq<Task>, w: World, i: nat)
    requires i < |tasks| == |w.threads| && w.threads[i].Streaming? && w.threads[i].drawn < |EventsOf(tasks[i])|
    requires ThreadOk(at, w.rows, actor, cid, tasks[i], w.threads[i], L.HighWater(w.rows, cid))
    requires at.room ==> L.HighWater(w.rows, cid) < L.MAX_SEQUENCE
    ensures StepFacts(at, actor, cid, tasks[i], w, Step(actor, cid, tasks, w, i), i, L.HighWater(w.rows, cid))
  {
    hide EventsOf, Alone, Step, L.KeyOf, Live, L.Begin;
    EventsEnd(tasks[i]);
    DrawEffect(at, actor, cid, tasks, w, i);
    LiveAfterDraw(w.rows, actor, cid, tasks[i], w.threads[i].last + 1, L.HighWater(w.rows, cid) + 1);
  }

  lemma LiveAfterDraw(rows: L.LifecycleRows, actor: M.Actor, cid: M.Id, t: Task, below: nat, next: nat)
    requires Live(rows, actor, cid, t, below) && below <= next
    ensures Live(rows.(seqs := rows.seqs[cid := next]), actor, cid, t, next)
    ensures Live(rows.(seqs := rows.seqs[cid := next]), actor, cid, t, next + 1)
  { }

  lemma CommitEffect(rows: L.LifecycleRows, actor: M.Actor, cid: M.Id, t: Task, last: nat)
    requires Live(rows, actor, cid, t, last) && last <= L.HighWater(rows, cid) && last <= L.MAX_SEQUENCE
    ensures var committed := L.Advance(rows, actor, t.requestId, L.InProgress, None, Some(last));
            committed.Ok? && committed.value.seqs == rows.seqs && OnlyAt(rows, committed.value, L.KeyOf(actor, t.requestId))
            && Live(committed.value, actor, cid, t, last + 1)
  { }

  lemma CommitStep(at: Setting, actor: M.Actor, cid: M.Id, tasks: seq<Task>, w: World, i: nat)
    requires i < |tasks| == |w.threads| && w.threads[i].Holding?
    requires ThreadOk(at, w.rows, actor, cid, tasks[i], w.threads[i], L.HighWater(w.rows, cid))
    ensures StepFacts(at, actor, cid, tasks[i], w, Step(actor, cid, tasks, w, i), i, L.HighWater(w.rows, cid))
  {
    hide EventsOf, Alone, SettleInto, L.Advance, Live, Begins, OnlyAt;
    EventsEnd(tasks[i]);
    CommitEffect(w.rows, actor, cid, tasks[i], w.threads[i].last);
  }

  lemma SettleStep(at: Setting, actor: M.Actor, cid: M.Id, tasks: seq<Task>, w: World, i: nat)
    requires i < |tasks| == |w.threads| && w.threads[i].Streaming? && w.threads[i].drawn == |EventsOf(tasks[i])|
    requires ThreadOk(at, w.rows, actor, cid, tasks[i], w.threads[i], L.HighWater(w.rows, cid))
    ensures StepFacts(at, actor, cid, tasks[i], w, Step(actor, cid, tasks, w, i), i, L.HighWater(w.rows, cid))
  {
    hide EventsOf, Alone, SettleInto, SettledAt, OnlyAt, L.Begin, Live;
    SettleAlone(w.rows, actor, cid, tasks[i], w.threads[i].last);
  }

  lemma StepDoes(at: Setting, actor: M.Actor, cid: M.Id, tasks: seq<Task>, w: World, i: nat)
    requires i < |tasks| && Inv(at, actor, cid, tasks, w)
    ensures StepFacts(at, actor, cid, tasks[i], w, Step(actor, cid, tasks, w, i), i, L.HighWater(w.rows, cid))
  {
    hide EventsOf, ThreadOk, StepFacts, TotalDrawn, TotalEvents, Step;
    forall j | 0 <= j < |tasks| ensures Drawn(w.threads[j]) <= |EventsOf(tasks[j])| {
      ThreadDrawn(at, w.rows, actor, cid, tasks[j], w.threads[j], L.HighWater(w.rows, cid));
    }
    RoomLeft(w.threads, tasks);
    var thread := w.threads[i];
    if thread.Waiting? { BeginStep(at, actor, cid, tasks, w, i); }
    else if thread.Holding? { CommitStep(at, actor, cid, tasks, w, i); }
    else if thread.Finished? { RestStep(at, actor, cid, tasks, w, i); }
    else if thread.drawn < |EventsOf(tasks[i])| { DrawStep(at, actor, cid, tasks, w, i); }
    else { SettleStep(at, actor, cid, tasks, w, i); }
  }

  lemma RestStep(at: Setting, actor: M.Actor, cid: M.Id, tasks: seq<Task>, w: World, i: nat)
    requires i < |tasks| == |w.threads| && w.threads[i].Finished?
    requires ThreadOk(at, w.rows, actor, cid, tasks[i], w.threads[i], L.HighWater(w.rows, cid))
    ensures StepFacts(at, actor, cid, tasks[i], w, Step(actor, cid, tasks, w, i), i, L.HighWater(w.rows, cid))
  {
    hide EventsOf, ThreadOk;
  }

  lemma StepKeeps(at: Setting, actor: M.Actor, cid: M.Id, tasks: seq<Task>, w: World, i: nat)
    requires i < |tasks| && Inv(at, actor, cid, tasks, w)
    ensures Inv(at, actor, cid, tasks, Step(actor, cid, tasks, w, i))
  {
    hide Step, ThreadOk, TotalDrawn, TotalEvents;
    var w' := Step(actor, cid, tasks, w, i);
    StepDoes(at, actor, cid, tasks, w, i);
    TotalAt(w.threads, i, w'.threads[i]);
    forall j | 0 <= j < |tasks|
      ensures ThreadOk(at, w'.rows, actor, cid, tasks[j], w'.threads[j], L.HighWater(w'.rows, cid))
    {
      if j != i {
        assert L.KeyOf(actor, tasks[j].requestId) != L.KeyOf(actor, tasks[i].requestId);
        Untouched(at, w.rows, w'.rows, actor, cid, tasks[j], w.threads[j], L.HighWater(w.rows, cid), L.HighWater(w'.rows, cid));
      }
    }
  }

  lemma {:induction false} InterleaveKeeps(at: Setting, actor: M.Actor, cid: M.Id, tasks: seq<Task>, w: World, schedule: seq<nat>)
    requires Inv(at, actor, cid, tasks, w) && forall i | i in schedule :: i < |tasks|
    ensures Inv(at, actor, cid, tasks, Interleave(actor, cid, tasks, w, schedule))
    decreases |schedule|
  {
    hide Inv, Step;
    SameThreads(at, actor, cid, tasks, w);
    if schedule != [] {
      assert schedule[0] in schedule && forall i | i in schedule[1..] :: i in schedule;
      StepKeeps(at, actor, cid, tasks, w, schedule[0]);
      SameThreads(at, actor, cid, tasks, Step(actor, cid, tasks, w, schedule[0]));
      InterleaveKeeps(at, actor, cid, tasks, Step(actor, cid, tasks, w, schedule[0]), schedule[1..]);
    }
  }

  lemma SameThreads(at: Setting, actor: M.Actor, cid: M.Id, tasks: seq<Task>, w: World)
    requires Inv(at, actor, cid, tasks, w)
    ensures |w.threads| == |tasks|
  { }

  // -- the statement -------------------------------------------------------------------

  function Turns(schedule: seq<nat>, i: nat): nat
  {
    if schedule == [] then 0 else (if schedule[0] == i then 1 else 0) + Turns(schedule[1..], i)
  }

  /** An upper bound on the turns a thread still needs. */
  function Remaining(t: Task, thread: Thread): nat
  {
    var n := |EventsOf(t)|;
    match thread
    case Waiting => 2 * n + 2
    case Streaming(drawn, _) => if drawn <= n then 2 * (n - drawn) + 1 else 1
    case Holding(drawn, _) => if drawn <= n then 2 * (n - drawn) + 2 else 2
    case Finished(_, _) => 0
  }

  lemma StepProgress(actor: M.Actor, cid: M.Id, tasks: seq<Task>, w: World, i: nat)
    requires i < |tasks| == |w.threads|
    ensures w.threads[i].Finished? || Remaining(tasks[i], Step(actor, cid, tasks, w, i).threads[i]) < Remaining(tasks[i], w.threads[i])
    ensures w.threads[i].Finished? ==> Step(actor, cid, tasks, w, i) == w
    ensures |Step(actor, cid, tasks, w, i).threads| == |w.threads|
    ensures forall j | 0 <= j < |tasks| && j != i :: Step(actor, cid, tasks, w, i).threads[j] == w.threads[j]
  {
    hide EventsOf, SettleInto, L.Advance, L.Begin, L.NextSeq;
  }

  lemma {:induction false} EnoughTurns(actor: M.Actor, cid: M.Id, tasks: seq<Task>, w: World, schedule: seq<nat>, i: nat)
    requires |tasks| == |w.threads| && i < |tasks| && forall k | k in schedule :: k < |tasks|
    requires Remaining(tasks[i], w.threads[i]) <= Turns(schedule, i)
    ensures |Interleave(actor, cid, tasks, w, schedule).threads| == |tasks|
    ensures Interleave(actor, cid, tasks, w, schedule).threads[i].Finished?
    decreases |schedule|
  {
    hide Step, Remaining, EventsOf;
    if schedule != [] {
      assert schedule[0] in schedule && forall k | k in schedule[1..] :: k in schedule;
      StepProgress(actor, cid, tasks, w, schedule[0]);
      var w' := Step(actor, cid, tasks, w, schedule[0]);
      if schedule[0] == i && w.threads[i].Finished? { NothingRemains(tasks[i], w'.threads[i]); }
      EnoughTurns(actor, cid, tasks, w', schedule[1..], i);
    } else {
      SomeRemain(tasks[i], w.threads[i]);
    }
  }

  lemma SomeRemain(t: Task, thread: Thread)
    ensures !thread.Finished? ==> Remaining(t, thread) > 0
  {
    hide EventsOf;
  }

  lemma NothingRemains(t: Task, thread: Thread)
    requires thread.Finished?
    ensures Remaining(t, thread) == 0
  { }

  lemma {:induction false} NoneDrawn(n: nat)
    ensures TotalDrawn(seq(n, _ => Waiting)) == 0
  {
    if n > 0 {
      var threads := seq(n, _ => Waiting);
      assert threads[..n - 1] == seq(n - 1, _ => Waiting);
      NoneDrawn(n - 1);
    }
  }

  predicate HasRoom(rows: L.LifecycleRows, cid: M.Id, tasks: seq<Task>)
  {
    L.HighWater(rows, cid) + TotalEvents(tasks) <= L.MAX_SEQUENCE
  }

  /** However the attempts' store calls interleave, from any rows: the numbers drawn are, in
      the order they are drawn, the next numbers of the conversation, so no two events share
      one and every attempt's own are increasing; an attempt that finishes has its own
      outcome, which is what it gives alone unless its request is refused or the sequence
      runs out, and its record then says its own terminal; and an attempt that gets its
      turns does finish. */
  lemma AttemptsAreIsolated(rows: L.LifecycleRows, actor: M.Actor, cid: M.Id, tasks: seq<Task>, schedule: seq<nat>)
    requires DistinctIds(tasks) && (forall i | i in schedule :: i < |tasks|)
    ensures var w := Interleave(actor, cid, tasks, Start(rows, |tasks|), schedule);
            && |w.threads| == |tasks|
            && (forall j | 0 <= j < |w.log| :: w.log[j].1 == L.HighWater(rows, cid) + 1 + j)
            && (forall i | 0 <= i < |tasks| && w.threads[i].Finished? ::
                  && Outcome(rows, actor, cid, tasks[i], HasRoom(rows, cid, tasks), w.threads[i].result)
                  && (w.threads[i].result.Ok? ==> SettledAt(w.rows, actor, tasks[i], w.threads[i].result.value.lifecycle)))
            && (forall i | 0 <= i < |tasks| && Turns(schedule, i) >= 2 * |EventsOf(tasks[i])| + 2 :: w.threads[i].Finished?)
  {
    hide EventsOf, Outcome, TotalDrawn, TotalEvents, Step, SettledAt;
    var at, w0 := Setting(rows, HasRoom(rows, cid, tasks)), Start(rows, |tasks|);
    NoneDrawn(|tasks|);
    assert Inv(at, actor, cid, tasks, w0);
    InterleaveKeeps(at, actor, cid, tasks, w0, schedule);
    var w := Interleave(actor, cid, tasks, w0, schedule);
    hide Interleave, Inv;
    InvSays(at, actor, cid, tasks, w);
    forall i | 0 <= i < |tasks| && Turns(schedule, i) >= 2 * |EventsOf(tasks[i])| + 2 ensures w.threads[i].Finished? {
      EnoughTurns(actor, cid, tasks, w0, schedule, i);
    }
  }

  lemma InvSays(at: Setting, actor: M.Actor, cid: M.Id, tasks: seq<Task>, w: World)
    requires Inv(at, actor, cid, tasks, w)
    ensures |w.threads| == |tasks| && forall j | 0 <= j < |w.log| :: w.log[j].1 == L.HighWater(at.rows, cid) + 1 + j
    ensures forall i | 0 <= i < |tasks| && w.threads[i].Finished? ::
              && Outcome(at.rows, actor, cid, tasks[i], at.room, w.threads[i].result)
              && (w.threads[i].result.Ok? ==> SettledAt(w.rows, actor, tasks[i], w.threads[i].result.value.lifecycle))
  {
    hide EventsOf, Outcome, TotalDrawn, TotalEvents, SettledAt, Live;
    forall i | 0 <= i < |tasks| && w.threads[i].Finished?
      ensures Outcome(at.rows, actor, cid, tasks[i], at.room, w.threads[i].result)
      ensures w.threads[i].result.Ok? ==> SettledAt(w.rows, actor, tasks[i], w.threads[i].result.value.lifecycle)
    {
      assert ThreadOk(at, w.rows, actor, cid, tasks[i], w.threads[i], L.HighWater(w.rows, cid));
    }
  }

  /** A fresh request id and room in the sequence are all an attempt needs to give what it
      gives alone. */
  lemma FreshGivesAlone(rows: L.LifecycleRows, actor: M.Actor, cid: M.Id, t: Task, result: Result<AdvancedResult, AttemptError>)
    requires Outcome(rows, actor, cid, t, true, result)
    requires L.NameOk(t.requestId) && L.NameOk(cid) && L.KeyOf(actor, t.requestId) !in rows.responses
    ensures result == Alone(t.attempt)
  {
    hide Drained, DeltaCount, SawMalformed, SettledState;
  }
}
