/**
  * The task journal and the worker that drains it
  * (internal/agent/tasks.go Run, recoverRunning, drain, finishInvocation, complete;
  * internal/state/sqlite/tasks.go ClaimNextTaskFenced, ReleaseTaskClaim,
  * CompleteTask, RunningTasks, AcceptTasksFenced).
  *
  * The clock is the process's own; while the worker is at work, other calls are made
  * on it. The process may be killed before or after any single effect, and a store call
  * that reports an error may have committed. New tasks arrive at any moment. One
  * worker process is alive at a time.
  */
module TaskWorker {
  import opened Wrappers
  import opened Crashes
  import opened TaskClock
  import opened TaskClockCode

  type TaskId = string

  datatype State = Received | Running | Succeeded | Failed | Indeterminate

  predicate Terminal(s: State) {
    s.Succeeded? || s.Failed? || s.Indeterminate?
  }

  /** A row of the journal. The token names the claim that made it running. */
  datatype Row = Row(kind: string, digest: string, notAfter: int, token: string, state: State)

  /** A row as a caller was given it. */
  datatype Task = Task(id: TaskId, row: Row)

  /**
    * Entering a handler's Execute: which task, as which claimed row, all calls on the process's
    * clock until then, and the place of the answer it was entered on.
    */
  datatype Execution = Execution(id: TaskId, row: Row, policy: Policy, events: seq<Event>, at: nat)

  /** A task with a deadline needs a clock whose last answer leaves time before it. */
  predicate Timely(policy: Policy, events: seq<Event>, notAfter: int) {
    notAfter > 0 ==> Allowed(policy) && InTime(policy, events, notAfter)
  }

  /** The call at this place was answered, and the answer leaves time before the deadline. */
  predicate LeavesTime(policy: Policy, events: seq<Event>, at: nat, notAfter: int) {
    && Allowed(policy) && at < |events| && Answer(policy, events, at).Some?
    && Answer(policy, events, at).value.upper < notAfter
  }

  predicate SameIdentity(a: Row, b: Row) {
    a.kind == b.kind && a.digest == b.digest && a.notAfter == b.notAfter
  }

  /** Rows are never lost, keep their identity, and a terminal one never changes. */
  ghost predicate Progress(before: map<TaskId, Row>, after: map<TaskId, Row>) {
    forall id :: id in before ==>
                   id in after && SameIdentity(before[id], after[id])
                   && (Terminal(before[id].state) ==> after[id] == before[id])
  }

  /** Only received rows have come; the others are as they were. */
  ghost predicate Arrived(before: map<TaskId, Row>, after: map<TaskId, Row>) {
    && (forall id :: id in before ==> id in after && after[id] == before[id])
    && (forall id :: id in after && id !in before ==> after[id].state.Received?)
  }

  lemma ProgressIsTransitive(a: map<TaskId, Row>, b: map<TaskId, Row>)
    requires Progress(a, b)
    ensures forall c :: Progress(b, c) ==> Progress(a, c)
  {
  }

  /** The row the handler was given is the one in the journal, but for what became of it. */
  predicate SameClaim(given: Row, stored: Row) {
    SameIdentity(given, stored) && given.token == stored.token && !stored.state.Received?
  }

  /**
    * An entry was made for the row in the journal, under its claim; and if that row has a deadline,
    * on an answer of the clock that was asked for after the claim landed and leaves time before it.
    */
  ghost predicate EntryOk(rows: map<TaskId, Row>, since: map<TaskId, nat>, e: Execution) {
    && e.id in rows && e.id in since && SameClaim(e.row, rows[e.id])
    && (rows[e.id].notAfter > 0 ==>
          since[e.id] <= e.at && LeavesTime(e.policy, e.events, e.at, rows[e.id].notAfter))
  }

  /** No task was entered twice, none that was entered can be claimed again, and each entry was in order. */
  ghost predicate ExecutedOnce(rows: map<TaskId, Row>, since: map<TaskId, nat>, executions: seq<Execution>) {
    && (forall i, j :: 0 <= i < j < |executions| ==> executions[i].id != executions[j].id)
    && (forall i :: 0 <= i < |executions| ==> EntryOk(rows, since, executions[i]))
  }

  ghost predicate Entered(executions: seq<Execution>, id: TaskId) {
    exists i :: 0 <= i < |executions| && executions[i].id == id
  }

  lemma EnteredMore(executions: seq<Execution>, e: Execution)
    ensures forall id :: Entered(executions + [e], id) <==> Entered(executions, id) || id == e.id
  {
    forall id ensures Entered(executions + [e], id) <==> Entered(executions, id) || id == e.id {
      if Entered(executions, id) {
        var i :| 0 <= i < |executions| && executions[i].id == id;
        assert (executions + [e])[i].id == id;
      }
      assert (executions + [e])[|executions|] == e;
    }
  }

  /** A received row was never entered. */
  lemma ReceivedWasNotEntered(rows: map<TaskId, Row>, since: map<TaskId, nat>, executions: seq<Execution>, id: TaskId)
    requires ExecutedOnce(rows, since, executions) && id in rows && rows[id].state.Received?
    ensures !Entered(executions, id)
  {
  }

  /** A row may become anything of the same identity; an entered one keeps its claim and is never received again. */
  lemma RowChanges(rows: map<TaskId, Row>, since: map<TaskId, nat>, executions: seq<Execution>, id: TaskId, row: Row)
    requires ExecutedOnce(rows, since, executions) && id in rows && SameIdentity(rows[id], row)
    requires Entered(executions, id) ==> !row.state.Received? && row.token == rows[id].token
    ensures ExecutedOnce(rows[id := row], since, executions)
  {
    hide LeavesTime;
  }

  /** From when on the clock counts as asked for a claim that has just landed. */
  lemma ClaimLands(rows: map<TaskId, Row>, since: map<TaskId, nat>, executions: seq<Execution>, id: TaskId, from: nat)
    requires ExecutedOnce(rows, since, executions) && !Entered(executions, id)
    ensures ExecutedOnce(rows, since[id := from], executions)
  {
    hide LeavesTime;
  }

  lemma EntryJoins(rows: map<TaskId, Row>, since: map<TaskId, nat>, executions: seq<Execution>, e: Execution)
    requires ExecutedOnce(rows, since, executions) && !Entered(executions, e.id) && EntryOk(rows, since, e)
    ensures ExecutedOnce(rows, since, executions + [e])
  {
    hide EntryOk;
  }

  // ------------------------------------------------------------------------- endings

  /** How a handler's call ended: with a result, valid or not; with an error; or with the process. */
  datatype Outcome = Ok(valid: bool) | Error(classified: Option<bool>) | Interrupted

  /** An error leaves the outcome open if the handler says so, or says nothing of a call that only recovers. */
  predicate LeftOpen(outcome: Outcome, recovering: bool) {
    outcome.Error? && (if outcome.classified.Some? then outcome.classified.value else recovering)
  }

  /** Why a task may end. */
  datatype End =
    | Expired(policy: Policy, events: seq<Event>)  // its deadline was over by the clock's last answer
    | Unhandled                                    // nothing is registered for its kind
    | Returned(outcome: Outcome)                   // its handler was entered and returned
    | Unrecoverable                                // it was left running, and nothing can tell how it went
    | Recovered(outcome: Outcome)                  // it was left running, and its handler was asked

  /** What was seen of a task. */
  datatype Seen = Seen(id: TaskId, end: End)

  /** The state a call's outcome settles a task in. */
  predicate Settles(outcome: Outcome, recovering: bool, state: State) {
    && !outcome.Interrupted? && Terminal(state)
    && (state.Succeeded? <==> outcome.Ok? && outcome.valid)
    && (state.Indeterminate? <==> LeftOpen(outcome, recovering))
  }

  predicate EndsAs(end: End, notAfter: int, state: State) {
    match end
    case Expired(policy, events) => state.Failed? && notAfter > 0 && Allowed(policy) && Over(policy, events, notAfter)
    case Unhandled => state.Failed?
    case Returned(outcome) => Settles(outcome, false, state)
    case Unrecoverable => state.Indeterminate?
    case Recovered(outcome) => Settles(outcome, true, state)
  }

  ghost predicate Explained(seen: set<Seen>, id: TaskId, row: Row) {
    exists end :: Seen(id, end) in seen && EndsAs(end, row.notAfter, row.state)
  }

  /** Every terminal row ended as something that was seen of it says; what returned had been entered. */
  ghost predicate EndsOk(rows: map<TaskId, Row>, seen: set<Seen>, executions: seq<Execution>) {
    && (forall id :: id in rows && Terminal(rows[id].state) ==> Explained(seen, id, rows[id]))
    && (forall x :: x in seen && x.end.Returned? ==> Entered(executions, x.id))
  }

  lemma SeeMore(rows: map<TaskId, Row>, seen: set<Seen>, executions: seq<Execution>, x: Seen)
    requires EndsOk(rows, seen, executions) && (x.end.Returned? ==> Entered(executions, x.id))
    ensures EndsOk(rows, seen + {x}, executions)
  {
    hide EndsAs;
    forall id | id in rows && Terminal(rows[id].state) ensures Explained(seen + {x}, id, rows[id]) {
      var end :| Seen(id, end) in seen && EndsAs(end, rows[id].notAfter, rows[id].state);
      assert Seen(id, end) in seen + {x};
    }
  }

  lemma EnterMore(rows: map<TaskId, Row>, seen: set<Seen>, executions: seq<Execution>, e: Execution)
    requires EndsOk(rows, seen, executions)
    ensures EndsOk(rows, seen, executions + [e])
  {
    hide EndsAs, Explained;
    EnteredMore(executions, e);
  }

  lemma RowEnds(rows: map<TaskId, Row>, seen: set<Seen>, executions: seq<Execution>, id: TaskId, row: Row)
    requires EndsOk(rows, seen, executions) && (Terminal(row.state) ==> Explained(seen, id, row))
    ensures EndsOk(rows[id := row], seen, executions)
  {
    hide Explained;
  }

  /** A received row without a deadline. */
  predicate Unfenced(rows: map<TaskId, Row>, id: TaskId) {
    id in rows && rows[id].state.Received? && rows[id].notAfter <= 0
  }

  /** A received row a claim may look at: without a clock, only one without a deadline. */
  predicate Claimable(rows: map<TaskId, Row>, id: TaskId, clocked: bool) {
    id in rows && rows[id].state.Received? && (clocked || rows[id].notAfter <= 0)
  }

  /** How many received rows a claim looks at. */
  const PAGE: nat := 64

  datatype Claim = Claimed(task: Task) | Nothing | ClaimFailed

  lemma RowArrives(rows: map<TaskId, Row>, since: map<TaskId, nat>, executions: seq<Execution>, id: TaskId, row: Row)
    requires ExecutedOnce(rows, since, executions) && id !in rows
    ensures ExecutedOnce(rows[id := row], since, executions) && Progress(rows, rows[id := row])
  {
    hide LeavesTime;
  }

  /** Why a received row may have left that state: time was left when asked, or provably none was. */
  predicate Warranted(row: Row, policy: Policy, events: seq<Event>) {
    match row.state
    case Running => Timely(policy, events, row.notAfter)
    case Failed => row.notAfter > 0 && Allowed(policy) && Over(policy, events, row.notAfter)
    case _ => false
  }

  /** The answer shows neither that time is left before the deadline nor that none is. */
  predicate Undecided(answer: Option<Bounds>, notAfter: int) {
    notAfter > 0 && (answer.Some? ==> answer.value.lower < notAfter <= answer.value.upper)
  }

  /** Asked since, the clock did not show either. */
  ghost predicate AskedInVain(policy: Policy, events: seq<Event>, from: nat, notAfter: int) {
    Allowed(policy) && exists at :: from <= at < |events| && Undecided(Answer(policy, events, at), notAfter)
  }

  lemma StillInVain(policy: Policy, events: seq<Event>, more: seq<Event>, from: nat, earlier: nat, notAfter: int)
    requires AskedInVain(policy, events, from, notAfter) && events <= more && earlier <= from
    ensures AskedInVain(policy, more, earlier, notAfter)
  {
    var at :| from <= at < |events| && Undecided(Answer(policy, events, at), notAfter);
    AnswerMore(policy, events, more, at);
  }

  lemma LastInVain(policy: Policy, events: seq<Event>, from: nat, notAfter: int)
    requires Allowed(policy) && from < |events| && Undecided(Answer(policy, events, |events| - 1), notAfter)
    ensures AskedInVain(policy, events, from, notAfter)
  {
  }

  /** The first rows of a page were passed over: each has a deadline, and the clock did not decide it. */
  ghost predicate PassedOver(rows: map<TaskId, Row>, ids: seq<TaskId>, n: nat, clocked: bool, policy: Policy,
                             events: seq<Event>, from: nat) {
    && n <= |ids|
    && forall i :: 0 <= i < n ==>
         && clocked && ids[i] in rows && rows[ids[i]].notAfter > 0
         && AskedInVain(policy, events, from, rows[ids[i]].notAfter)
  }

  lemma NonePassedYet(rows: map<TaskId, Row>, ids: seq<TaskId>, clocked: bool, policy: Policy, events: seq<Event>,
                      from: nat)
    ensures PassedOver(rows, ids, 0, clocked, policy, events, from)
  {
  }

  lemma OneMorePassed(rows: map<TaskId, Row>, ids: seq<TaskId>, n: nat, clocked: bool, policy: Policy,
                      events: seq<Event>, more: seq<Event>, from: nat)
    requires PassedOver(rows, ids, n, clocked, policy, events, from) && n < |ids| && from <= |events| && events <= more
    requires Claimable(rows, ids[n], clocked) && rows[ids[n]].notAfter > 0
    requires clocked ==> AskedInVain(policy, more, |events|, rows[ids[n]].notAfter)
    ensures PassedOver(rows, ids, n + 1, clocked, policy, more, from)
  {
    hide AskedInVain;
    forall i | 0 <= i <= n ensures AskedInVain(policy, more, from, rows[ids[i]].notAfter) {
      if i < n {
        StillInVain(policy, events, more, from, from, rows[ids[i]].notAfter);
      } else {
        StillInVain(policy, more, more, |events|, from, rows[ids[n]].notAfter);
      }
    }
  }

  ghost predicate Ticking(clock: ControlPlaneTaskClock?) reads clock {
    clock != null ==> clock.Valid()
  }

  ghost function Calls(clock: ControlPlaneTaskClock?): seq<Event> reads clock {
    if clock == null then [] else clock.events
  }

  ghost function RulesOf(clock: ControlPlaneTaskClock?): Policy {
    if clock == null then Policy(0, 0, 0) else clock.Rules()
  }

  /** What the clock answered last, if there is one. */
  ghost function Answered(clock: ControlPlaneTaskClock?): Option<Bounds>
    requires Ticking(clock)
    reads clock
  {
    if clock == null || |clock.events| == 0 then None
    else Answer(clock.Rules(), clock.events, |clock.events| - 1)
  }

  lemma NonePassedIsUnfenced(rows: map<TaskId, Row>, ids: seq<TaskId>, clocked: bool, policy: Policy,
                             events: seq<Event>, from: nat)
    requires PassedOver(rows, ids, |ids|, clocked, policy, events, from)
    ensures forall id :: id in ids ==> !Unfenced(rows, id)
  {
  }

  /** Fresh bounds, or none: without a clock, or one that cannot tell. */
  method TaskStartBounds(clock: ControlPlaneTaskClock?) returns (bounds: Option<Bounds>)
    requires Ticking(clock)
    modifies clock
    ensures Ticking(clock) && old(Calls(clock)) <= Calls(clock)
    ensures bounds == Answered(clock)
    ensures clock != null ==> Allowed(RulesOf(clock)) && |Calls(clock)| > |old(Calls(clock))|
    ensures bounds.Some? ==> Allowed(RulesOf(clock)) && |Calls(clock)| > |old(Calls(clock))|
    ensures bounds.Some? ==> Answer(RulesOf(clock), Calls(clock), |Calls(clock)| - 1) == bounds
  {
    if clock == null { return None; }
    var reading: Option<int64> := *;
    var answer := clock.TaskTimeBounds(reading);
    if answer.None? { return None; }
    return Some(Bounds(answer.value.0 as int, answer.value.1 as int));
  }

  /** Heartbeats and other users of the clock, at any moment. */
  method OthersAsk(clock: ControlPlaneTaskClock?)
    requires Ticking(clock)
    modifies clock
    ensures Ticking(clock) && old(Calls(clock)) <= Calls(clock)
  {
    if clock == null { return; }
    var calls: nat := *;
    while calls > 0
      invariant Ticking(clock) && old(Calls(clock)) <= Calls(clock)
    {
      var observes: bool, captures: bool, stamp: int64, start: int64, reading: Option<int64> := *, *, *, *, *;
      if observes {
        var _ := clock.Observe(stamp, start, reading);
      } else if captures {
        var _ := clock.Capture(reading);
      } else {
        var _ := clock.TaskTimeBounds(reading);
      }
      calls := calls - 1;
    }
  }

  class Store {
    const troubles: Troubles
    var rows: map<TaskId, Row>
    ghost var since: map<TaskId, nat>         // how many calls on the clock came before the claim landed
    ghost var executions: seq<Execution>
    ghost var seen: set<Seen>                 // why tasks may end

    ghost predicate Valid() reads this {
      ExecutedOnce(rows, since, executions) && EndsOk(rows, seen, executions)
    }

    constructor ()
      ensures Valid() && rows == map[] && executions == [] && fresh(troubles)
    {
      troubles := new Troubles();
      rows, since, executions, seen := map[], map[], [], {};
    }

    /** Something is seen of a task. */
    ghost method See(id: TaskId, end: End)
      requires Valid() && (end.Returned? ==> Entered(executions, id))
      modifies this`seen
      ensures Valid() && seen == old(seen) + {Seen(id, end)}
    {
      hide ExecutedOnce, EndsOk;
      SeeMore(rows, seen, executions, Seen(id, end));
      seen := seen + {Seen(id, end)};
    }

    /**
      * A task is inserted at most once, and with time left; one that is there keeps its row, or is
      * refused for another identity.
      */
    method Accept(id: TaskId, kind: string, digest: string, notAfter: int, clock: ControlPlaneTaskClock?)
      returns (r: Step<bool>)
      requires Valid() && Ticking(clock)
      modifies this`rows, clock, troubles
      ensures Valid() && Ticking(clock) && Progress(old(rows), rows) && old(Calls(clock)) <= Calls(clock)
      ensures rows == old(rows)
              || (id !in old(rows) && rows == old(rows)[id := Row(kind, digest, notAfter, "", Received)])
      ensures rows != old(rows) ==> Timely(RulesOf(clock), Calls(clock), notAfter)
      ensures r == Done(true) ==> id in rows && SameIdentity(rows[id], Row(kind, digest, notAfter, "", Received))
      ensures troubles.Later() && troubles.Kept() && troubles.Undisturbed()
      ensures r == Done(false) && troubles.Obeyed() ==>
                if id in old(rows) then !SameIdentity(rows[id], Row(kind, digest, notAfter, "", Received))
                else notAfter > 0 && (Answered(clock).Some? ==> notAfter <= Answered(clock).value.upper)
    {
      hide ExecutedOnce, EndsOk, Ticking, Progress, Answer;
      ProgressStarts(rows);
      if id in rows {
        return Done(rows[id].kind == kind && rows[id].digest == digest && rows[id].notAfter == notAfter);
      }
      if notAfter > 0 {
        var bounds := TaskStartBounds(clock);
        if bounds.None? || bounds.value.upper >= notAfter { return Done(false); }
      }
      var lands: bool, reports: bool, alive: bool := *, *, *;
      if lands {
        RowArrives(rows, since, executions, id, Row(kind, digest, notAfter, "", Received));
        RowEnds(rows, seen, executions, id, Row(kind, digest, notAfter, "", Received));
        rows := rows[id := Row(kind, digest, notAfter, "", Received)];
      }
      if !alive { return Killed; }
      if !(lands && reports) { troubles.calls := troubles.calls + 1; }
      return Done(lands && reports);
    }

    /** Tasks arrive and the clock is used while the worker is at work. */
    method Meanwhile(clock: ControlPlaneTaskClock?)
      requires Valid() && Ticking(clock)
      modifies this`rows, clock, troubles
      ensures Valid() && Ticking(clock) && Progress(old(rows), rows) && Arrived(old(rows), rows)
      ensures old(Calls(clock)) <= Calls(clock) && troubles.Later() && troubles.Kept() && troubles.Undisturbed()
    {
      hide ExecutedOnce, EndsOk, Ticking, InTime;
      var arrivals: nat := *;
      OthersAsk(clock);
      while arrivals > 0
        invariant Valid() && Ticking(clock) && Progress(old(rows), rows) && Arrived(old(rows), rows)
        invariant old(Calls(clock)) <= Calls(clock) && troubles.Later() && troubles.Kept() && troubles.Undisturbed()
      {
        var id: TaskId, kind: string, digest: string, notAfter: int := *, *, *, *;
        ProgressIsTransitive(old(rows), rows);
        var _ := Accept(id, kind, digest, notAfter, clock);
        OthersAsk(clock);
        arrivals := arrivals - 1;
      }
    }

    /** Every running row, each once. */
    method RunningTasks() returns (r: Step<Option<seq<Task>>>)
      modifies troubles
      ensures troubles.Later() && troubles.Undisturbed() && (r.Done? ==> (r.value.Some? <==> troubles.Kept()))
      ensures r.Done? && r.value.Some? ==>
                var tasks := r.value.value;
                && (forall i :: 0 <= i < |tasks| ==>
                                  tasks[i].id in rows && tasks[i].row == rows[tasks[i].id]
                                  && tasks[i].row.state.Running?)
                && (forall id :: id in rows && rows[id].state.Running? ==>
                                   exists i :: 0 <= i < |tasks| && tasks[i].id == id)
                && (forall i, j :: 0 <= i < j < |tasks| ==> tasks[i].id != tasks[j].id)
    {
      var alive: bool, answers: bool := *, *;
      if !alive { return Killed; }
      if !answers { troubles.disk := troubles.disk + 1; return Done(None); }
      var left := rows.Keys;
      var tasks: seq<Task> := [];
      while left != {}
        invariant left <= rows.Keys
        invariant forall i :: 0 <= i < |tasks| ==>
                                tasks[i].id in rows && tasks[i].row == rows[tasks[i].id] && tasks[i].row.state.Running?
        invariant forall id :: id in rows && id !in left && rows[id].state.Running? ==>
                                 exists i :: 0 <= i < |tasks| && tasks[i].id == id
        invariant forall i :: 0 <= i < |tasks| ==> tasks[i].id !in left
        invariant forall i, j :: 0 <= i < j < |tasks| ==> tasks[i].id != tasks[j].id
        decreases left
      {
        var id :| id in left;
        ghost var seen := tasks;
        if rows[id].state.Running? {
          tasks := tasks + [Task(id, rows[id])];
          assert tasks[|tasks| - 1].id == id;
        }
        assert forall i :: 0 <= i < |seen| ==> tasks[i] == seen[i];
        left := left - {id};
      }
      return Done(Some(tasks));
    }

    /** Writes one row, or reports that it did not; the report may be wrong. */
    method Commit(id: TaskId, row: Row) returns (r: Step<bool>)
      requires Valid() && id in rows && SameIdentity(rows[id], row) && !Terminal(rows[id].state)
      requires Entered(executions, id) ==> !row.state.Received? && row.token == rows[id].token
      requires Terminal(row.state) ==> Explained(seen, id, row)
      modifies this`rows, troubles
      ensures Valid() && Progress(old(rows), rows) && (rows == old(rows) || rows == old(rows)[id := row])
      ensures r == Done(true) ==> rows == old(rows)[id := row]
      ensures troubles.Later() && troubles.Undisturbed() && (r.Done? ==> (r.value <==> troubles.Kept()))
    {
      hide ExecutedOnce, EndsOk;
      var lands: bool, reports: bool, alive: bool := *, *, *;
      if lands {
        RowChanges(rows, since, executions, id, row);
        RowEnds(rows, seen, executions, id, row);
        rows := rows[id := row];
      }
      if !alive { return Killed; }
      if !(lands && reports) { troubles.disk := troubles.disk + 1; }
      return Done(lands && reports);
    }

    /** One page of received rows; rows that wait for the clock never hide all of those that do not. */
    method Candidates(clocked: bool) returns (ids: seq<TaskId>)
      ensures forall i :: 0 <= i < |ids| ==> Claimable(rows, ids[i], clocked)
      ensures |ids| < PAGE ==> forall id :: Claimable(rows, id, clocked) ==> id in ids
      ensures (exists id :: Unfenced(rows, id)) ==> exists id :: id in ids && Unfenced(rows, id)
    {
      var left := rows.Keys;
      ids := [];
      while left != {} && |ids| < PAGE
        invariant |ids| <= PAGE && left <= rows.Keys && forall i :: 0 <= i < |ids| ==> Claimable(rows, ids[i], clocked)
        invariant forall id :: Claimable(rows, id, clocked) ==> id in ids || id in left
        decreases left
      {
        var id :| id in left;
        if Claimable(rows, id, clocked) { ids := ids + [id]; }
        left := left - {id};
      }
      if |ids| == PAGE && !(exists i | 0 <= i < |ids| :: rows[ids[i]].notAfter <= 0) {
        ids := Fallback(ids, left, clocked);
      } else if |ids| == PAGE {
        ghost var i :| 0 <= i < |ids| && rows[ids[i]].notAfter <= 0;
        assert ids[i] in ids && Unfenced(rows, ids[i]);
      } else {
        assert forall id :: Unfenced(rows, id) ==> Claimable(rows, id, clocked);
      }
    }

    /** Adds a row without a deadline from beyond the page, if there is one. */
    method Fallback(page: seq<TaskId>, rest: set<TaskId>, clocked: bool) returns (ids: seq<TaskId>)
      requires |page| == PAGE && rest <= rows.Keys && forall i :: 0 <= i < |page| ==> Claimable(rows, page[i], clocked)
      requires forall id :: Claimable(rows, id, clocked) ==> id in page || id in rest
      ensures PAGE <= |ids| && forall i :: 0 <= i < |ids| ==> Claimable(rows, ids[i], clocked)
      ensures (exists id :: Unfenced(rows, id)) ==> exists id :: id in ids && Unfenced(rows, id)
    {
      var left := rest;
      while left != {}
        invariant left <= rest && forall id :: Unfenced(rows, id) ==> id in page || id in left
        decreases left
      {
        var id :| id in left;
        if rows[id].state.Received? && rows[id].notAfter <= 0 {
          assert id in page + [id] && Unfenced(rows, id);
          return page + [id];
        }
        left := left - {id};
      }
      return page;
    }

    /** Claims a candidate with time left, or ends one that provably has none; asked of the clock for that very row. */
    method ClaimNextTaskFenced(clock: ControlPlaneTaskClock?) returns (r: Step<Claim>, ghost page: seq<TaskId>)
      requires Valid() && Ticking(clock)
      modifies this`rows, this`since, this`seen, clock, troubles
      ensures Valid() && Ticking(clock) && Progress(old(rows), rows) && old(Calls(clock)) <= Calls(clock)
      ensures forall id :: id in rows && !rows[id].state.Received?
                           && (id in old(rows) ==> old(rows)[id].state.Received?) ==>
                Warranted(rows[id], RulesOf(clock), Calls(clock))
      ensures forall id :: id in old(rows) && !old(rows)[id].state.Received? ==> rows[id] == old(rows)[id]
      ensures r.Done? && r.value.Claimed? ==>
                var task := r.value.task;
                && task.id in rows && task.row == rows[task.id] && !Entered(executions, task.id)
                && (task.row.state.Running? ==>
                      task.id in since && since[task.id] == |Calls(clock)| && task.row.token != "")
                && Warranted(task.row, RulesOf(clock), Calls(clock))
                && (task.id in old(rows) ==> old(rows)[task.id].state.Received?)
      ensures troubles.Later() && troubles.Undisturbed() && (r.Done? ==> (r.value.ClaimFailed? <==> !troubles.Kept()))
      ensures r == Done(Nothing) ==> forall id :: !Unfenced(rows, id)
      ensures r == Done(Nothing) && |page| < PAGE ==> forall id :: Claimable(rows, id, clock != null) ==> id in page
      ensures r == Done(Nothing) ==>
                PassedOver(rows, page, |page|, clock != null, RulesOf(clock), Calls(clock), |old(Calls(clock))|)
    {
      hide ExecutedOnce, EndsOk, Ticking, Answer, Progress, SameIdentity, AskedInVain, PassedOver, Warranted;
      page := [];
      Meanwhile(clock);
      var ids := Candidates(clock != null);
      ghost var looked := rows;
      page := ids;
      NonePassedYet(rows, ids, clock != null, RulesOf(clock), Calls(clock), |old(Calls(clock))|);
      for i := 0 to |ids|
        invariant Valid() && Ticking(clock) && Progress(old(rows), rows) && Arrived(old(rows), rows)
        invariant old(Calls(clock)) <= Calls(clock) && troubles.Later() && troubles.Undisturbed() && troubles.Kept()
        invariant rows == looked && forall j :: 0 <= j < |ids| ==> Claimable(rows, ids[j], clock != null)
        invariant PassedOver(rows, ids, i, clock != null, RulesOf(clock), Calls(clock), |old(Calls(clock))|)
      {
        ReceivedWasNotEntered(rows, since, executions, ids[i]);
        ProgressIsTransitive(old(rows), rows);
        ghost var asked := Calls(clock);
        var claim :- ClaimOne(ids[i], clock);
        if !claim.Nothing? { return Done(claim), page; }
        OneMorePassed(rows, ids, i, clock != null, RulesOf(clock), asked, Calls(clock), |old(Calls(clock))|);
      }
      NonePassedIsUnfenced(rows, ids, clock != null, RulesOf(clock), Calls(clock), |old(Calls(clock))|);
      assert forall id :: !Unfenced(rows, id);
      return Done(Nothing), page;
    }

    /** A received row becomes running or failed, atomically, or is passed over. */
    method ClaimOne(id: TaskId, clock: ControlPlaneTaskClock?) returns (r: Step<Claim>)
      requires Valid() && Ticking(clock) && id in rows && rows[id].state.Received? && !Entered(executions, id)
      modifies this`rows, this`since, this`seen, clock, troubles
      ensures Valid() && Ticking(clock) && Progress(old(rows), rows) && old(Calls(clock)) <= Calls(clock)
      ensures id in rows && rows[id].state.Running? ==> id in since && since[id] == |Calls(clock)|
      ensures rows == old(rows)
              || (rows == old(rows)[id := rows[id]] && Warranted(rows[id], RulesOf(clock), Calls(clock))
                  && !rows[id].state.Received?)
      ensures troubles.Later() && troubles.Undisturbed() && (r.Done? ==> (r.value.ClaimFailed? <==> !troubles.Kept()))
      ensures r == Done(Nothing) ==> rows == old(rows) && Undecided(Answered(clock), rows[id].notAfter)
      ensures r == Done(Nothing) && clock != null ==>
                AskedInVain(RulesOf(clock), Calls(clock), |old(Calls(clock))|, rows[id].notAfter)
      ensures r.Done? && r.value.Claimed? ==>
                && r.value.task == Task(id, rows[id]) && !rows[id].state.Received?
                && (rows[id].state.Running? ==> rows[id].token != "")
    {
      hide ExecutedOnce, EndsOk, Ticking, Answer, AskedInVain;
      var row := rows[id];
      if row.notAfter > 0 {
        var bounds := TaskStartBounds(clock);
        if bounds.None? {
          if clock != null { LastInVain(RulesOf(clock), Calls(clock), |old(Calls(clock))|, row.notAfter); }
          return Done(Nothing);
        }
        if bounds.value.lower >= row.notAfter {
          See(id, Expired(RulesOf(clock), Calls(clock)));
          var ended :- Commit(id, row.(state := Failed));
          return Done(if ended then Claimed(Task(id, rows[id])) else ClaimFailed);
        }
        if bounds.value.upper >= row.notAfter {
          LastInVain(RulesOf(clock), Calls(clock), |old(Calls(clock))|, row.notAfter);
          return Done(Nothing);
        }
      }
      var token: string := *;
      if token == "" { token := "0"; }
      Claims(id, clock);
      var claimed :- Commit(id, row.(state := Running, token := token));
      return Done(if claimed then Claimed(Task(id, rows[id])) else ClaimFailed);
    }

    /** A claim written now counts from the calls made until now. */
    ghost method Claims(id: TaskId, clock: ControlPlaneTaskClock?)
      requires Valid() && !Entered(executions, id)
      modifies this`since
      ensures Valid() && since == old(since)[id := |Calls(clock)|]
    {
      hide ExecutedOnce, EndsOk;
      ClaimLands(rows, since, executions, id, |Calls(clock)|);
      since := since[id := |Calls(clock)|];
    }

    /** Undoes exactly the claim the caller holds, which it never entered. */
    method ReleaseTaskClaim(task: Task) returns (r: Step<bool>)
      requires Valid() && !Entered(executions, task.id)
      modifies this`rows, troubles
      ensures Valid() && Progress(old(rows), rows)
      ensures rows != old(rows) ==>
                && task.id in old(rows) && old(rows)[task.id] == task.row && task.row.state.Running?
                && task.row.token != ""
                && rows == old(rows)[task.id := task.row.(state := Received, token := "")]
      ensures r == Done(true) ==> rows != old(rows)
      ensures troubles.Later() && troubles.Undisturbed() && (r == Done(true) ==> troubles.Kept())
      ensures r == Done(false) && troubles.Kept() ==>
                task.id !in old(rows) || old(rows)[task.id] != task.row
                || !task.row.state.Running? || task.row.token == ""
    {
      if !task.row.state.Running? || task.row.token == "" { return Done(false); }
      if task.id !in rows || rows[task.id] != task.row { return Done(false); }
      r := Commit(task.id, task.row.(state := Received, token := ""));
    }

    /** The journal has the task, running. */
    predicate Open(task: Task) reads this {
      task.id in rows && SameIdentity(rows[task.id], task.row) && rows[task.id].state.Running?
    }

    predicate EndedAs(task: Task, terminal: State) reads this {
      && task.id in rows && SameIdentity(rows[task.id], task.row)
      && Terminal(terminal) && rows[task.id].state == terminal
    }

    /** Ends a running task; a terminal one is only answered. */
    method CompleteTask(task: Task, terminal: State, ghost end: End) returns (r: Step<bool>)
      requires Valid() && Seen(task.id, end) in seen && EndsAs(end, task.row.notAfter, terminal)
      modifies this`rows, troubles
      ensures Valid() && Progress(old(rows), rows)
      ensures r == Done(true) ==> task.id in rows && rows[task.id].state == terminal
      ensures old(EndedAs(task, terminal)) ==> r == Done(true) && rows == old(rows)
      ensures troubles.Later() && troubles.Undisturbed()
      ensures r.Done? && Terminal(terminal) && old(Open(task)) ==> (r.value <==> troubles.Kept())
      ensures rows == old(rows) ||
              (task.id in old(rows) && old(rows)[task.id].state.Running?
               && rows == old(rows)[task.id := old(rows)[task.id].(state := terminal)])
    {
      if !Terminal(terminal) || task.id !in rows || !SameIdentity(rows[task.id], task.row) { return Done(false); }
      if Terminal(rows[task.id].state) { return Done(rows[task.id].state == terminal); }
      if !rows[task.id].state.Running? { return Done(false); }
      r := Commit(task.id, rows[task.id].(state := terminal));
    }
  }

  /** How a recovery pass ended: through, stopped with the process, or with an error. */
  datatype Recovery = Through | Stopped | Erred

  /**
    * How a claimed task fared: not entered, its claim given back or not; cut short by the end of the
    * process; or ended.
    */
  datatype Entry = Deferred(released: bool) | Cut | Ended(finished: bool, outcome: Outcome)

  /** What came of one claim. */
  datatype Drained =
    | Idle                                    // there was nothing to claim
    | Erring                                  // the claim failed
    | Lapsed(task: Task)                      // its deadline was over
    | Refused(task: Task, finished: bool)     // nothing handles it
    | Tried(task: Task, entry: Entry)

  /** A write about the task failed. */
  predicate Unwritten(entry: Entry) {
    (entry.Deferred? && !entry.released) || (entry.Ended? && !entry.finished)
  }

  predicate Fails(drained: Drained) {
    || drained.Erring? || (drained.Refused? && !drained.finished)
    || (drained.Tried? && Unwritten(drained.entry))
  }

  /** Why a worker stops claiming: nothing is left, it waits for the clock, it was told to, or the store failed. */
  datatype Halt = Dry | Waiting | Told | Failing

  function Unclaimed(row: Row): Row {
    row.(state := Received, token := "")
  }

  /** Of the rows there were, at most this one changed. */
  ghost predicate OnlyOf(before: map<TaskId, Row>, after: map<TaskId, Row>, id: TaskId) {
    forall other :: other in before && other != id ==> other in after && after[other] == before[other]
  }

  /** What an earlier process left running has ended. */
  ghost predicate AllEnded(before: map<TaskId, Row>, after: map<TaskId, Row>) {
    forall id :: id in before && before[id].state.Running? ==> id in after && Terminal(after[id].state)
  }

  lemma StaysEnded(before: map<TaskId, Row>, after: map<TaskId, Row>)
    requires AllEnded(before, after)
    ensures forall later :: Progress(after, later) ==> AllEnded(before, later)
  {
  }

  class Worker {
    const store: Store
    const clock: ControlPlaneTaskClock?
    const handlers: set<string>               // the kinds of task something is registered for
    const recoverers: set<string>             // those whose handler can say how a task it was given went

    ghost predicate Valid() reads this, store, clock {
      store.Valid() && Ticking(clock)
    }

    constructor (store: Store, clock: ControlPlaneTaskClock?, handlers: set<string>, recoverers: set<string>)
      ensures this.store == store && this.clock == clock
      ensures this.handlers == handlers && this.recoverers == recoverers
    {
      this.store, this.clock, this.handlers, this.recoverers := store, clock, handlers, recoverers;
    }

    /**
      * Enters the handler, the one place a task is executed: with the row that is in the journal,
      * and, if that has a deadline, on an answer asked for since its claim that leaves time.
      */
    method Execute(task: Task, ghost at: nat) returns (r: Step<Outcome>)
      requires Valid() && Holds(task) && task.row.kind in handlers
      requires task.row.notAfter > 0 ==>
                 store.since[task.id] <= at && LeavesTime(RulesOf(clock), Calls(clock), at, task.row.notAfter)
      modifies store`executions, store`seen, store.troubles
      ensures Valid()
      ensures store.executions ==
              old(store.executions) + [Execution(task.id, task.row, RulesOf(clock), Calls(clock), at)]
      ensures r.Done? ==> store.seen == old(store.seen) + {Seen(task.id, Returned(r.value))}
      ensures store.troubles.Later() && store.troubles.Kept()
      ensures r.Done? ==> (r.value.Interrupted? <==> !store.troubles.Undisturbed())
    {
      hide Ticking, LeavesTime, ExecutedOnce, EndsOk, Entered;
      EnterMore(store.rows, store.seen, store.executions,
                Execution(task.id, task.row, RulesOf(clock), Calls(clock), at));
      EnteredMore(store.executions, Execution(task.id, task.row, RulesOf(clock), Calls(clock), at));
      EntryJoins(store.rows, store.since, store.executions,
                 Execution(task.id, task.row, RulesOf(clock), Calls(clock), at));
      store.executions := store.executions + [Execution(task.id, task.row, RulesOf(clock), Calls(clock), at)];
      var alive: bool, outcome: Outcome := *, *;
      if !alive { return Killed; }
      store.See(task.id, Returned(outcome));
      if outcome.Interrupted? { store.troubles.cancelled := store.troubles.cancelled + 1; }
      return Done(outcome);
    }

    /** The worker has just claimed this row, and has not entered it. */
    ghost predicate Holds(task: Task) reads this, store {
      && task.id in store.rows && store.rows[task.id] == task.row && task.row.state.Running?
      && task.id in store.since && !Entered(store.executions, task.id) && task.row.token != ""
    }

    /** Whether anything is registered for the task's kind. */
    method Handles(task: Task) returns (handled: bool)
      requires Valid()
      modifies store`seen
      ensures handled <==> task.row.kind in handlers
      ensures Valid() && store.seen == old(store.seen) + if handled then {} else {Seen(task.id, Unhandled)}
    {
      hide Ticking, ExecutedOnce, EndsOk;
      handled := task.row.kind in handlers;
      if !handled { store.See(task.id, Unhandled); }
    }

    /** Whether the task's handler can say how a task it was given went. */
    method Recovers(task: Task) returns (able: bool)
      requires Valid()
      modifies store`seen
      ensures able <==> task.row.kind in handlers && task.row.kind in recoverers
      ensures Valid() && store.seen == old(store.seen) + if able then {} else {Seen(task.id, Unrecoverable)}
    {
      hide Ticking, ExecutedOnce, EndsOk;
      able := task.row.kind in handlers && task.row.kind in recoverers;
      if !able { store.See(task.id, Unrecoverable); }
    }

    /** Asks the handler how it went; nothing is entered. */
    method Recover(task: Task) returns (r: Step<Outcome>)
      requires Valid() && task.row.kind in handlers && task.row.kind in recoverers
      modifies store`seen, store.troubles
      ensures Valid() && old(store.seen) <= store.seen && store.troubles.Later() && store.troubles.Kept()
      ensures r.Done? ==> (r.value.Interrupted? <==> !store.troubles.Undisturbed())
      ensures r.Done? ==> store.seen == old(store.seen) + {Seen(task.id, Recovered(r.value))}
    {
      hide Ticking, ExecutedOnce, EndsOk;
      var alive: bool, outcome: Outcome := *, *;
      if !alive { return Killed; }
      store.See(task.id, Recovered(outcome));
      if outcome.Interrupted? { store.troubles.cancelled := store.troubles.cancelled + 1; }
      return Done(outcome);
    }

    /** Ends a task without a result: its outcome is open, or it failed. */
    method FinishError(task: Task, indeterminate: bool, ghost end: End) returns (r: Step<bool>)
      requires store.Valid() && Seen(task.id, end) in store.seen
      requires EndsAs(end, task.row.notAfter, if indeterminate then Indeterminate else Failed)
      modifies store`rows, store.troubles
      ensures store.Valid() && Progress(old(store.rows), store.rows)
      ensures store.troubles.Later() && store.troubles.Undisturbed() && OnlyOf(old(store.rows), store.rows, task.id)
      ensures r.Done? && old(store.Open(task)) ==> (r.value <==> store.troubles.Kept())
      ensures r == Done(true) ==>
                task.id in store.rows && store.rows[task.id].state == if indeterminate then Indeterminate else Failed
    {
      hide ExecutedOnce, EndsOk, EndsAs;
      r := store.CompleteTask(task, if indeterminate then Indeterminate else Failed, end);
    }

    /** Ends a task as its handler's call says: succeeded exactly with a valid result. */
    method Finish(task: Task, outcome: Outcome, recovering: bool) returns (r: Step<bool>)
      requires store.Valid() && !outcome.Interrupted?
      requires Seen(task.id, if recovering then Recovered(outcome) else Returned(outcome)) in store.seen
      modifies store`rows, store.troubles
      ensures store.Valid() && Progress(old(store.rows), store.rows)
      ensures store.troubles.Later() && store.troubles.Undisturbed() && OnlyOf(old(store.rows), store.rows, task.id)
      ensures r.Done? && old(store.Open(task)) ==> (r.value <==> store.troubles.Kept())
      ensures r == Done(true) ==>
                task.id in store.rows && Settles(outcome, recovering, store.rows[task.id].state)
    {
      hide ExecutedOnce, EndsOk;
      ghost var end := if recovering then Recovered(outcome) else Returned(outcome);
      if outcome.Error? {
        var indeterminate := recovering;
        if outcome.classified.Some? { indeterminate := outcome.classified.value; }
        r := FinishError(task, indeterminate, end);
      } else if !outcome.valid {
        r := FinishError(task, false, end);
      } else {
        r := store.CompleteTask(task, Succeeded, end);
      }
    }

    /** Ends one task an earlier process left running, as its handler says, if it can. */
    method RecoverOne(task: Task) returns (r: Step<Recovery>)
      requires Valid() && store.Open(task)
      modifies store`rows, store`seen, store.troubles
      ensures Valid() && Progress(old(store.rows), store.rows) && OnlyOf(old(store.rows), store.rows, task.id)
      ensures r == Done(Through) ==> task.id in store.rows && Terminal(store.rows[task.id].state)
      ensures store.troubles.Later() && (r.Done? ==> (r.value.Erred? <==> !store.troubles.Kept()))
      ensures r == Done(Stopped) ==> !store.troubles.Undisturbed()
    {
      hide Ticking, ExecutedOnce, EndsOk, Progress, EndsAs;
      ProgressStarts(store.rows);
      EndsAsSeen(task.row.notAfter);
      var able := Recovers(task);
      var finished := false;
      if able {
        var outcome :- Recover(task);
        if outcome.Interrupted? { return Done(Stopped); }
        finished :- Finish(task, outcome, true);
      } else {
        finished :- FinishError(task, true, Unrecoverable);
      }
      return Done(if finished then Through else Erred);
    }

    lemma EndsAsSeen(notAfter: int)
      ensures EndsAs(Unrecoverable, notAfter, Indeterminate) && EndsAs(Unhandled, notAfter, Failed)
    {
    }

    /**
      * What an earlier process left running is only ever recovered, never entered; once through,
      * all of it has ended. It gets through unless told to stop or the store fails.
      */
    method RecoverRunning() returns (r: Step<Recovery>)
      requires Valid()
      modifies store`rows, store`seen, store.troubles
      ensures Valid() && Progress(old(store.rows), store.rows)
      ensures r == Done(Through) ==> AllEnded(old(store.rows), store.rows)
      ensures store.troubles.Later() && (r.Done? ==> (r.value.Erred? <==> !store.troubles.Kept()))
      ensures r == Done(Stopped) ==> !store.troubles.Undisturbed()
    {
      hide Ticking, ExecutedOnce, EndsOk, Progress;
      ProgressStarts(store.rows);
      var listed :- store.RunningTasks();
      if listed.None? { return Done(Erred); }
      var tasks := listed.value;
      for i := 0 to |tasks|
        invariant Valid() && Progress(old(store.rows), store.rows) && store.troubles.Later() && store.troubles.Kept()
        invariant forall j :: i <= j < |tasks| ==> store.Open(tasks[j])
        invariant forall j :: 0 <= j < i ==> tasks[j].id in store.rows && Terminal(store.rows[tasks[j].id].state)
      {
        ProgressIsTransitive(old(store.rows), store.rows);
        r := RecoverOne(tasks[i]);
        if r != Done(Through) { return; }
      }
      return Done(Through);
    }

    /**
      * One claim: ended unentered, released, or entered once and completed. What is claimed with time
      * left and can be handled is entered, unless by then no time is left.
      */
    method DrainOne() returns (r: Step<Drained>, ghost claim: Claim)
      requires Valid()
      modifies store, clock, store.troubles
      ensures Valid() && Progress(old(store.rows), store.rows)
      ensures old(store.executions) <= store.executions && |store.executions| <= |old(store.executions)| + 1
      ensures forall id :: id in old(store.rows) && !old(store.rows)[id].state.Received?
                           && Entered(store.executions, id) ==>
                Entered(old(store.executions), id)
      ensures r == Done(Idle) ==> claim.Nothing? && forall id :: !Unfenced(store.rows, id)
      ensures r == Done(Erring) ==> claim.ClaimFailed?
      ensures store.troubles.Later() && (r.Done? ==> (Fails(r.value) <==> !store.troubles.Kept()))
      ensures r.Done? && r.value.Refused? ==> r.value.task.row.kind !in handlers
      ensures r.Done? && r.value.Tried? ==> r.value.task.row.kind in handlers
      ensures r.Done? && r.value.Tried? && r.value.entry.Cut? ==> !store.troubles.Undisturbed()
      ensures r.Done? && r.value.Lapsed? ==> Claimed(r.value.task) == claim && Terminal(r.value.task.row.state)
      ensures r.Done? && r.value.Refused? ==>
                && Claimed(r.value.task) == claim && Seen(r.value.task.id, Unhandled) in store.seen
                && (r.value.finished ==>
                      r.value.task.id in store.rows && store.rows[r.value.task.id].state.Failed?)
      ensures r.Done? && r.value.Tried? ==>
                && Claimed(r.value.task) == claim && r.value.task.row.state.Running?
                && (r.value.entry.Deferred? <==> store.executions == old(store.executions))
                && (!r.value.entry.Deferred? ==> Entered(store.executions, r.value.task.id))
    {
      hide ExecutedOnce, EndsOk, Ticking, Progress, InTime, Over, LeavesTime, PassedOver;
      ghost var page;
      var got;
      claim := Nothing;
      got, page :- store.ClaimNextTaskFenced(clock);
      claim := got;
      if got.Nothing? { return Done(Idle), claim; }
      if got.ClaimFailed? { return Done(Erring), claim; }
      var task := got.task;
      ProgressIsTransitive(old(store.rows), store.rows);
      if Terminal(task.row.state) { return Done(Lapsed(task)), claim; }
      var handled := Handles(task);
      if !handled {
        var finished :- FinishError(task, false, Unhandled);
        return Done(Refused(task, finished)), claim;
      }
      var entry :- Enter(task);
      return Done(Tried(task, entry)), claim;
    }

    /**
      * The clock is asked once more between the claim and the handler. Without an answer that leaves
      * time the task is not entered, and the claim is given back; heartbeats and new tasks may come
      * between the answer and the entry.
      */
    method Enter(task: Task) returns (r: Step<Entry>)
      requires Valid() && Holds(task) && task.row.kind in handlers && store.since[task.id] == |Calls(clock)|
      modifies store`rows, store`executions, store`seen, clock, store.troubles
      ensures Valid() && Progress(old(store.rows), store.rows)
      ensures store.executions == old(store.executions)
              || (|store.executions| == |old(store.executions)| + 1 && old(store.executions) <= store.executions
                  && store.executions[|old(store.executions)|].id == task.id
                  && store.executions[|old(store.executions)|].row == task.row)
      ensures forall id :: Entered(store.executions, id) ==> Entered(old(store.executions), id) || id == task.id
      ensures r.Done? ==> (r.value.Deferred? <==> store.executions == old(store.executions))
      ensures r.Done? && r.value.Deferred? ==>
                && task.row.notAfter > 0
                && (Answered(clock).Some? ==> task.row.notAfter <= Answered(clock).value.upper)
      ensures r.Done? && r.value.Ended? ==> Seen(task.id, Returned(r.value.outcome)) in store.seen
      ensures r.Done? && r.value.Ended? && r.value.finished ==>
                task.id in store.rows && Settles(r.value.outcome, false, store.rows[task.id].state)
      ensures store.troubles.Later() && (r == Done(Cut) ==> !store.troubles.Undisturbed())
      ensures r.Done? ==> (Unwritten(r.value) <==> !store.troubles.Kept())
      ensures r == Done(Deferred(true)) ==> store.rows == old(store.rows)[task.id := Unclaimed(task.row)]
      ensures r == Done(Deferred(false)) ==>
                store.rows == old(store.rows) || store.rows == old(store.rows)[task.id := Unclaimed(task.row)]
    {
      hide ExecutedOnce, EndsOk, Ticking, Progress, Answer;
      ProgressStarts(store.rows);
      ghost var at := 0;
      if task.row.notAfter > 0 {
        var bounds := TaskStartBounds(clock);
        if bounds.None? || bounds.value.upper >= task.row.notAfter {
          var released :- store.ReleaseTaskClaim(task);
          return Done(Deferred(released));
        }
        at := |Calls(clock)| - 1;
      }
      ghost var asked := Calls(clock);
      store.Meanwhile(clock);
      if task.row.notAfter > 0 { AnswerMore(RulesOf(clock), asked, Calls(clock), at); }
      ProgressIsTransitive(old(store.rows), store.rows);
      r := Carry(task, at);
    }

    /** The task is entered, and ended as its handler's call says. */
    method Carry(task: Task, ghost at: nat) returns (r: Step<Entry>)
      requires Valid() && Holds(task) && task.row.kind in handlers
      requires task.row.notAfter > 0 ==>
                 store.since[task.id] <= at && LeavesTime(RulesOf(clock), Calls(clock), at, task.row.notAfter)
      modifies store`rows, store`executions, store`seen, store.troubles
      ensures Valid() && Progress(old(store.rows), store.rows)
      ensures store.executions ==
              old(store.executions) + [Execution(task.id, task.row, RulesOf(clock), Calls(clock), at)]
      ensures forall id :: Entered(store.executions, id) <==> Entered(old(store.executions), id) || id == task.id
      ensures r.Done? ==> !r.value.Deferred?
      ensures r.Done? && r.value.Ended? ==> Seen(task.id, Returned(r.value.outcome)) in store.seen
      ensures r.Done? && r.value.Ended? && r.value.finished ==>
                task.id in store.rows && Settles(r.value.outcome, false, store.rows[task.id].state)
      ensures store.troubles.Later() && (r == Done(Cut) ==> !store.troubles.Undisturbed())
      ensures r.Done? ==> (r.value.Ended? && !r.value.finished <==> !store.troubles.Kept())
    {
      hide ExecutedOnce, EndsOk, Ticking, Progress, LeavesTime, Settles;
      ProgressStarts(store.rows);
      EnteredMore(store.executions, Execution(task.id, task.row, RulesOf(clock), Calls(clock), at));
      var outcome :- Execute(task, at);
      if outcome.Interrupted? { return Done(Cut); }
      var finished :- Finish(task, outcome, false);
      return Done(Ended(finished, outcome));
    }

    /** Claims one task after another, until nothing is left that may be claimed now. */
    method Drain() returns (r: Step<Halt>)
      requires Valid()
      modifies store, clock, store.troubles
      ensures Valid() && Progress(old(store.rows), store.rows) && old(store.executions) <= store.executions
      ensures store.troubles.Later() && (r.Done? ==> (r.value.Failing? <==> !store.troubles.Kept()))
      ensures r == Done(Dry) ==> forall id :: !Unfenced(store.rows, id)
      ensures r == Done(Told) ==> !store.troubles.Undisturbed()
    {
      hide ExecutedOnce, EndsOk, Progress, Ticking, Entered;
      ProgressStarts(store.rows);
      var polls: nat := *;
      while polls > 0
        invariant Valid() && Progress(old(store.rows), store.rows) && old(store.executions) <= store.executions
        invariant store.troubles.Later() && store.troubles.Kept()
        decreases polls
      {
        ProgressIsTransitive(old(store.rows), store.rows);
        ghost var claim;
        var drained;
        drained, claim :- DrainOne();
        polls := polls - 1;
        match drained
        case Idle => return Done(Dry);
        case Erring => return Done(Failing);
        case Lapsed(_) =>
        case Refused(_, finished) =>
          if !finished { return Done(Failing); }
        case Tried(_, Deferred(released)) =>
          return Done(if released then Waiting else Failing);
        case Tried(_, Cut) =>
          return Done(Told);
        case Tried(_, Ended(finished, _)) =>
          if !finished { return Done(Failing); }
      }
      store.troubles.cancelled := store.troubles.cancelled + 1;
      return Done(Told);
    }

    /**
      * Recovery comes first: nothing is claimed while anything left running has not ended. Then it
      * drains, as often as it is woken.
      */
    method Run() returns (r: Step<bool>)
      requires Valid()
      modifies store, clock, store.troubles
      ensures Valid() && Progress(old(store.rows), store.rows) && old(store.executions) <= store.executions
      ensures store.executions != old(store.executions) ==> AllEnded(old(store.rows), store.rows)
      ensures store.troubles.Later() && (r == Done(true) ==> !store.troubles.Undisturbed())
      ensures r.Done? ==> (r.value <==> store.troubles.Kept())
    {
      hide ExecutedOnce, EndsOk, Ticking, Progress, AllEnded;
      var recovered :- RecoverRunning();
      if !recovered.Through? { return Done(recovered.Stopped?); }
      var wakes: nat := *;
      while wakes > 0
        invariant Valid() && Progress(old(store.rows), store.rows) && old(store.executions) <= store.executions
        invariant AllEnded(old(store.rows), store.rows) && store.troubles.Later() && store.troubles.Kept()
      {
        ProgressIsTransitive(old(store.rows), store.rows);
        StaysEnded(old(store.rows), store.rows);
        var halt :- Drain();
        if halt.Told? || halt.Failing? { return Done(halt.Told?); }
        ProgressIsTransitive(old(store.rows), store.rows);
        StaysEnded(old(store.rows), store.rows);
        store.Meanwhile(clock);
        wakes := wakes - 1;
      }
      store.troubles.cancelled := store.troubles.cancelled + 1;
      return Done(true);
    }
  }

  /**
    * Any number of worker processes, one after another, each with a clock of its own
    * and killed anywhere or ending with an error: no task is ever entered twice, none
    * without time left by the clock, and no row is lost or, once terminal, changed.
    */
  method Restart(store: Store, times: nat)
    requires store.Valid()
    modifies store, store.troubles
    ensures ExecutedOnce(store.rows, store.since, store.executions) && Progress(old(store.rows), store.rows)
    ensures EndsOk(store.rows, store.seen, store.executions)
  {
    hide ExecutedOnce, EndsOk, Progress;
    ProgressStarts(store.rows);
    for i := 0 to times
      invariant store.Valid() && Progress(old(store.rows), store.rows)
    {
      ProgressIsTransitive(old(store.rows), store.rows);
      var age: int64, trip: int64, uncertainty: int64, reading: Option<int64> := *, *, *, *;
      var clock := NewControlPlaneTaskClock(age, trip, uncertainty, reading);
      var handlers: set<string>, recoverers: set<string> := *, *;
      var worker := new Worker(store, clock, handlers, recoverers);
      var outcome := worker.Run();
      ProgressIsTransitive(old(store.rows), store.rows);
      store.Meanwhile(clock);
    }
  }

  lemma ProgressStarts(rows: map<TaskId, Row>)
    ensures Progress(rows, rows)
  {
  }

  /**
    * Under the clock's assumptions, the reading on which a task was entered was taken strictly
    * before the deadline its row in the journal has, in control-plane time.
    */
  lemma EnteredInTime(rows: map<TaskId, Row>, since: map<TaskId, nat>, executions: seq<Execution>, i: nat,
                      instants: seq<int>, offset: int)
    requires ExecutedOnce(rows, since, executions) && i < |executions|
    requires executions[i].id in rows && rows[executions[i].id].notAfter > 0
    requires Honest(executions[i].policy, executions[i].events, instants, offset)
    ensures var e := executions[i];
            && e.id in since && since[e.id] <= e.at < |e.events| && e.events[e.at].reading.Some?
            && e.events[e.at].reading.value + offset < rows[e.id].notAfter * MS
  {
    hide Answer, Honest;
    var e := executions[i];
    assert EntryOk(rows, since, e);
    BoundsAreSound(e.policy, e.events, instants, offset, e.at);
  }
}
