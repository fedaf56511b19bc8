/**
  * From a task's deadline in control-plane time to a deadline on the boot counter
  * that another process checks (internal/upgrade/client.go Execute;
  * internal/upgrade/docker_helper.go and helper_linux.go authorized).
  */
module Deadline {
  import opened Wrappers
  import opened Crashes
  import opened Requests
  import opened BootCounter
  import opened TaskClock
  import opened TaskClockCode
  import DockerSwap
  import DockerHistory
  import DockerHelper
  import SystemdHistory
  import SystemdUpgrade

  const TEN_MINUTES_MS: int := 600_000

  /** On which boot, and until when on its counter, a task may begin. */
  datatype Grant = Grant(boot: string, until: int)

  /** The deadline on the counter: what is left at the upper bound, counted from the reading taken before it. */
  function Until(notAfter: int, elapsed: int, upper: int): int {
    elapsed + (notAfter - upper) * MS
  }

  /** What the client may convert: some time is left, and no more than ten minutes of it. */
  predicate Convertible(notAfter: int, elapsed: int, upper: int) {
    0 < notAfter - upper <= TEN_MINUTES_MS && 0 <= elapsed && Until(notAfter, elapsed, upper) <= MAX
  }

  /** The counter answered with a 64-bit number of nanoseconds. */
  predicate Fits(reading: Requests.Clock) {
    reading.Reading? && -0x8000_0000_0000_0000 <= reading.elapsed <= MAX
  }

  /** The clock's last answer, given after this counter reading on the same counter. */
  ghost predicate Asked(policy: Policy, events: seq<Event>, first: Requests.Clock, answer: Option<Bounds>)
    requires Allowed(policy)
  {
    && first.Reading? && |events| > 0 && answer == Answer(policy, events, |events| - 1)
    && (answer.Some? ==> events[|events| - 1].reading.Some? && first.elapsed <= events[|events| - 1].reading.value)
  }

  /**
    * Builds the deadline. The counter is read first and the bounds, which read it
    * again, second, so a pause between them shortens what the helper is given.
    */
  method Authorize(clock: ControlPlaneTaskClock, counter: Counter, notAfter: int64)
    returns (r: Step<Option<Grant>>, ghost first: Requests.Clock, ghost answer: Option<Bounds>)
    requires clock.Valid() && counter.Valid() && notAfter > 0
    modifies clock, counter
    ensures clock.Valid() && Allowed(clock.Rules()) && counter.Valid() && old(counter.readings) <= counter.readings
    ensures r.Done? ==> |old(counter.readings)| < |counter.readings|
                        && first == counter.readings[|old(counter.readings)|]
    ensures r.Done? && !Fits(first) ==> r.value.None? && clock.events == old(clock.events)
    ensures r.Done? && Fits(first) ==>
              && |clock.events| == |old(clock.events)| + 1 && old(clock.events) <= clock.events
              && Asked(clock.Rules(), clock.events, first, answer)
              && (r.value.Some? <==> answer.Some? && Convertible(notAfter as int, first.elapsed, answer.value.upper))
              && (r.value.Some? ==>
                    r.value.value == Grant(first.boot, Until(notAfter as int, first.elapsed, answer.value.upper)))
  {
    hide Queried, Kept, Answer;
    first, answer := NoReading, None;
    var now :- counter.Read();
    first := now;
    if !Fits(now) { return Done(None), first, None; }
    var elapsed := now.elapsed as int64;
    var again :- counter.Read();
    if again.Reading? && again.boot != now.boot { return Killed, first, None; }
    ghost var at := |old(counter.readings)|;
    assert counter.readings[at] == now && counter.readings[at + 1] == again;
    var reading := if Fits(again) then Some(again.elapsed as int64) else None;
    QueriedKeeps(clock.Rules(), clock.State(), Widened(reading));
    var bounds := clock.TaskTimeBounds(reading);
    answer := Pair(bounds);
    AnswersNeedReadings(clock.Rules(), clock.events);
    if bounds.None? { return Done(None), first, answer; }
    r := Convert(notAfter, now.boot, elapsed, bounds.value.1);
  }

  method Convert(notAfter: int64, boot: string, elapsed: int64, upper: int64) returns (r: Step<Option<Grant>>)
    requires notAfter > 0 && upper > 0
    ensures r.Done? && (r.value.Some? <==> Convertible(notAfter as int, elapsed as int, upper as int))
    ensures r.value.Some? ==> r.value.value == Grant(boot, Until(notAfter as int, elapsed as int, upper as int))
  {
    var remaining := notAfter - upper;
    if remaining <= 0 || remaining > 600_000 { return Done(None); }
    if elapsed < 0 || elapsed > MAX64 - remaining * MS64 { return Done(None); }
    return Done(Some(Grant(boot, (elapsed + remaining * MS64) as int)));
  }

  /** Bounds come from a reading, and are of the era the clock knows. */
  lemma AnswersNeedReadings(policy: Policy, events: seq<Event>)
    requires Allowed(policy) && |events| > 0
    ensures var answer := Answer(policy, events, |events| - 1);
            answer.Some? ==> events[|events| - 1].reading.Some? && 0 < answer.value.lower <= answer.value.upper
  {
    hide BoundsAt, Kept;
    var last := |events| - 1;
    AfterKeeps(policy, events, last, last);
    if events[last].Query? {
      QueriedKeeps(policy, After(policy, events, last), events[last].reading);
    }
  }

  /**
    * The helper accepts every moment up to the deadline before the task's own, in true
    * control-plane time, exactly when the counter reading the client started from lies
    * at or before the upper bound it used.
    */
  lemma InTimeExactly(notAfter: int, elapsed: int, upper: int, offset: int)
    ensures (forall reading :: reading < Until(notAfter, elapsed, upper) ==> Before(reading, notAfter, offset))
            <==> elapsed + offset <= upper * MS
  {
    if elapsed + offset > upper * MS {
      assert !Before(Until(notAfter, elapsed, upper) - 1, notAfter, offset);
    }
  }

  /** The control-plane time of a reading is strictly before the deadline. */
  predicate Before(reading: int, notAfter: int, offset: int) {
    reading + offset < notAfter * MS
  }

  /**
    * Were the counter read a second after the bounds, exact as those are, the helper could start a
    * task past its deadline.
    */
  lemma ReadingTheCounterLastOverruns()
    ensures var first, second := 1_000 * MS, 2_000 * MS;
            && Contains(Bounds(1_000, 1_000), first, 0) && Convertible(1_500, second, 1_000)
            && !(forall reading :: reading < Until(1_500, second, 1_000) ==> Before(reading, 1_500, 0))
  {
    InTimeExactly(1_500, 2_000 * MS, 1_000, 0);
  }

  /**
    * Under the clock's assumptions, whoever acts on a reading before the converted
    * deadline acts strictly before the task's deadline in control-plane time.
    */
  lemma ActsBeforeDeadline(policy: Policy, events: seq<Event>, instants: seq<int>, offset: int, first: Requests.Clock,
                           answer: Option<Bounds>, notAfter: int, reading: int)
    requires Allowed(policy) && Honest(policy, events, instants, offset) && Asked(policy, events, first, answer)
             && answer.Some?
    requires reading < Until(notAfter, first.elapsed, answer.value.upper)
    ensures Before(reading, notAfter, offset)
  {
    hide Answer, Honest;
    BoundsAreSound(policy, events, instants, offset, |events| - 1);
    InTimeExactly(notAfter, first.elapsed, answer.value.upper, offset);
  }

  /**
    * Of the readings taken on a request's boot since it was built, exactly those
    * before its deadline permit it: the ten-minute cap never refuses one.
    */
  lemma CapNeverRefuses(readings: seq<Requests.Clock>, from: nat, at: nat, request: Request, notAfter: int, upper: int)
    requires Steady(readings) && from <= at < |readings| && Fits(readings[from])
    requires Convertible(notAfter, readings[from].elapsed, upper)
    requires request.boot == readings[from].boot && request.until == Until(notAfter, readings[from].elapsed, upper)
    ensures Allows(readings, at, request)
            <==> readings[at].Reading? && readings[at].boot == request.boot && readings[at].elapsed < request.until
  {
    if from < at && readings[at].Reading? && readings[at].boot == request.boot {
      assert readings[from].elapsed <= readings[at].elapsed;
    }
  }

  /** The request the client writes. */
  function Granted(request: Request, grant: Grant): Request {
    request.(boot := grant.boot, until := grant.until)
  }

  /** Whatever the honest stamps and the offset, the reading at this place was taken before the deadline. */
  ghost predicate TakenInTime(policy: Policy, events: seq<Event>, readings: seq<Requests.Clock>, at: nat,
                              notAfter: int) {
    at < |readings| && readings[at].Reading?
    && forall instants, offset :: Honest(policy, events, instants, offset) ==>
                                    Before(readings[at].elapsed, notAfter, offset)
  }

  lemma AllowedIsInTime(policy: Policy, events: seq<Event>, first: Requests.Clock, answer: Option<Bounds>,
                        notAfter: int,
                        readings: seq<Requests.Clock>, at: nat, request: Request)
    requires Allowed(policy) && Asked(policy, events, first, answer) && answer.Some?
    requires request.until == Until(notAfter, first.elapsed, answer.value.upper) && Allows(readings, at, request)
    ensures TakenInTime(policy, events, readings, at, notAfter)
  {
    hide Asked, Honest, Before;
    forall instants, offset | Honest(policy, events, instants,
                                     offset) ensures Before(readings[at].elapsed, notAfter, offset) {
      ActsBeforeDeadline(policy, events, instants, offset, first, answer, notAfter, readings[at].elapsed);
    }
  }

  /**
    * Every stop of the agent for the granted request was decided, after its receipt was on disk,
    * before the task's deadline.
    */
  lemma AgentIsStoppedInTime(policy: Policy, events: seq<Event>, first: Requests.Clock, answer: Option<Bounds>,
                             notAfter: int,
                             stops: seq<DockerHistory.Stop>, mutated: set<TaskId>, readings: seq<Requests.Clock>,
                             durable: map<TaskId, nat>, vetted: set<DockerHistory.Vetted>, k: nat)
    requires Allowed(policy) && Asked(policy, events, first, answer) && answer.Some?
    requires DockerHistory.StopsOk(stops, mutated, readings, durable, vetted) && k < |stops|
    requires stops[k].request.until == Until(notAfter, first.elapsed, answer.value.upper)
    ensures stops[k].request.task in durable && durable[stops[k].request.task] <= stops[k].at
    ensures TakenInTime(policy, events, readings, stops[k].at, notAfter)
  {
    hide TakenInTime, Allows, Asked, Until;
    AllowedIsInTime(policy, events, first, answer, notAfter, readings, stops[k].at, stops[k].request);
  }

  lemma ServiceIsStoppedInTime(policy: Policy, events: seq<Event>, first: Requests.Clock, answer: Option<Bounds>,
                               notAfter: int,
                               stops: seq<SystemdHistory.Stop>, touched: set<TaskId>, readings: seq<Requests.Clock>,
                               durable: map<TaskId, nat>, k: nat)
    requires Allowed(policy) && Asked(policy, events, first, answer) && answer.Some?
    requires SystemdHistory.StopsOk(stops, touched, readings, durable) && k < |stops|
    requires stops[k].request.until == Until(notAfter, first.elapsed, answer.value.upper)
    ensures stops[k].request.task in durable && durable[stops[k].request.task] <= stops[k].at
    ensures TakenInTime(policy, events, readings, stops[k].at, notAfter)
  {
    hide TakenInTime, Allows, Asked, Until;
    AllowedIsInTime(policy, events, first, answer, notAfter, readings, stops[k].at, stops[k].request);
  }

  /** The helper's own state does not mind that others read the counter. */
  twostate lemma OthersRead(helper: DockerHelper.Helper)
    requires old(helper.Valid()) && unchanged(helper) && unchanged(helper.engine) && helper.counter.Valid()
    requires old(helper.counter.readings) <= helper.counter.readings
    ensures helper.Valid()
  {
    hide DockerHistory.DocumentsOk, DockerHistory.TouchedOk, DockerHistory.ClaimsOk, DockerHistory.StopsOk,
         DockerHistory.IssuesOk, DockerHistory.LaunchesOk, DockerHistory.TakingsOk, DockerHistory.TurnOk,
         DockerHistory.AskedOk, DockerSwap.OneRuns;
    DockerHistory.LaterReadings(helper.stops, helper.mutated, old(helper.counter.readings), helper.counter.readings,
                                helper.durable, helper.vetted);
  }

  twostate lemma OthersReadToo(helper: SystemdUpgrade.Helper)
    requires old(helper.Valid()) && unchanged(helper) && helper.counter.Valid()
    requires old(helper.counter.readings) <= helper.counter.readings
    ensures helper.Valid()
  {
    hide SystemdHistory.ReceiptsOk, SystemdHistory.BackupsOk, SystemdHistory.ClaimsOk, SystemdHistory.StartsOk,
         SystemdHistory.StopsOk, SystemdHistory.AimsOk, SystemdHistory.PruningOk, SystemdHistory.AskedOk;
    SystemdHistory.LaterReadings(helper.stops, helper.touched, old(helper.counter.readings), helper.counter.readings,
                                 helper.durable);
  }

  /** Whatever was read about this task is this request. */
  ghost predicate OnlyAsked(asked: seq<Request>, request: Request) {
    forall q :: q in asked && q.task == request.task ==> q == request
  }

  /**
    * Client and Docker helper together: the agent grants itself the task, and the
    * helper then serves any number of ticks, killed and restarted at will. If what
    * it read about the task is only ever the granted request, then whenever it
    * stopped the agent for the task it decided so before the task's deadline.
    */
  method UpgradeUnderDocker(clock: ControlPlaneTaskClock, helper: DockerHelper.Helper, notAfter: int64,
                            request: Request, ticks: nat)
    returns (r: Step<Option<Grant>>)
    requires clock.Valid() && helper.Valid() && notAfter > 0
    modifies clock, helper, helper.engine, helper.counter, helper.engine.troubles
    ensures r.Done? && r.value.Some? && OnlyAsked(helper.asked, Granted(request, r.value.value)) ==>
              forall k :: 0 <= k < |helper.stops| && helper.stops[k].request.task == request.task ==>
                TakenInTime(clock.Rules(), clock.events, helper.counter.readings, helper.stops[k].at, notAfter as int)
  {
    hide TakenInTime, Allows, Asked, Convertible, Until, Fits, DockerHistory.StopsOk, DockerHistory.AskedOk,
         ControlPlaneTaskClock.Valid;
    ghost var first, answer;
    r, first, answer := Authorize(clock, helper.counter, notAfter);
    OthersRead(helper);
    helper.Serve(ticks);
    if r.Done? && r.value.Some? && OnlyAsked(helper.asked, Granted(request, r.value.value)) {
      forall k | 0 <= k < |helper.stops| && helper.stops[k].request.task == request.task
        ensures TakenInTime(clock.Rules(), clock.events, helper.counter.readings, helper.stops[k].at, notAfter as int)
      {
        DockerHistory.StopsWereAsked(helper.asked, helper.receipts, helper.stops, k);
        AgentIsStoppedInTime(clock.Rules(), clock.events, first, answer, notAfter as int, helper.stops, helper.mutated,
                             helper.counter.readings, helper.durable, helper.vetted, k);
      }
    }
  }

  /** The same of the service under systemd. */
  method UpgradeUnderSystemd(clock: ControlPlaneTaskClock, helper: SystemdUpgrade.Helper, notAfter: int64,
                             request: Request, times: nat)
    returns (r: Step<Option<Grant>>)
    requires clock.Valid() && helper.Valid() && notAfter > 0
    modifies clock, helper, helper.counter, helper.troubles
    ensures r.Done? && r.value.Some? && OnlyAsked(helper.asked, Granted(request, r.value.value)) ==>
              forall k :: 0 <= k < |helper.stops| && helper.stops[k].request.task == request.task ==>
                TakenInTime(clock.Rules(), clock.events, helper.counter.readings, helper.stops[k].at, notAfter as int)
  {
    hide TakenInTime, Allows, Asked, Convertible, Until, Fits, SystemdHistory.StopsOk, SystemdHistory.AskedOk,
         ControlPlaneTaskClock.Valid;
    ghost var first, answer;
    r, first, answer := Authorize(clock, helper.counter, notAfter);
    OthersReadToo(helper);
    helper.Serve(times);
    if r.Done? && r.value.Some? && OnlyAsked(helper.asked, Granted(request, r.value.value)) {
      forall k | 0 <= k < |helper.stops| && helper.stops[k].request.task == request.task
        ensures TakenInTime(clock.Rules(), clock.events, helper.counter.readings, helper.stops[k].at, notAfter as int)
      {
        SystemdHistory.StopsWereAsked(helper.asked, helper.draws, helper.aims, helper.receipts, helper.stops,
                                      helper.starts, k);
        ServiceIsStoppedInTime(clock.Rules(), clock.events, first, answer, notAfter as int, helper.stops,
                               helper.touched, helper.counter.readings, helper.durable, k);
      }
    }
  }
}
