/**
  * When the task clock answers, and how widely, over every sequence of calls
  * (internal/agent/task_clock.go): which observations are accepted, which queries
  * are answered, and how far the bounds may lie from what the control plane said.
  */
module TaskClockAnswers {
  import opened Wrappers
  import opened TaskClock

  // ------------------------------------------------------------------------- readings

  /** The counter answered, not below zero, and not below anything it answered before. */
  ghost predicate Good(events: seq<Event>, i: nat) {
    && i < |events| && events[i].reading.Some? && events[i].reading.value >= 0
    && forall k :: 0 <= k < i && events[k].reading.Some? ==> events[k].reading.value <= events[i].reading.value
  }

  /** The counter seen last is the highest of the readings so far. */
  ghost predicate RawOk(events: seq<Event>, n: nat, raw: Option<int>) {
    && n <= |events|
    && (raw.Some? ==> raw.value >= 0 && exists k :: 0 <= k < n && events[k].reading == raw)
    && forall k :: 0 <= k < n && events[k].reading.Some? && events[k].reading.value >= 0 ==>
         raw.Some? && events[k].reading.value <= raw.value
  }

  predicate Takes(raw: Option<int>, reading: Option<int>) {
    reading.Some? && reading.value >= 0 && (raw.Some? ==> raw.value <= reading.value)
  }

  lemma NextRaw(policy: Policy, c: Clock, e: Event)
    requires Allowed(policy)
    ensures Next(policy, c, e).raw == if Takes(c.raw, e.reading) then e.reading else c.raw
  {
    hide BoundsAt, Usable, Sampled;
    CapturedRaw(policy, c, e.reading);
    if Takes(c.raw, e.reading) {
      BoundsAtRaw(policy, Captured(policy, c, e.reading).0, e.reading.value);
    }
  }

  lemma CapturedRaw(policy: Policy, c: Clock, reading: Option<int>)
    requires Allowed(policy)
    ensures var (next, now) := Captured(policy, c, reading);
            && now == (if Takes(c.raw, reading) then reading else None)
            && next.raw == (if Takes(c.raw, reading) then reading else c.raw) && next.highwater == c.highwater
  {
    hide BoundsAt;
    if Takes(c.raw, reading) {
      BoundsAtRaw(policy, c.(raw := reading), reading.value);
    }
  }

  lemma {:induction false} AfterRaw(policy: Policy, events: seq<Event>, n: nat)
    requires Allowed(policy) && n <= |events|
    ensures RawOk(events, n, After(policy, events, n).raw)
  {
    hide Next;
    if n > 0 {
      AfterRaw(policy, events, n - 1);
      NextRaw(policy, After(policy, events, n - 1), events[n - 1]);
    }
  }

  /** A call gets its reading exactly if the reading is good. */
  lemma GoodExactly(policy: Policy, events: seq<Event>, i: nat)
    requires Allowed(policy) && i < |events|
    ensures Good(events, i) <==> Takes(After(policy, events, i).raw, events[i].reading)
  {
    AfterRaw(policy, events, i);
  }

  // ------------------------------------------------------------------------- anchors

  /** The anchor is young enough at this reading, and its upper bound still fits. */
  predicate Fresh(policy: Policy, anchor: Anchor, now: int) {
    0 <= now - anchor.at < policy.maxAge && anchor.upper + CeilMS(now - anchor.at) <= MAX
  }

  /** An anchor's bounds, moved on to a later reading. */
  function MovedOn(anchor: Anchor, now: int): Bounds
    requires anchor.at <= now
  {
    Bounds(anchor.lower + (now - anchor.at) / MS, anchor.upper + CeilMS(now - anchor.at))
  }

  lemma RoundingsAreOrdered(duration: int)
    requires duration >= 0
    ensures 0 <= duration / MS <= CeilMS(duration)
  {
  }

  /** Bounds are given exactly while the anchor is fresh: its own, moved on by the time since. */
  lemma BoundsExactly(policy: Policy, c: Clock, now: int)
    requires Allowed(policy) && Kept(policy, c) && c.anchor.Some?
    ensures var (next, b) := BoundsAt(policy, c, now);
            var a := c.anchor.value;
            && (b.Some? <==> Fresh(policy, a, now))
            && next.anchor == (if Fresh(policy, a, now) then c.anchor else None)
            && (b.Some? ==> b.value == MovedOn(a, now))
  {
    var a := c.anchor.value;
    if 0 <= now - a.at {
      RoundingsAreOrdered(now - a.at);
      DivMonotone(Min(now - a.at, policy.maxAge - 1), now - a.at);
    }
  }

  /** A capture or a query keeps the anchor exactly if it got its reading and the anchor is fresh at it. */
  lemma CapturedAnchor(policy: Policy, c: Clock, reading: Option<int>)
    requires Allowed(policy) && Kept(policy, c)
    ensures Captured(policy, c, reading).0.anchor ==
            if Takes(c.raw, reading) && c.anchor.Some? && Fresh(policy, c.anchor.value, reading.value) then c.anchor
            else None
  {
    hide BoundsAt, Fresh;
    if Takes(c.raw, reading) {
      LaterKeeps(policy, c, reading.value);
      if c.anchor.Some? {
        BoundsExactly(policy, c.(raw := reading), reading.value);
      } else {
        NoAnchorNoBounds(policy, c.(raw := reading), reading.value);
      }
    }
  }

  /** A query is answered exactly if it got its reading and the anchor is fresh at it. */
  lemma QueriedExactly(policy: Policy, c: Clock, reading: Option<int>)
    requires Allowed(policy) && Kept(policy, c)
    ensures var (next, b) := Queried(policy, c, reading);
            var lasts := Takes(c.raw, reading) && c.anchor.Some? && Fresh(policy, c.anchor.value, reading.value);
            && (b.Some? <==> lasts) && next.anchor == (if lasts then c.anchor else None)
            && (lasts ==> b.value == MovedOn(c.anchor.value, reading.value))
  {
    hide BoundsAt, Kept, Captured, CeilMS, MovedOn;
    CapturedRaw(policy, c, reading);
    CapturedAnchor(policy, c, reading);
    CapturedKeeps(policy, c, reading);
    var (captured, now) := Captured(policy, c, reading);
    if now.Some? {
      if captured.anchor.Some? {
        BoundsExactly(policy, captured, now.value);
      } else {
        NoAnchorNoBounds(policy, captured, now.value);
      }
    }
  }

  // ------------------------------------------------------------------- call sequences

  /** The call at i is an observation, and it was accepted. */
  predicate Accepts(policy: Policy, events: seq<Event>, i: nat)
    requires Allowed(policy)
  {
    && i < |events| && events[i].Observe?
    && Observed(policy, After(policy, events, i), events[i].stamp, events[i].start, events[i].reading).1
  }

  /** The anchor after the call at i. */
  function Set(policy: Policy, events: seq<Event>, i: nat): Option<Anchor>
    requires Allowed(policy) && i < |events|
  {
    After(policy, events, i + 1).anchor
  }

  /**
    * The observation at j is accepted, nothing was observed since, every call since got its
    * reading, and its anchor is fresh at the reading of the call at i.
    */
  ghost predicate Carries(policy: Policy, events: seq<Event>, j: nat, i: nat)
    requires Allowed(policy)
  {
    && j <= i < |events| && Accepts(policy, events, j) && FreshAt(policy, events, j, i)
    && (forall k :: j < k <= i ==> !events[k].Observe? && Good(events, k))
  }

  /** The anchor set by the call at j is fresh at the reading of the call at i. */
  predicate FreshAt(policy: Policy, events: seq<Event>, j: nat, i: nat)
    requires Allowed(policy) && j < |events| && i < |events|
  {
    && Set(policy, events, j).Some? && events[i].reading.Some?
    && Fresh(policy, Set(policy, events, j).value, events[i].reading.value)
  }

  /** An accepted observation sets an anchor at its own reading, within what its stamp and round trip say. */
  lemma AcceptedAnchor(policy: Policy, events: seq<Event>, j: nat)
    requires Allowed(policy) && Accepts(policy, events, j)
    ensures Good(events, j) && Set(policy, events, j).Some?
    ensures var e := events[j];
            var a := Set(policy, events, j).value;
            && a.at == e.reading.value && 0 <= e.start <= a.at && e.stamp - policy.uncertainty <= a.lower
            && a.upper <= e.stamp + CeilMS(a.at - e.start) + policy.uncertainty && Fresh(policy, a, a.at)
  {
    hide BoundsAt, Captured;
    GoodExactly(policy, events, j);
    CapturedRaw(policy, After(policy, events, j), events[j].reading);
  }

  /** One more call that observes nothing. */
  lemma CarriesOn(policy: Policy, events: seq<Event>, j: nat, i: nat)
    requires Allowed(policy) && j < i < |events|
    ensures Carries(policy, events, j, i) <==>
            && Carries(policy, events, j, i - 1) && !events[i].Observe? && Good(events, i)
            && FreshAt(policy, events, j, i)
  {
    hide Accepts, Set, CeilMS;
    if Carries(policy, events, j, i) {
      var a := Set(policy, events, j).value;
      hide Accepts;
      AcceptedAnchor(policy, events, j);
      assert events[j].reading.value <= events[i - 1].reading.value <= events[i].reading.value;
      CeilMonotone(events[i - 1].reading.value - a.at, events[i].reading.value - a.at);
    }
  }

  lemma CeilMonotone(a: int, b: int)
    requires 0 <= a <= b
    ensures CeilMS(a) <= CeilMS(b)
  {
  }

  /** After a call that observes nothing, the anchor there was is there exactly if it is fresh at a good reading. */
  lemma KeepsAnchor(policy: Policy, events: seq<Event>, i: nat)
    requires Allowed(policy) && i < |events| && !events[i].Observe?
    ensures var before := After(policy, events, i).anchor;
            Set(policy, events, i) ==
            if Good(events, i) && before.Some? && Fresh(policy, before.value, events[i].reading.value) then before
            else None
  {
    hide Captured, Queried, Fresh, Good, Kept;
    AfterKeeps(policy, events, i, i);
    GoodExactly(policy, events, i);
    var c := After(policy, events, i);
    if events[i].Capture? {
      CapturedAnchor(policy, c, events[i].reading);
    } else {
      QueriedExactly(policy, c, events[i].reading);
    }
  }

  lemma ObservationSets(policy: Policy, events: seq<Event>, i: nat)
    requires Allowed(policy) && i < |events| && events[i].Observe?
    ensures Set(policy, events, i).Some? <==> Carries(policy, events, i, i)
    ensures forall j :: 0 <= j < i ==> !Carries(policy, events, j, i)
  {
    hide Observed, Fresh, Good, Kept;
    AfterKeeps(policy, events, i, i);
    ObservedKeeps(policy, After(policy, events, i), events[i].stamp, events[i].start, events[i].reading);
    if Accepts(policy, events, i) {
      AcceptedAnchor(policy, events, i);
      assert Good(events, i) ==> events[i].reading.Some? by { GoodIsRead(events, i); }
    }
  }

  lemma OnlyObservationsCarry(policy: Policy, events: seq<Event>, i: nat)
    requires Allowed(policy) && i < |events| && !events[i].Observe?
    ensures !Carries(policy, events, i, i)
  {
  }

  lemma GoodIsRead(events: seq<Event>, i: nat)
    requires Good(events, i)
    ensures events[i].reading.Some? && events[i].reading.value >= 0
  {
  }

  /** What the clock rests on after a call: the last observation, exactly as long as it carries. */
  lemma {:induction false} RestsOn(policy: Policy, events: seq<Event>, i: nat)
    requires Allowed(policy) && i < |events|
    ensures Set(policy, events, i).Some? <==> exists j :: 0 <= j <= i && Carries(policy, events, j, i)
    ensures forall j :: 0 <= j <= i && Carries(policy, events, j, i) ==>
              Set(policy, events, i) == Set(policy, events, j)
  {
    hide Carries, Fresh, Good, Accepts, Next;
    if events[i].Observe? {
      ObservationSets(policy, events, i);
    } else {
      KeepsAnchor(policy, events, i);
      assert !Carries(policy, events, i, i) by { OnlyObservationsCarry(policy, events, i); }
      if i > 0 {
        RestsOn(policy, events, i - 1);
        forall j | 0 <= j < i
          ensures Carries(policy, events, j, i) <==>
                  && Carries(policy, events, j, i - 1) && !events[i].Observe? && Good(events, i)
                  && FreshAt(policy, events, j, i)
        {
          CarriesOn(policy, events, j, i);
        }
        if Set(policy, events, i).Some? {
          GoodIsRead(events, i);
          var j :| 0 <= j <= i - 1 && Carries(policy, events, j, i - 1);
          assert FreshAt(policy, events, j, i) && Carries(policy, events, j, i);
        }
      }
    }
  }

  /**
    * A query is answered exactly if some observation carries to it: the last one, accepted, with
    * every call since at a good reading, and fresh by policy at this one.
    */
  lemma AnsweredExactly(policy: Policy, events: seq<Event>, i: nat)
    requires Allowed(policy) && i < |events| && events[i].Query?
    ensures Answer(policy, events, i).Some? <==> exists j :: 0 <= j < i && Carries(policy, events, j, i)
  {
    hide Carries, Queried, Kept, Fresh, Takes, MovedOn;
    AfterKeeps(policy, events, i, i);
    QueriedExactly(policy, After(policy, events, i), events[i].reading);
    RestsOn(policy, events, i);
    OnlyObservationsCarry(policy, events, i);
  }

  /**
    * How far the bounds may lie from what an observation said: less than two milliseconds beyond its
    * stamp, uncertainty and the time since its request was sent; less than one short of its stamp
    * less the uncertainty and the time since its response.
    */
  predicate Near(policy: Policy, b: Bounds, stamp: int, start: int, end: int, now: int) {
    && b.upper * MS < (stamp + policy.uncertainty) * MS + (now - start) + 2 * MS
    && (stamp - policy.uncertainty) * MS + (now - end) - MS < b.lower * MS
  }

  lemma MovedOnIsNear(policy: Policy, a: Anchor, stamp: int, start: int, now: int)
    requires 0 <= start <= a.at <= now
    requires stamp - policy.uncertainty <= a.lower && a.upper <= stamp + CeilMS(a.at - start) + policy.uncertainty
    ensures Near(policy, MovedOn(a, now), stamp, start, a.at, now)
  {
    hide CeilMS;
    CeilIsAbove(a.at - start);
    CeilIsAbove(now - a.at);
    FloorIsBelow(now - a.at);
  }

  /** The answer is the anchor of the observation it rests on, moved on. */
  lemma AnswerIsMovedOn(policy: Policy, events: seq<Event>, j: nat, i: nat)
    requires Allowed(policy) && j < i < |events| && events[i].Query? && Carries(policy, events, j, i)
    ensures Set(policy, events, j).Some? && events[i].reading.Some?
    ensures Answer(policy, events, i) == Some(MovedOn(Set(policy, events, j).value, events[i].reading.value))
    ensures Set(policy, events, j).value.at <= events[i].reading.value
  {
    hide Queried, Kept, MovedOn, CeilMS, Good;
    AfterKeeps(policy, events, i, i);
    QueriedExactly(policy, After(policy, events, i), events[i].reading);
    GoodExactly(policy, events, i);
    CarriesOn(policy, events, j, i);
    RestsOn(policy, events, i - 1);
  }

  lemma CarriesAccepted(policy: Policy, events: seq<Event>, j: nat, i: nat)
    requires Allowed(policy) && j <= i < |events| && Carries(policy, events, j, i)
    ensures Accepts(policy, events, j)
  {
    hide Accepts, FreshAt, Good;
  }

  /**
    * In every sequence of calls, whatever the counter and the stamps do, the bounds of every answer
    * are near what the observation they rest on said.
    */
  lemma AnswersAreNear(policy: Policy, events: seq<Event>, j: nat, i: nat)
    requires Allowed(policy) && j < i < |events| && events[i].Query? && Carries(policy, events, j, i)
    ensures Answer(policy, events, i).Some? && events[j].Observe? && events[j].reading.Some?
    ensures var e := events[j];
            Near(policy, Answer(policy, events, i).value, e.stamp, e.start, e.reading.value, events[i].reading.value)
  {
    hide Answer, Carries, Near, MovedOn, CeilMS, Good, Fresh;
    AnswerIsMovedOn(policy, events, j, i);
    CarriesAccepted(policy, events, j, i);
    AcceptedAnchor(policy, events, j);
    GoodIsRead(events, j);
    MovedOnIsNear(policy, Set(policy, events, j).value, events[j].stamp, events[j].start, events[i].reading.value);
  }

  // --------------------------------------------------------------- accepted observations

  /** The newest stamp accepted is the highest of those accepted. */
  ghost predicate NewestOk(policy: Policy, events: seq<Event>, n: nat, highwater: int)
    requires Allowed(policy)
  {
    && n <= |events|
    && (highwater == 0 || exists j :: 0 <= j < n && Accepts(policy, events, j) && events[j].stamp == highwater)
    && forall j :: 0 <= j < n && Accepts(policy, events, j) ==> events[j].stamp <= highwater
  }

  lemma NextNewest(policy: Policy, events: seq<Event>, i: nat)
    requires Allowed(policy) && i < |events|
    ensures var c := After(policy, events, i);
            After(policy, events, i + 1).highwater ==
            if Accepts(policy, events, i) then events[i].stamp else c.highwater
    ensures Accepts(policy, events, i) ==> After(policy, events, i).highwater <= events[i].stamp
  {
    hide BoundsAt, Sampled;
    var c := After(policy, events, i);
    CapturedRaw(policy, c, events[i].reading);
    var (captured, now) := Captured(policy, c, events[i].reading);
    if now.Some? {
      BoundsAtRaw(policy, captured, now.value);
    }
  }

  lemma {:induction false} AfterNewest(policy: Policy, events: seq<Event>, n: nat)
    requires Allowed(policy) && n <= |events|
    ensures NewestOk(policy, events, n, After(policy, events, n).highwater) && After(policy, events, n).highwater >= 0
  {
    hide Next, Accepts;
    if n > 0 {
      AfterNewest(policy, events, n - 1);
      NextNewest(policy, events, n - 1);
    }
  }

  /**
    * The stamp is no older than any accepted before, the round trip is in order and within policy,
    * and the interval it gives lies between the epoch and the largest integer.
    */
  ghost predicate Acceptable(policy: Policy, events: seq<Event>, i: nat)
    requires Allowed(policy)
  {
    && Good(events, i) && events[i].Observe?
    && (forall j :: 0 <= j < i && Accepts(policy, events, j) ==> events[j].stamp <= events[i].stamp)
    && var e := events[i];
       var trip := e.reading.value - e.start;
       && e.start >= 0 && 0 <= trip <= policy.maxRoundTrip
       && 0 < e.stamp - policy.uncertainty && e.stamp + CeilMS(trip) + policy.uncertainty <= MAX
  }

  /** In every sequence of calls with honest stamps, exactly the acceptable observations are accepted. */
  lemma AcceptedExactly(policy: Policy, events: seq<Event>, instants: seq<int>, offset: int, i: nat)
    requires Allowed(policy) && Honest(policy, events, instants, offset) && i < |events| && events[i].Observe?
    ensures Accepts(policy, events, i) <==> Acceptable(policy, events, i)
  {
    hide Honest, BoundsAt, Sampled, Captured, CeilMS;
    var c := After(policy, events, i);
    GoodExactly(policy, events, i);
    AfterNewest(policy, events, i);
    CapturedRaw(policy, c, events[i].reading);
    if Acceptable(policy, events, i) {
      HonestIsNeverInconsistent(policy, events, instants, offset, i);
    } else if Accepts(policy, events, i) {
      var (captured, now) := Captured(policy, c, events[i].reading);
      BoundsAtRaw(policy, captured, now.value);
    }
  }
}
