/** The task clock as the agent holds it: 64-bit fields updated in place, no operation of which overflows. */
module TaskClockCode {
  import opened Wrappers
  import opened TaskClock

  newtype int64 = x: int | -0x8000_0000_0000_0000 <= x < 0x8000_0000_0000_0000

  const MAX64: int64 := 0x7fff_ffff_ffff_ffff
  const MS64: int64 := 1_000_000

  method CeilTaskClockMS(duration: int64) returns (ms: int64)
    requires duration >= 0
    ensures ms as int == CeilMS(duration as int)
  {
    ms := duration / MS64;
    if duration % MS64 != 0 {
      ms := ms + 1;
    }
  }

  /** The sum, and whether it is one: a negative term or an overflow is not. */
  method AddTaskClockMS(a: int64, b: int64) returns (sum: int64, ok: bool)
    ensures ok == AddMS(a as int, b as int).Some?
    ensures ok ==> sum as int == AddMS(a as int, b as int).value
  {
    if a < 0 || b < 0 || a > MAX64 - b {
      return 0, false;
    }
    return a + b, true;
  }

  method TaskElapsedTimespec(sec: int64, nsec: int64) returns (r: Option<int64>)
    ensures r.Some? <==> sec >= 0 && 0 <= nsec < 1_000_000_000 && sec as int * 1_000_000_000 + nsec as int <= MAX
    ensures r.Some? ==> r.value as int == sec as int * 1_000_000_000 + nsec as int
  {
    if sec < 0 || nsec < 0 || nsec >= 1_000_000_000 || sec > (MAX64 - nsec) / 1_000_000_000 {
      return None;
    }
    return Some(sec * 1_000_000_000 + nsec);
  }

  class ControlPlaneTaskClock {
    const maxAnchorAge: int64
    const maxRoundTrip: int64
    const uncertaintyMS: int64
    var hasRawFloor: bool
    var rawFloor: int64
    var computedHighwater: int64
    var trustedLowerFloor: int64
    var hasAnchor: bool
    var anchorAt: int64
    var anchorLowerMS: int64
    var anchorUpperMS: int64
    ghost var events: seq<Event>              // the calls so far

    ghost function Rules(): Policy {
      Policy(maxAnchorAge as int, maxRoundTrip as int, uncertaintyMS as int)
    }

    ghost function State(): Clock reads this {
      Clock(if hasRawFloor then Some(rawFloor as int) else None, computedHighwater as int, trustedLowerFloor as int,
            if hasAnchor then Some(Anchor(anchorAt as int, anchorLowerMS as int, anchorUpperMS as int)) else None)
    }

    /** What holds while the lock is held. */
    ghost predicate Locked() reads this {
      Allowed(Rules()) && Kept(Rules(), State()) && computedHighwater >= 0
    }

    /** The fields are what the calls so far make of them. */
    ghost predicate Valid() reads this {
      Locked() && State() == After(Rules(), events, |events|)
    }

    constructor (maxAnchorAge: int64, maxRoundTrip: int64, uncertaintyMS: int64)
      requires maxAnchorAge > 0 && maxRoundTrip > 0 && uncertaintyMS > 0
      ensures Valid() && State() == FRESH && events == []
      ensures Rules() == Policy(maxAnchorAge as int, maxRoundTrip as int, uncertaintyMS as int)
    {
      this.maxAnchorAge, this.maxRoundTrip, this.uncertaintyMS := maxAnchorAge, maxRoundTrip, uncertaintyMS;
      hasRawFloor, rawFloor, computedHighwater, trustedLowerFloor := false, 0, 0, 0;
      hasAnchor, anchorAt, anchorLowerMS, anchorUpperMS := false, 0, 0, 0;
      events := [];
    }

    method BoundsAtLocked(now: int64) returns (bounds: Option<(int64, int64)>)
      requires Locked() && now >= 0 && hasRawFloor && now <= rawFloor
      modifies this`hasAnchor, this`trustedLowerFloor
      ensures Locked() && State() == BoundsAt(Rules(), old(State()), now as int).0
      ensures Pair(bounds) == BoundsAt(Rules(), old(State()), now as int).1
    {
      hide Kept, CeilMS, AddMS;
      KeptMeans(Rules(), State());
      BoundsAtEarlierKeeps(Rules(), State(), now as int);
      if !hasAnchor { return None; }
      var age := now - anchorAt;
      if age < 0 { hasAnchor := false; return None; }
      var historicalAge := if age < maxAnchorAge - 1 then age else maxAnchorAge - 1;
      var lower, ok := AddTaskClockMS(anchorLowerMS, historicalAge / MS64);
      if !ok { hasAnchor := false; return None; }
      trustedLowerFloor := if trustedLowerFloor < lower then lower else trustedLowerFloor;
      if age >= maxAnchorAge { hasAnchor := false; return None; }
      var ahead := CeilTaskClockMS(age);
      var upper;
      upper, ok := AddTaskClockMS(anchorUpperMS, ahead);
      if !ok || lower <= 0 || upper <= 0 || lower > upper { hasAnchor := false; return None; }
      return Some((lower, upper));
    }

    method CaptureLocked(reading: Option<int64>) returns (raw: Option<int64>)
      requires Locked()
      modifies this`hasAnchor, this`trustedLowerFloor, this`hasRawFloor, this`rawFloor
      ensures Locked() && State() == Captured(Rules(), old(State()), Widened(reading)).0
      ensures Widened(raw) == Captured(Rules(), old(State()), Widened(reading)).1
      ensures raw.Some? ==> State().raw == Widened(raw) && raw.value >= 0
    {
      hide BoundsAt;
      CapturedKeeps(Rules(), State(), Widened(reading));
      if reading.None? || reading.value < 0 || (hasRawFloor && reading.value < rawFloor) {
        hasAnchor := false;
        return None;
      }
      LaterKeeps(Rules(), State(), reading.value as int);
      hasRawFloor, rawFloor := true, reading.value;
      if hasAnchor {
        var _ := BoundsAtLocked(reading.value);
      } else {
        NoAnchorNoBounds(Rules(), State(), reading.value as int);
      }
      return reading;
    }

    method Capture(reading: Option<int64>) returns (raw: Option<int64>)
      requires Valid()
      modifies this
      ensures Valid() && events == old(events) + [Event.Capture(Widened(reading))]
      ensures State() == Captured(Rules(), old(State()), Widened(reading)).0
      ensures Widened(raw) == Captured(Rules(), old(State()), Widened(reading)).1
    {
      hide Captured, Kept;
      AfterOneMore(Rules(), events, Event.Capture(Widened(reading)));
      raw := CaptureLocked(reading);
      events := events + [Event.Capture(Widened(reading))];
    }

    method TaskTimeBounds(reading: Option<int64>) returns (bounds: Option<(int64, int64)>)
      requires Valid()
      modifies this
      ensures Valid() && events == old(events) + [Query(Widened(reading))]
      ensures State() == Queried(Rules(), old(State()), Widened(reading)).0
      ensures Pair(bounds) == Answer(Rules(), events, |events| - 1)
    {
      hide BoundsAt, Captured, Kept;
      AfterOneMore(Rules(), events, Query(Widened(reading)));
      AfterMore(Rules(), events, events + [Query(Widened(reading))], |events|);
      events := events + [Query(Widened(reading))];
      var now := CaptureLocked(reading);
      if now.None? { return None; }
      bounds := BoundsAtLocked(now.value);
    }

    method Observe(computedAtMS: int64, start: int64, reading: Option<int64>) returns (ok: bool)
      requires Valid()
      modifies this
      ensures Valid() && events == old(events) + [Event.Observe(computedAtMS as int, start as int, Widened(reading))]
      ensures State() == Observed(Rules(), old(State()), computedAtMS as int, start as int, Widened(reading)).0
      ensures ok == Observed(Rules(), old(State()), computedAtMS as int, start as int, Widened(reading)).1
    {
      hide BoundsAt, Captured, Kept;
      ObservedKeeps(Rules(), State(), computedAtMS as int, start as int, Widened(reading));
      ghost var event := Event.Observe(computedAtMS as int, start as int, Widened(reading));
      AfterOneMore(Rules(), events, event);
      events := events + [event];
      var end := CaptureLocked(reading);
      if end.None? { return false; }
      var known := BoundsAtLocked(end.value);
      var sample := Sample(computedAtMS, start, end.value, known);
      if sample.None? || sample.value.0 > sample.value.1 {
        DroppedIsKept(Rules(), State());
        hasAnchor := false;
        return false;
      }
      hasAnchor, anchorAt, anchorLowerMS, anchorUpperMS := true, end.value, sample.value.0, sample.value.1;
      computedHighwater, trustedLowerFloor := computedAtMS, sample.value.0;
      return true;
    }

    /** The interval a stamp gives, intersected with what was known; none when the stamp cannot be used. */
    method Sample(computedAtMS: int64, start: int64, end: int64, known: Option<(int64, int64)>)
      returns (r: Option<(int64, int64)>)
      requires Locked() && end >= 0
      ensures r.Some? <==> Usable(Rules(), State().highwater, computedAtMS as int, start as int, end as int)
      ensures r.Some? ==>
                Pair(r) == Some(Sampled(Rules(), State(), Pair(known), computedAtMS as int, start as int, end as int))
    {
      if computedAtMS <= 0 || computedAtMS < computedHighwater { return None; }
      if start < 0 || start > end || end - start > maxRoundTrip { return None; }
      if computedAtMS <= uncertaintyMS { return None; }
      var lower := computedAtMS - uncertaintyMS;
      var trip := CeilTaskClockMS(end - start);
      var upper, ok := AddTaskClockMS(computedAtMS, trip);
      if !ok { return None; }
      upper, ok := AddTaskClockMS(upper, uncertaintyMS);
      if !ok { return None; }
      if known.Some? {
        lower := if lower < known.value.0 then known.value.0 else lower;
        upper := if upper < known.value.1 then upper else known.value.1;
      }
      lower := if lower < trustedLowerFloor then trustedLowerFloor else lower;
      return Some((lower, upper));
    }
  }

  function Widened(reading: Option<int64>): Option<int> {
    if reading.None? then None else Some(reading.value as int)
  }

  function Pair(bounds: Option<(int64, int64)>): Option<Bounds> {
    if bounds.None? then None else Some(Bounds(bounds.value.0 as int, bounds.value.1 as int))
  }

  lemma KeptMeans(policy: Policy, c: Clock)
    requires Allowed(policy) && Kept(policy, c)
    ensures 0 <= c.floor && (c.anchor.Some? ==>
                               0 <= c.anchor.value.at && 0 < c.anchor.value.lower <= c.anchor.value.upper)
  {
  }

  lemma DroppedIsKept(policy: Policy, c: Clock)
    requires Allowed(policy) && Kept(policy, c)
    ensures Kept(policy, Dropped(c))
  {
  }

  /** A clock that is not positive in every policy value, or whose counter cannot be read, is not built. */
  method NewControlPlaneTaskClock(maxAnchorAge: int64, maxRoundTrip: int64, uncertainty: int64, reading: Option<int64>)
    returns (c: ControlPlaneTaskClock?)
    ensures c != null <==>
              maxAnchorAge > 0 && maxRoundTrip > 0 && uncertainty > 0 && reading.Some? && reading.value >= 0
    ensures c != null ==>
              && c.Valid() && fresh(c)
              && c.Rules() == Policy(maxAnchorAge as int, maxRoundTrip as int, CeilMS(uncertainty as int))
              && c.State() == Captured(c.Rules(), FRESH, Widened(reading)).0
              && c.events == [Event.Capture(Widened(reading))]
  {
    if maxAnchorAge <= 0 || maxRoundTrip <= 0 || uncertainty <= 0 { return null; }
    var uncertaintyMS := CeilTaskClockMS(uncertainty);
    var clock := new ControlPlaneTaskClock(maxAnchorAge, maxRoundTrip, uncertaintyMS);
    var raw := clock.Capture(reading);
    if raw.None? { return null; }
    return clock;
  }
}
