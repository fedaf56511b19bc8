/**
  * The task clock: bounds on control-plane time from one round trip and a local
  * counter that includes suspend (internal/agent/task_clock.go).
  *
  * The specification is a function from state to state on unbounded integers, with
  * the source's overflow checks; the class computes the same on 64-bit integers.
  * Durations are nanoseconds, bounds are milliseconds since the Unix epoch.
  */
module TaskClock {
  import opened Wrappers

  const MAX: int := 0x7fff_ffff_ffff_ffff
  const MS: int := 1_000_000

  /** The policy, all positive. */
  datatype Policy = Policy(maxAge: int, maxRoundTrip: int, uncertainty: int)

  datatype Bounds = Bounds(lower: int, upper: int)

  datatype Anchor = Anchor(at: int, lower: int, upper: int)

  /**
    * The counter seen last, the newest stamp accepted, the latest time proven to have passed, and
    * the anchor, if any.
    */
  datatype Clock = Clock(raw: Option<int>, highwater: int, floor: int, anchor: Option<Anchor>)

  predicate Allowed(policy: Policy) {
    0 < policy.maxAge <= MAX && 0 < policy.maxRoundTrip <= MAX && 0 < policy.uncertainty <= MAX
  }

  function Max(a: int, b: int): int {
    if a < b then b else a
  }

  function Min(a: int, b: int): int {
    if a < b then a else b
  }

  function CeilMS(duration: int): int
    requires duration >= 0
  {
    duration / MS + if duration % MS != 0 then 1 else 0
  }

  function AddMS(a: int, b: int): Option<int> {
    if a < 0 || b < 0 || a > MAX - b then None else Some(a + b)
  }

  lemma CeilIsAbove(duration: int)
    requires duration >= 0
    ensures duration <= CeilMS(duration) * MS < duration + MS
  {
  }

  lemma FloorIsBelow(duration: int)
    requires duration >= 0
    ensures duration / MS * MS <= duration < (duration / MS + 1) * MS && 0 <= duration / MS <= duration
  {
  }

  // ------------------------------------------------------------------ specification

  function Dropped(c: Clock): Clock {
    c.(anchor := None)
  }

  /** The lower evidence the anchor gives at a reading, kept even once the anchor is stale. */
  function Evidence(policy: Policy, anchor: Anchor, now: int): Option<int>
    requires Allowed(policy) && now >= anchor.at
  {
    AddMS(anchor.lower, Min(now - anchor.at, policy.maxAge - 1) / MS)
  }

  function BoundsAt(policy: Policy, c: Clock, now: int): (r: (Clock, Option<Bounds>))
    requires Allowed(policy)
    ensures r.1.None? ==> r.0.anchor.None?
  {
    if c.anchor.None? then (c, None) else
      var anchor := c.anchor.value;
      if now < anchor.at then (Dropped(c), None) else
        var lower := Evidence(policy, anchor, now);
        if lower.None? then (Dropped(c), None) else
          var next := c.(floor := Max(c.floor, lower.value));
          if now - anchor.at >= policy.maxAge then (Dropped(next), None) else
            var upper := AddMS(anchor.upper, CeilMS(now - anchor.at));
            if upper.None? || lower.value <= 0 || upper.value <= 0
               || lower.value > upper.value then (Dropped(next), None)
            else (next, Some(Bounds(lower.value, upper.value)))
  }

  /** A reading of the counter, or none: a fault or a step back drops the anchor and keeps the floor. */
  function Captured(policy: Policy, c: Clock, reading: Option<int>): (r: (Clock, Option<int>))
    requires Allowed(policy)
    ensures r.1.None? ==> r.0.anchor.None?
  {
    if reading.None? || reading.value < 0 || (c.raw.Some? && reading.value < c.raw.value) then (Dropped(c), None)
    else (BoundsAt(policy, c.(raw := reading), reading.value).0, reading)
  }

  function Queried(policy: Policy, c: Clock, reading: Option<int>): (r: (Clock, Option<Bounds>))
    requires Allowed(policy)
  {
    var (next, now) := Captured(policy, c, reading);
    if now.None? then (next, None) else BoundsAt(policy, next, now.value)
  }

  /**
    * A stamp usable after a round trip from start to end: in order, within policy, clear of the
    * epoch and of the largest integer.
    */
  predicate Usable(policy: Policy, highwater: int, stamp: int, start: int, end: int) {
    && 0 < stamp && highwater <= stamp && policy.uncertainty < stamp
    && 0 <= start <= end && end - start <= policy.maxRoundTrip
    && stamp + CeilMS(end - start) + policy.uncertainty <= MAX
  }

  /** The interval a usable stamp gives at reception, intersected with what was known. */
  function Sampled(policy: Policy, c: Clock, known: Option<Bounds>, stamp: int, start: int, end: int): Bounds
    requires 0 <= start <= end
  {
    var lower := stamp - policy.uncertainty;
    var upper := stamp + CeilMS(end - start) + policy.uncertainty;
    var lower := if known.Some? then Max(lower, known.value.lower) else lower;
    var upper := if known.Some? then Min(upper, known.value.upper) else upper;
    Bounds(Max(lower, c.floor), upper)
  }

  function Observed(policy: Policy, c: Clock, stamp: int, start: int, reading: Option<int>): (r: (Clock, bool))
    requires Allowed(policy)
    ensures !r.1 ==> r.0.anchor.None?
  {
    var (captured, end) := Captured(policy, c, reading);
    if end.None? then (captured, false) else
      var (next, known) := BoundsAt(policy, captured, end.value);
      if !Usable(policy, next.highwater, stamp, start, end.value) then (Dropped(next), false) else
        var b := Sampled(policy, next, known, stamp, start, end.value);
        if b.lower > b.upper then (Dropped(next), false)
        else (Clock(next.raw, stamp, b.lower, Some(Anchor(end.value, b.lower, b.upper))), true)
  }

  // -------------------------------------------------------------- what every call keeps

  /** The floor never exceeds what the anchor itself proves by now. */
  predicate Kept(policy: Policy, c: Clock)
    requires Allowed(policy)
  {
    && 0 <= c.floor && (c.raw.Some? ==> c.raw.value >= 0)
    && (c.anchor.Some? ==>
          var a := c.anchor.value;
          && c.raw.Some? && 0 <= a.at <= c.raw.value && 0 < a.lower <= a.upper
          && (c.raw.value - a.at < policy.maxAge ==> c.floor <= a.lower + (c.raw.value - a.at) / MS))
  }

  lemma DivMonotone(a: int, b: int)
    requires 0 <= a <= b
    ensures 0 <= a / MS <= b / MS
  {
  }

  /** Asking again about a reading already seen, or an earlier one, keeps everything in order. */
  lemma BoundsAtEarlierKeeps(policy: Policy, c: Clock, now: int)
    requires Allowed(policy) && Kept(policy, c) && c.raw.Some? && now <= c.raw.value
    ensures Kept(policy, BoundsAt(policy, c, now).0)
  {
    if c.anchor.Some? && now >= c.anchor.value.at {
      DivMonotone(Min(now - c.anchor.value.at, policy.maxAge - 1), c.raw.value - c.anchor.value.at);
    }
  }

  lemma BoundsAtKeeps(policy: Policy, c: Clock, now: int)
    requires Allowed(policy) && Kept(policy, c) && c.raw == Some(now)
    ensures var (next, b) := BoundsAt(policy, c, now);
            && Kept(policy, next) && next.raw == c.raw && next.highwater == c.highwater && c.floor <= next.floor
            && (b.Some? ==> c.floor <= b.value.lower == next.floor <= b.value.upper && next.anchor == c.anchor
                            && 0 < b.value.lower)
  {
    if c.anchor.Some? {
      var a := c.anchor.value;
      if now - a.at < policy.maxAge {
        assert Min(now - a.at, policy.maxAge - 1) == now - a.at;
      }
    }
  }

  lemma CapturedKeeps(policy: Policy, c: Clock, reading: Option<int>)
    requires Allowed(policy) && Kept(policy, c)
    ensures var (next, now) := Captured(policy, c, reading);
            && Kept(policy, next) && c.floor <= next.floor && next.highwater == c.highwater
            && (now.Some? ==> next.raw == now && now.value >= 0)
  {
    if !(reading.None? || reading.value < 0 || (c.raw.Some? && reading.value < c.raw.value)) {
      var moved := c.(raw := reading);
      if c.anchor.Some? {
        DivMonotone(c.raw.value - c.anchor.value.at, reading.value - c.anchor.value.at);
      }
      BoundsAtKeeps(policy, moved, reading.value);
    }
  }

  lemma LaterKeeps(policy: Policy, c: Clock, now: int)
    requires Allowed(policy) && Kept(policy, c) && now >= 0 && (c.raw.Some? ==> c.raw.value <= now)
    ensures Kept(policy, c.(raw := Some(now)))
  {
    if c.anchor.Some? {
      DivMonotone(c.raw.value - c.anchor.value.at, now - c.anchor.value.at);
    }
  }

  lemma NoAnchorNoBounds(policy: Policy, c: Clock, now: int)
    requires Allowed(policy) && c.anchor.None?
    ensures BoundsAt(policy, c, now) == (c, None)
  {
  }

  lemma QueriedKeeps(policy: Policy, c: Clock, reading: Option<int>)
    requires Allowed(policy) && Kept(policy, c)
    ensures var (next, b) := Queried(policy, c, reading);
            && Kept(policy, next) && c.floor <= next.floor
            && (b.Some? ==> c.floor <= b.value.lower == next.floor <= b.value.upper && 0 < b.value.lower)
            && (b.None? ==> next.anchor.None?)
  {
    hide BoundsAt, Captured, Kept;
    var (captured, now) := Captured(policy, c, reading);
    CapturedKeeps(policy, c, reading);
    if now.Some? {
      BoundsAtKeeps(policy, captured, now.value);
    }
  }

  lemma SampledAbove(policy: Policy, c: Clock, known: Option<Bounds>, stamp: int, start: int, end: int)
    requires Usable(policy, c.highwater, stamp, start, end)
    ensures var b := Sampled(policy, c, known, stamp, start, end);
            && c.floor <= b.lower && 0 < b.lower && b.upper <= MAX
            && (known.Some? ==> known.value.lower <= b.lower && b.upper <= known.value.upper)
  {
  }

  /** A new anchor only narrows what was known at its reception; the floor only rises. */
  lemma ObservedKeeps(policy: Policy, c: Clock, stamp: int, start: int, reading: Option<int>)
    requires Allowed(policy) && Kept(policy, c)
    ensures var (next, ok) := Observed(policy, c, stamp, start, reading);
            && Kept(policy, next) && c.floor <= next.floor && (!ok ==> next.anchor.None?)
            && (ok ==> next.highwater == stamp >= c.highwater && next.anchor.Some?
                       && next.floor == next.anchor.value.lower)
  {
    hide BoundsAt, Captured, Usable, Sampled;
    CapturedKeeps(policy, c, reading);
    var (captured, end) := Captured(policy, c, reading);
    if end.Some? {
      BoundsAtKeeps(policy, captured, end.value);
      var (next, known) := BoundsAt(policy, captured, end.value);
      UsableMeans(policy, next.highwater, stamp, start, end.value);
      if Usable(policy, next.highwater, stamp, start, end.value) {
        SampledAbove(policy, next, known, stamp, start, end.value);
      }
    }
  }

  lemma UsableMeans(policy: Policy, highwater: int, stamp: int, start: int, end: int)
    ensures Usable(policy, highwater, stamp, start, end) ==> 0 <= start <= end && highwater <= stamp
  {
  }

  /** What one observation narrows: the bounds known at reception contain the new anchor's. */
  lemma ReanchoringNarrows(policy: Policy, c: Clock, stamp: int, start: int, reading: Option<int>)
    requires Allowed(policy) && Kept(policy, c) && Observed(policy, c, stamp, start, reading).1
    ensures var (captured, end) := Captured(policy, c, reading);
            && end.Some?
            && var known := BoundsAt(policy, captured, end.value).1;
               var anchor := Observed(policy, c, stamp, start, reading).0.anchor;
               && anchor.Some? && (known.Some? ==>
                                     known.value.lower <= anchor.value.lower <= anchor.value.upper <= known.value.upper)
  {
    hide BoundsAt, Captured, Usable, Sampled, Kept;
    CapturedKeeps(policy, c, reading);
    var (captured, end) := Captured(policy, c, reading);
    var (next, known) := BoundsAt(policy, captured, end.value);
    BoundsAtKeeps(policy, captured, end.value);
    UsableMeans(policy, next.highwater, stamp, start, end.value);
    SampledAbove(policy, next, known, stamp, start, end.value);
  }

  // --------------------------------------------------------------------- call sequences

  datatype Event =
    | Capture(reading: Option<int>)
    | Observe(stamp: int, start: int, reading: Option<int>)
    | Query(reading: Option<int>)

  const FRESH: Clock := Clock(None, 0, 0, None)

  function Next(policy: Policy, c: Clock, e: Event): Clock
    requires Allowed(policy)
  {
    match e
    case Capture(reading) => Captured(policy, c, reading).0
    case Observe(stamp, start, reading) => Observed(policy, c, stamp, start, reading).0
    case Query(reading) => Queried(policy, c, reading).0
  }

  /** The clock after the first n calls. */
  function After(policy: Policy, events: seq<Event>, n: nat): Clock
    requires Allowed(policy) && n <= |events|
  {
    if n == 0 then FRESH else Next(policy, After(policy, events, n - 1), events[n - 1])
  }

  /** What the call at i returns as bounds, if it returns any. */
  function Answer(policy: Policy, events: seq<Event>, i: nat): Option<Bounds>
    requires Allowed(policy) && i < |events|
  {
    if events[i].Query? then Queried(policy, After(policy, events, i), events[i].reading).1 else None
  }

  /** Later calls change nothing about earlier ones. */
  lemma {:induction false} AfterMore(policy: Policy, events: seq<Event>, more: seq<Event>, n: nat)
    requires Allowed(policy) && n <= |events| && events <= more
    ensures After(policy, more, n) == After(policy, events, n)
  {
    hide Next;
    if n > 0 {
      AfterMore(policy, events, more, n - 1);
    }
  }

  lemma AfterOneMore(policy: Policy, events: seq<Event>, e: Event)
    requires Allowed(policy)
    ensures After(policy, events + [e], |events| + 1) == Next(policy, After(policy, events, |events|), e)
  {
    AfterMore(policy, events, events + [e], |events|);
  }

  lemma AnswerMore(policy: Policy, events: seq<Event>, more: seq<Event>, i: nat)
    requires Allowed(policy) && i < |events| && events <= more
    ensures Answer(policy, more, i) == Answer(policy, events, i)
  {
    AfterMore(policy, events, more, i);
  }

  /** The last call was a query, and its bounds leave time before the deadline. */
  predicate InTime(policy: Policy, events: seq<Event>, deadline: int)
    requires Allowed(policy)
  {
    |events| > 0 && Answer(policy, events, |events| - 1).Some?
    && Answer(policy, events, |events| - 1).value.upper < deadline
  }

  /** The last call was a query, and its bounds prove the deadline over. */
  predicate Over(policy: Policy, events: seq<Event>, deadline: int)
    requires Allowed(policy)
  {
    |events| > 0 && Answer(policy, events, |events| - 1).Some?
    && Answer(policy, events, |events| - 1).value.lower >= deadline
  }

  /** What is in time by the bounds is in time in control-plane time, and what is over by them is over. */
  lemma JudgedRightly(policy: Policy, events: seq<Event>, instants: seq<int>, offset: int, deadline: int)
    requires Allowed(policy) && Honest(policy, events, instants, offset)
    ensures InTime(policy, events, deadline) ==>
              var reading := events[|events| - 1].reading; reading.Some? && reading.value + offset < deadline * MS
    ensures Over(policy, events, deadline) ==>
              var reading := events[|events| - 1].reading; reading.Some? && deadline * MS <= reading.value + offset
  {
    hide Answer, Honest;
    if |events| > 0 && Answer(policy, events, |events| - 1).Some? {
      BoundsAreSound(policy, events, instants, offset, |events| - 1);
    }
  }

  lemma NextKeeps(policy: Policy, c: Clock, e: Event)
    requires Allowed(policy) && Kept(policy, c)
    ensures Kept(policy, Next(policy, c, e)) && c.floor <= Next(policy, c, e).floor
  {
    hide Kept, Captured, Observed, Queried;
    match e
    case Capture(reading) => CapturedKeeps(policy, c, reading);
    case Observe(stamp, start, reading) => ObservedKeeps(policy, c, stamp, start, reading);
    case Query(reading) => QueriedKeeps(policy, c, reading);
  }

  lemma {:induction false} AfterKeeps(policy: Policy, events: seq<Event>, i: nat, n: nat)
    requires Allowed(policy) && i <= n <= |events|
    ensures Kept(policy, After(policy, events, n)) && After(policy, events, i).floor <= After(policy, events, n).floor
    decreases n
  {
    hide Next;
    if n == 0 {
      assert Kept(policy, FRESH);
    } else {
      AfterKeeps(policy, events, if i < n then i else n - 1, n - 1);
      NextKeeps(policy, After(policy, events, n - 1), events[n - 1]);
    }
  }

  /**
    * Expiry is permanent, whatever the counter and the stamps do: once some bounds
    * proved a deadline passed, no later bounds authorize it, and each proves it again.
    */
  lemma ExpiryIsPermanent(policy: Policy, events: seq<Event>, i: nat, j: nat, deadline: int)
    requires Allowed(policy) && i < j < |events|
    requires Answer(policy, events, i).Some? && Answer(policy, events, i).value.lower >= deadline
    requires Answer(policy, events, j).Some?
    ensures Answer(policy, events, j).value.upper >= deadline && Answer(policy, events, j).value.lower >= deadline
  {
    hide Kept, Queried;
    AfterKeeps(policy, events, i, i);
    AfterKeeps(policy, events, i + 1, j);
    QueriedKeeps(policy, After(policy, events, i), events[i].reading);
    QueriedKeeps(policy, After(policy, events, j), events[j].reading);
  }

  /** A call that fails leaves no anchor: bounds come again only after a new valid observation. */
  lemma FailureLeavesNoAnchor(policy: Policy, events: seq<Event>, i: nat)
    requires Allowed(policy) && i < |events|
    ensures events[i].Query? && Answer(policy, events, i).None? ==> After(policy, events, i + 1).anchor.None?
    ensures events[i].Observe?
            && !Observed(policy, After(policy, events, i), events[i].stamp, events[i].start, events[i].reading).1
            ==> After(policy, events, i + 1).anchor.None?
  {
    AfterKeeps(policy, events, i, i);
    if events[i].Query? {
      QueriedKeeps(policy, After(policy, events, i), events[i].reading);
    }
  }

  // ------------------------------------------------------------------------- soundness

  /**
    * The counter and the control-plane clock run at one rate: a reading r is taken
    * when control-plane time is r + offset nanoseconds.
    */
  predicate Contains(b: Bounds, reading: int, offset: int) {
    b.lower * MS <= reading + offset <= b.upper * MS
  }

  /** The stamp is within the stated uncertainty of an instant inside the round trip. */
  predicate HonestStamp(policy: Policy, stamp: int, start: int, end: int, instant: int, offset: int) {
    start <= instant <= end
    && (stamp - policy.uncertainty) * MS <= instant + offset <= (stamp + policy.uncertainty) * MS
  }

  /** Every observation that got a reading carried an honest stamp. */
  ghost predicate Honest(policy: Policy, events: seq<Event>, instants: seq<int>, offset: int) {
    && |instants| == |events|
    && forall i :: 0 <= i < |events| && events[i].Observe? && events[i].reading.Some? ==>
         HonestStamp(policy, events[i].stamp, events[i].start, events[i].reading.value, instants[i], offset)
  }

  predicate Sound(c: Clock, offset: int) {
    && (c.floor > 0 ==> c.raw.Some? && c.floor * MS <= c.raw.value + offset)
    && (c.anchor.Some? ==>
          c.raw.Some? && c.anchor.value.at <= c.raw.value
          && Contains(Bounds(c.anchor.value.lower, c.anchor.value.upper), c.anchor.value.at, offset))
  }

  /** Time passing moves a lower bound by whole milliseconds begun, an upper one by those not yet over. */
  lemma Advance(lower: int, upper: int, age: int, capped: int, at: int, offset: int)
    requires 0 <= capped <= age && lower * MS <= at + offset <= upper * MS
    ensures (lower + capped / MS) * MS <= at + age + offset <= (upper + CeilMS(age)) * MS
  {
    FloorIsBelow(capped);
    CeilIsAbove(age);
  }

  lemma BoundsAtSound(policy: Policy, c: Clock, now: int, offset: int)
    requires Allowed(policy) && Sound(c, offset) && c.raw == Some(now)
    ensures var (next, b) := BoundsAt(policy, c, now);
            Sound(next, offset) && (b.Some? ==> Contains(b.value, now, offset))
  {
    if c.anchor.Some? {
      var a := c.anchor.value;
      Advance(a.lower, a.upper, now - a.at, Min(now - a.at, policy.maxAge - 1), a.at, offset);
    }
  }

  lemma CapturedSound(policy: Policy, c: Clock, reading: Option<int>, offset: int)
    requires Allowed(policy) && Sound(c, offset)
    ensures var (next, now) := Captured(policy, c, reading);
            Sound(next, offset) && (now.Some? ==> next.raw == now == reading)
  {
    if !(reading.None? || reading.value < 0 || (c.raw.Some? && reading.value < c.raw.value)) {
      BoundsAtSound(policy, c.(raw := reading), reading.value, offset);
    }
  }

  lemma QueriedSound(policy: Policy, c: Clock, reading: Option<int>, offset: int)
    requires Allowed(policy) && Sound(c, offset)
    ensures var (next, b) := Queried(policy, c, reading);
            Sound(next, offset) && (b.Some? ==> reading.Some? && Contains(b.value, reading.value, offset))
  {
    hide Captured, BoundsAt, Sound;
    CapturedSound(policy, c, reading, offset);
    var (next, now) := Captured(policy, c, reading);
    if now.Some? {
      BoundsAtSound(policy, next, now.value, offset);
    }
  }

  /**
    * An honest stamp's interval contains the time of its reception, and so does its intersection
    * with what was known.
    */
  lemma SampleContains(policy: Policy, c: Clock, known: Option<Bounds>, stamp: int, start: int, end: int, instant: int,
                       offset: int)
    requires Usable(policy, c.highwater, stamp, start, end) && HonestStamp(policy, stamp, start, end, instant, offset)
    requires c.raw == Some(end) && Sound(c, offset) && (known.Some? ==> Contains(known.value, end, offset))
    ensures var b := Sampled(policy, c, known, stamp, start, end); Contains(b, end, offset) && b.lower <= b.upper
  {
    CeilIsAbove(end - start);
  }

  lemma ObservedSound(policy: Policy, c: Clock, stamp: int, start: int, reading: Option<int>, instant: int, offset: int)
    requires Allowed(policy) && Sound(c, offset)
    requires reading.Some? ==> HonestStamp(policy, stamp, start, reading.value, instant, offset)
    ensures Sound(Observed(policy, c, stamp, start, reading).0, offset)
  {
    hide Captured, BoundsAt, Usable, Sampled, HonestStamp;
    CapturedSound(policy, c, reading, offset);
    var (captured, end) := Captured(policy, c, reading);
    if end.Some? {
      BoundsAtSound(policy, captured, end.value, offset);
      BoundsAtRaw(policy, captured, end.value);
      var (next, known) := BoundsAt(policy, captured, end.value);
      UsableMeans(policy, next.highwater, stamp, start, end.value);
      if Usable(policy, next.highwater, stamp, start, end.value) {
        SampleContains(policy, next, known, stamp, start, end.value, instant, offset);
      }
    }
  }

  lemma BoundsAtRaw(policy: Policy, c: Clock, now: int)
    requires Allowed(policy)
    ensures BoundsAt(policy, c, now).0.raw == c.raw && BoundsAt(policy, c, now).0.highwater == c.highwater
  {
  }

  lemma {:induction false} AfterSound(policy: Policy, events: seq<Event>, instants: seq<int>, offset: int, n: nat)
    requires Allowed(policy) && Honest(policy, events, instants, offset) && n <= |events|
    ensures Sound(After(policy, events, n), offset)
  {
    hide Sound, Captured, Observed, Queried, HonestStamp;
    if n == 0 {
      FreshIsSound(offset);
    } else {
      AfterSound(policy, events, instants, offset, n - 1);
      var c := After(policy, events, n - 1);
      match events[n - 1]
      case Capture(reading) => CapturedSound(policy, c, reading, offset);
      case Observe(stamp, start, reading) => ObservedSound(policy, c, stamp, start, reading, instants[n - 1], offset);
      case Query(reading) => QueriedSound(policy, c, reading, offset);
    }
  }

  lemma FreshIsSound(offset: int)
    ensures Sound(FRESH, offset)
  {
  }

  /** In every sequence of calls, all bounds ever returned contain the control-plane time of their reading. */
  lemma BoundsAreSound(policy: Policy, events: seq<Event>, instants: seq<int>, offset: int, i: nat)
    requires Allowed(policy) && Honest(policy, events, instants, offset) && i < |events|
             && Answer(policy, events, i).Some?
    ensures events[i].reading.Some? && Contains(Answer(policy, events, i).value, events[i].reading.value, offset)
  {
    hide Sound, Queried, HonestStamp;
    AfterSound(policy, events, instants, offset, i);
    QueriedSound(policy, After(policy, events, i), events[i].reading, offset);
  }

  /**
    * An honest observation is refused only for its counter, its stamp or its round trip: intervals
    * never contradict each other.
    */
  lemma HonestIsNeverInconsistent(policy: Policy, events: seq<Event>, instants: seq<int>, offset: int, i: nat)
    requires Allowed(policy) && Honest(policy, events, instants, offset) && i < |events| && events[i].Observe?
    requires var c := After(policy, events, i);
             var (captured, end) := Captured(policy, c, events[i].reading);
             end.Some? && Usable(policy, c.highwater, events[i].stamp, events[i].start, end.value)
    ensures Observed(policy, After(policy, events, i), events[i].stamp, events[i].start, events[i].reading).1
  {
    hide Sound, Captured, BoundsAt, Usable, Sampled, HonestStamp;
    var c := After(policy, events, i);
    AfterSound(policy, events, instants, offset, i);
    AfterKeeps(policy, events, i, i);
    CapturedSound(policy, c, events[i].reading, offset);
    CapturedKeeps(policy, c, events[i].reading);
    var (captured, end) := Captured(policy, c, events[i].reading);
    BoundsAtSound(policy, captured, end.value, offset);
    BoundsAtRaw(policy, captured, end.value);
    var (next, known) := BoundsAt(policy, captured, end.value);
    SampleContains(policy, next, known, events[i].stamp, events[i].start, end.value, instants[i], offset);
  }
}
