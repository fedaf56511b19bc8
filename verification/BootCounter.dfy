/**
  * The counter both sides of an upgrade read: elapsed time since boot, suspend
  * included, with the boot it belongs to (internal/upgrade/client.go BootClock;
  * docker_helper.go and helper_linux.go authorized).
  */
module BootCounter {
  import opened Crashes
  import opened Requests

  /** Within one boot, later readings are never smaller. */
  ghost predicate Steady(readings: seq<Clock>) {
    forall i, j :: 0 <= i < j < |readings| && readings[i].Reading? && readings[j].Reading?
                   && readings[i].boot == readings[j].boot ==>
      readings[i].elapsed <= readings[j].elapsed
  }

  class Counter {
    var boot: string
    var boots: set<string>
    var now: int
    ghost var readings: seq<Clock>           // every answer given, written by Read alone

    ghost predicate Valid() reads this {
      && boot in boots && Steady(readings)
      && forall i :: 0 <= i < |readings| && readings[i].Reading? ==>
           readings[i].boot in boots && (readings[i].boot == boot ==> readings[i].elapsed <= now)
    }

    constructor (boot: string, now: int)
      ensures Valid() && readings == []
    {
      this.boot, this.boots, this.now, this.readings := boot, {boot}, now, [];
    }

    /** Time passes, the machine may boot again, and the counter answers or fails. */
    method Read() returns (r: Step<Clock>)
      requires Valid()
      modifies this
      ensures Valid() && old(readings) <= readings
      ensures r.Done? ==> readings == old(readings) + [r.value]
      ensures r.Killed? ==> readings == old(readings)
    {
      var alive: bool, answers: bool, later: int, rebooted: bool, next: string := *, *, *, *, *;
      if rebooted && next !in boots {
        boot, boots, now := next, boots + {next}, later;
      } else if now < later {
        now := later;
      }
      if !alive { return Killed; }
      var answer := if answers then Reading(boot, now) else NoReading;
      readings := readings + [answer];
      return Done(answer);
    }

    /** One fresh reading decides: the same boot, before the deadline, and within ten minutes of it. */
    method Authorized(request: Request) returns (r: Step<bool>)
      requires Valid()
      modifies this
      ensures Valid() && old(readings) <= readings
      ensures r.Done? ==> |readings| == |old(readings)| + 1 && (r.value <==> Allows(readings, |readings| - 1, request))
    {
      var now :- Read();
      if now.NoReading? || now.boot != request.boot || now.elapsed < 0 || request.until <= now.elapsed
         || request.until - now.elapsed > TEN_MINUTES {
        return Done(false);
      }
      return Done(true);
    }
  }

  /** The reading at this place of the history lets the request start. */
  predicate Allows(readings: seq<Clock>, at: int, request: Request) {
    0 <= at < |readings| && readings[at].Reading? && Permits(request, readings[at].boot, readings[at].elapsed)
  }
}
