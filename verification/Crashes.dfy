/** Processes that may be killed before or after any single effect. */
module Crashes {

  /** What a call that may be its process's last returns. */
  datatype Step<+T> = Killed | Done(value: T)
  {
    predicate IsFailure() {
      Killed?
    }

    function PropagateFailure<U>(): Step<U>
      requires Killed?
    {
      Killed
    }

    function Extract(): T
      requires Done?
    {
      value
    }
  }

  /** What went wrong around a process so far. Only the calls that meet it write it. */
  class Troubles {
    ghost var disk: nat         // documents that could not be read or written
    ghost var calls: nat        // calls that were not answered, or not carried out
    ghost var absent: nat       // looks that found nothing running
    ghost var rejected: nat     // checks that did not pass
    ghost var unproven: nat     // targets that did not prove themselves in time
    ghost var skipped: nat      // backups left alone because they looked odd
    ghost var vacant: seq<string>  // names looked up that nothing held
    ghost var cancelled: nat    // times the process was told to stop

    constructor ()
      ensures disk == calls == absent == rejected == unproven == skipped == cancelled == 0 && vacant == []
    {
      disk, calls, absent, rejected, unproven, skipped, vacant, cancelled := 0, 0, 0, 0, 0, 0, [], 0;
    }

    twostate predicate Later() reads this {
      && old(disk) <= disk && old(calls) <= calls && old(absent) <= absent && old(rejected) <= rejected
      && old(unproven) <= unproven && old(skipped) <= skipped && old(vacant) <= vacant
      && old(cancelled) <= cancelled
    }

    /** Every document was read and written as asked. */
    twostate predicate Kept() reads this {
      disk == old(disk)
    }

    /** Every call was answered and carried out. */
    twostate predicate Obeyed() reads this {
      calls == old(calls)
    }

    /** Nothing stood in the way: every call was carried out, every check passed, and what was looked for ran. */
    twostate predicate Unhindered() reads this {
      Obeyed() && absent == old(absent) && rejected == old(rejected)
    }

    /** Nothing went wrong. */
    twostate predicate Clean() reads this {
      Kept() && Unhindered()
    }

    /** A call that answered was carried out with nothing going wrong, or noted that it was not. */
    twostate predicate Told(new r: Step<bool>) reads this {
      r.Done? ==> if r.value then Clean() else !Obeyed()
    }

    /** No name was found to be free. */
    twostate predicate Blind() reads this {
      vacant == old(vacant)
    }

    /** Nobody told the process to stop. */
    twostate predicate Undisturbed() reads this {
      cancelled == old(cancelled)
    }

    /** No target was given up on. */
    twostate predicate Timely() reads this {
      unproven == old(unproven)
    }
  }
}
