/**
  * The agent upgrade as a swap of containers (internal/upgrade/docker_helper.go
  * processCurrent, rollback, removeReplacement, keepServing, recover, writeReceipt,
  * authorized, waitReady, fail, restored, indeterminate).
  *
  * The helper may be killed before or after any single effect: every call that
  * touches the engine or the disk may answer Killed, having taken effect or not,
  * and everything after it is then skipped. What a method ensures it ensures of
  * those ends too, so it holds at every point of every pass.
  *
  * A failed engine call took effect or did not, an inspect that answers is
  * truthful, and no one else moves containers. The agent never puts a request back
  * into the slot once another has replaced it, unless its receipt is final: a task
  * is executed once.
  */
module DockerSwap {
  import opened Wrappers
  import opened Crashes
  import opened Requests

  type Name = string
  type Id = string

  /** An agent container. Armed means started and not stopped since: the engine keeps it running. */
  datatype Box = Box(id: Id, image: Id, armed: bool)

  datatype Transaction = Transaction(oldId: Id, backup: Name, newImage: Id, newId: Id)

  const TARGET: Name := "passwall-node"

  predicate AlphaNumeric(c: char) {
    'a' <= c <= 'z' || 'A' <= c <= 'Z' || '0' <= c <= '9'
  }

  function Kept(task: TaskId): string {
    if task == "" then "" else (if AlphaNumeric(task[0]) then [task[0]] else "") + Kept(task[1..])
  }

  /** The name a task retains the old container under; two tasks may share one. */
  function BackupName(task: TaskId): Name {
    var kept := Kept(task);
    var short := if |kept| > 20 then kept[..20] else kept;
    TARGET + "-upgrade-" + (if short == "" then "task" else short)
  }

  lemma BackupIsNotTarget(task: TaskId)
    ensures BackupName(task) != TARGET
  {
    assert |BackupName(task)| > |TARGET|;
  }

  // ----------------------------------------------------------------------- engine

  datatype Seen = Seen(id: Id, image: Id, running: bool) | NotFound | Unanswered

  datatype Removal = Removed | Missing | Conflict | Refused

  function Disarmed(boxes: map<Name, Box>, name: Name): map<Name, Box>
  {
    if name in boxes then boxes[name := boxes[name].(armed := false)] else boxes
  }

  function Armed(boxes: map<Name, Box>, name: Name): map<Name, Box>
  {
    if name in boxes then boxes[name := boxes[name].(armed := true)] else boxes
  }

  function Moved(boxes: map<Name, Box>, from: Name, to: Name): map<Name, Box>
  {
    if from in boxes && to !in boxes then (boxes - {from})[to := boxes[from]] else boxes
  }

  /** The Docker engine, as far as the agent's containers go. */
  class Engine {
    var boxes: map<Name, Box>
    var used: set<Id>
    const troubles: Troubles

    ghost predicate Valid() reads this {
      && (forall n :: n in boxes ==> boxes[n].id in used)
      && (forall n, m :: n in boxes && m in boxes && boxes[n].id == boxes[m].id ==> n == m)
    }

    constructor (boxes: map<Name, Box>)
      requires forall n, m :: n in boxes && m in boxes && boxes[n].id == boxes[m].id ==> n == m
      ensures Valid() && this.boxes == boxes && fresh(troubles)
    {
      troubles := new Troubles();
      this.boxes := boxes;
      this.used := set n | n in boxes :: boxes[n].id;
    }

    method Inspect(name: Name) returns (r: Step<Seen>)
      modifies troubles
      ensures troubles.Later() && troubles.Kept() && troubles.rejected == old(troubles.rejected)
      ensures r.Done? && r.value.NotFound? ==> name !in boxes
      ensures r.Done? && r.value.Seen? ==>
                name in boxes && r.value.id == boxes[name].id && r.value.image == boxes[name].image
                && (r.value.running ==> boxes[name].armed)
      ensures r.Done? && r.value.Unanswered? ==> !troubles.Obeyed()
      ensures r.Done? && r.value.Seen? && r.value.running ==> troubles.Clean()
      ensures r.Done? ==> troubles.vacant == old(troubles.vacant) + if r.value.NotFound? then [name] else []
      ensures r.Done? && !r.value.Unanswered? && !(r.value.Seen? && r.value.running) ==>
                old(troubles.absent) < troubles.absent
    {
      var answers: bool, running: bool, alive: bool := *, *, *;
      if !alive { return Killed; }
      if !answers { troubles.calls := troubles.calls + 1; return Done(Unanswered); }
      if !(name in boxes && boxes[name].armed && running) { troubles.absent := troubles.absent + 1; }
      if name !in boxes {
        troubles.vacant := troubles.vacant + [name];
        return Done(NotFound);
      }
      return Done(Seen(boxes[name].id, boxes[name].image, running && boxes[name].armed));
    }

    /** A stop that is carried out stops what holds the name. */
    method Stop(name: Name) returns (r: Step<bool>)
      requires Valid()
      modifies this, troubles
      ensures Valid() && used == old(used) && (boxes == old(boxes) || boxes == Disarmed(old(boxes), name))
      ensures r == Done(true) ==> name in boxes && boxes == Disarmed(old(boxes), name)
      ensures troubles.Later() && troubles.Kept()
      ensures r == Done(false) && name in boxes ==> !troubles.Obeyed()
    {
      var lands: bool, reports: bool, alive: bool := *, *, *;
      if lands { boxes := Disarmed(boxes, name); }
      if !alive { return Killed; }
      if !(lands && reports) { troubles.calls := troubles.calls + 1; }
      return Done(lands && reports && name in boxes);
    }

    method Start(name: Name) returns (r: Step<bool>)
      requires Valid()
      modifies this, troubles
      ensures Valid() && used == old(used) && (boxes == old(boxes) || boxes == Armed(old(boxes), name))
      ensures r == Done(true) ==> name in boxes && boxes == Armed(old(boxes), name)
      ensures troubles.Later() && troubles.Kept() && troubles.Blind()
      ensures r == Done(false) && name in boxes ==> !troubles.Obeyed()
    {
      var lands: bool, reports: bool, alive: bool := *, *, *;
      if lands { boxes := Armed(boxes, name); }
      if !alive { return Killed; }
      if !(lands && reports) { troubles.calls := troubles.calls + 1; }
      return Done(lands && reports && name in boxes);
    }

    /** A rename onto a name in use is refused. */
    method Rename(from: Name, to: Name) returns (r: Step<bool>)
      requires Valid()
      modifies this, troubles
      ensures Valid() && used == old(used) && (boxes == old(boxes) || boxes == Moved(old(boxes), from, to))
      ensures r == Done(true) ==> from in old(boxes) && to !in old(boxes) && boxes == Moved(old(boxes), from, to)
      ensures troubles.Later() && troubles.Kept() && troubles.Blind()
      ensures r == Done(false) && from in old(boxes) && to !in old(boxes) ==> !troubles.Obeyed()
    {
      var lands: bool, reports: bool, alive: bool := *, *, *;
      var can := from in boxes && to !in boxes;
      if lands { boxes := Moved(boxes, from, to); }
      if !alive { return Killed; }
      if !(lands && reports) { troubles.calls := troubles.calls + 1; }
      return Done(lands && reports && can);
    }

    /** A create under a name in use is refused; the identity is one never seen. */
    method Create(name: Name, image: Id) returns (r: Step<Option<Id>>)
      requires Valid()
      modifies this, troubles
      ensures Valid() && old(used) <= used
      ensures boxes == old(boxes)
              || (name !in old(boxes) && exists id :: id !in old(used)
                                                      && boxes == old(boxes)[name := Box(id, image, false)])
      ensures r.Done? && r.value.Some? ==>
                name !in old(boxes) && r.value.value !in old(used)
                && boxes == old(boxes)[name := Box(r.value.value, image, false)]
      ensures troubles.Later() && troubles.Kept()
      ensures r == Done(None) && name !in old(boxes) ==> !troubles.Obeyed()
    {
      var lands: bool, reports: bool, alive: bool, id: Id := *, *, *, *;
      var can := lands && name !in boxes && id !in used;
      if can {
        boxes := boxes[name := Box(id, image, false)];
        used := used + {id};
      }
      if !alive { return Killed; }
      if !(can && reports) { troubles.calls := troubles.calls + 1; }
      return Done(if can && reports then Some(id) else None);
    }

    /** Unforced, a removal may be refused as in conflict with a container still running. */
    method Remove(name: Name, force: bool) returns (r: Step<Removal>)
      requires Valid()
      modifies this, troubles
      ensures Valid() && used == old(used) && (boxes == old(boxes) || boxes == old(boxes) - {name})
      ensures r.Done? && (r.value.Removed? || r.value.Missing?) ==> name !in boxes && boxes == old(boxes) - {name}
      ensures r.Done? && r.value.Conflict? ==> boxes == old(boxes)
      ensures troubles.Later() && troubles.Kept()
      ensures r.Done? && (r.value.Refused? || (r.value.Conflict? && force)) ==> !troubles.Obeyed()
    {
      var lands: bool, alive: bool, answer: Removal := *, *, *;
      if lands && !(answer.Conflict? && alive) { boxes := boxes - {name}; }
      if !alive { return Killed; }
      if answer.Conflict? {
        if force { troubles.calls := troubles.calls + 1; }
        return Done(Conflict);
      }
      if lands && name !in boxes && answer.Removed? { return Done(Removed); }
      if name !in boxes && answer.Missing? { assert boxes == boxes - {name}; return Done(Missing); }
      troubles.calls := troubles.calls + 1;
      return Done(Refused);
    }
  }

  // ------------------------------------------------------------------- what is kept

  /** No two containers are kept running; one beside the target name only while nothing holds that name. */
  ghost predicate OneRuns(boxes: map<Name, Box>) {
    && (forall n, m :: n in boxes && m in boxes && boxes[n].armed && boxes[m].armed ==> n == m)
    && (forall n :: n in boxes && boxes[n].armed && n != TARGET ==> TARGET !in boxes)
  }

  /** Beside the target name, only the container under this name may be running. */
  ghost predicate OnlyBeside(boxes: map<Name, Box>, name: Name) {
    forall n :: n in boxes && boxes[n].armed && n != TARGET ==> n == name
  }

  ghost predicate NoneRuns(boxes: map<Name, Box>) {
    forall n :: n in boxes ==> !boxes[n].armed
  }

  lemma StopKeeps(boxes: map<Name, Box>, name: Name)
    requires OneRuns(boxes)
    ensures OneRuns(Disarmed(boxes, name))
    ensures forall b :: OnlyBeside(boxes, b) ==> OnlyBeside(Disarmed(boxes, name), b)
    ensures TARGET in boxes && name == TARGET ==> NoneRuns(Disarmed(boxes, name))
  {
  }

  lemma StartTargetKeeps(boxes: map<Name, Box>)
    requires OneRuns(boxes)
    ensures OneRuns(Armed(boxes, TARGET))
    ensures forall b :: OnlyBeside(boxes, b) ==> OnlyBeside(Armed(boxes, TARGET), b)
  {
  }

  lemma StartBackupKeeps(boxes: map<Name, Box>, backup: Name)
    requires OneRuns(boxes) && OnlyBeside(boxes, backup) && TARGET !in boxes
    ensures OneRuns(Armed(boxes, backup)) && OnlyBeside(Armed(boxes, backup), backup)
  {
  }

  lemma RemoveKeeps(boxes: map<Name, Box>, name: Name)
    requires OneRuns(boxes)
    ensures OneRuns(boxes - {name})
    ensures forall b :: OnlyBeside(boxes, b) ==> OnlyBeside(boxes - {name}, b)
  {
  }

  lemma RetainKeeps(boxes: map<Name, Box>, backup: Name)
    requires NoneRuns(boxes)
    ensures NoneRuns(Moved(boxes, TARGET, backup))
  {
  }

  lemma RestoreKeeps(boxes: map<Name, Box>, backup: Name)
    requires OneRuns(boxes) && OnlyBeside(boxes, backup)
    ensures OneRuns(Moved(boxes, backup, TARGET)) && OnlyBeside(Moved(boxes, backup, TARGET), backup)
  {
  }

  /**
    * Putting a retained container back under the free target name and starting it
    * leaves one agent running exactly when no other container runs beside it: that
    * is what a finished task's container, left running under its backup name, would
    * break if an older unfinished task were ever resumed.
    */
  lemma RestoreIsSafeExactly(boxes: map<Name, Box>, backup: Name)
    requires OneRuns(boxes) && TARGET !in boxes && backup in boxes
    ensures OneRuns(Armed(Moved(boxes, backup, TARGET), TARGET)) <==> OnlyBeside(boxes, backup)
  {
    var after := Armed(Moved(boxes, backup, TARGET), TARGET);
    if OnlyBeside(boxes, backup) {
      RestoreKeeps(boxes, backup);
      StartTargetKeeps(Moved(boxes, backup, TARGET));
    } else {
      var n :| n in boxes && boxes[n].armed && n != TARGET && n != backup;
      assert n in after && after[n].armed && TARGET in after && after[TARGET].armed;
    }
  }

  /** Two tasks' retained containers, one running: resuming the other task would run two agents. */
  lemma ResumingAnOldTaskWouldRunTwo()
    ensures var boxes := map["a" := Box("old", "i", true), "b" := Box("older", "j", false)];
            OneRuns(boxes) && !OneRuns(Armed(Moved(boxes, "b", TARGET), TARGET))
  {
    var boxes := map["a" := Box("old", "i", true), "b" := Box("older", "j", false)];
    assert TARGET !in boxes && "b" in boxes && !OnlyBeside(boxes, "b") by {
      assert "a" in boxes && boxes["a"].armed && "a" != TARGET && "a" != "b";
    }
    RestoreIsSafeExactly(boxes, "b");
  }

  lemma NoneMeansOne(boxes: map<Name, Box>, b: Name)
    requires NoneRuns(boxes)
    ensures OneRuns(boxes) && OnlyBeside(boxes, b)
  {
  }

  lemma TargetMeansAlone(boxes: map<Name, Box>, b: Name)
    requires OneRuns(boxes) && TARGET in boxes
    ensures OnlyBeside(boxes, b)
  {
  }

  /** What was so when a receipt landed. */
  datatype Claim = Claim(untouched: bool, target: Option<Box>, transaction: Option<Transaction>, ready: Option<Ready>)

  /** A readiness document about this very activation. */
  predicate Answers(ready: Ready, receipt: Receipt) {
    && ready.task == receipt.request.task && ready.digest == receipt.request.digest
    && ready.version == receipt.request.version && ready.nonce == receipt.nonce && ready.wellFormed
  }

  /** A final receipt that was true when it landed. */
  predicate Truthful(receipt: Receipt, claim: Claim) {
    match receipt.phase
    case Succeeded =>
      && claim.target.Some? && claim.transaction.Some? && claim.target.value.armed
      && claim.target.value.id == claim.transaction.value.newId
      && claim.target.value.image == claim.transaction.value.newImage
      && claim.ready.Some? && Answers(claim.ready.value, receipt) && claim.ready.value.binary == receipt.binary
    case Failed =>
      || claim.untouched
      || (claim.target.Some? && claim.transaction.Some? && claim.target.value.armed
          && claim.target.value.id == claim.transaction.value.oldId)
    case _ => true
  }

  predicate DocumentOk(task: TaskId, receipt: Receipt, transactions: map<TaskId, Transaction>) {
    && receipt.request.task == task
    && (!Final(receipt.phase) ==> task in transactions && transactions[task].backup == BackupName(task))
  }
}
