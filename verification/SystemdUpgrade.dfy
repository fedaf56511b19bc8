/**
  * The agent upgrade as a swap of files under systemd
  * (internal/upgrade/helper_linux.go run, prepareBackup, installCandidate, rollback,
  * restoreBackup, recover, restartAfterFailedRestore, pruneCompletedBackups,
  * writeReceipt, fail, markIndeterminate).
  *
  * A file is its content, which for the binary is its digest, and the version file
  * is the version it records. A file write is atomic, and may land and still report
  * an error. The helper may be killed before or after any single effect.
  */
module SystemdUpgrade {
  import opened Wrappers
  import opened Crashes
  import opened Requests
  import opened BootCounter
  import opened SystemdHistory

  /** A swap about to begin: its documents and backup are on disk. */
  datatype Plan = Plan(request: Request, candidate: Candidate, meta: Meta)

  class Helper {
    const counter: Counter
    const troubles: Troubles
    var files: Files
    var receipts: map<TaskId, Receipt>
    var backups: map<TaskId, Backup>
    var active: bool                          // whether systemd keeps the service running
    var process: Option<string>               // the binary its process runs
    // what has happened so far
    ghost var vetted: set<Vetted>             // checks that passed
    ghost var asked: seq<Request>             // requests read
    ghost var aims: map<TaskId, Aim>          // what each task found installed, its two binaries, and what for
    ghost var draws: set<Draw>                // nonces drawn
    ghost var touched: set<TaskId>            // tasks that stopped the service or replaced a file
    ghost var durable: map<TaskId, nat>       // how many clock readings came before the task's activating receipt
    ghost var starts: seq<Start>
    ghost var confirmed: Option<string>       // the process found running since the last start
    ghost var stops: seq<Stop>
    ghost var documents: seq<Ready>           // readiness documents read
    ghost var proofs: seq<Ready>              // those a running target proved itself by
    ghost var advances: nat                   // downloads begun
    ghost var claims: map<TaskId, Claim>      // what was so when each receipt landed
    ghost var pruning: set<TaskId>            // tasks whose backup had a file removed
    ghost var removals: nat                   // files removed from backups
    ghost var crowded: nat                    // times more than two finished backups were found
    ghost var always: bool                    // whether all metadata spoke true at every point

    ghost predicate Valid() reads this, counter {
      && counter.Valid() && Whole(files) && ReceiptsOk(receipts, touched)
      && ClaimsOk(receipts, claims, touched, documents)
      && AimsOk(aims, vetted) && StartsOk(starts, receipts, aims)
      && StopsOk(stops, touched, counter.readings, durable) && AskedOk(asked, draws, aims, receipts, stops, starts)
      && BackupsOk(receipts, backups, aims, pruning) && PruningOk(always, removals, crowded, pruning)
    }

    /** An unfinished task with a complete backup. */
    ghost predicate Backed(task: TaskId, meta: Meta) reads this, counter {
      && Valid() && task in receipts && !Final(receipts[task].phase)
      && task in backups && backups[task].meta == Some(meta)
    }

    /** In the middle of this task's activation or its rollback. */
    ghost predicate Swapping(task: TaskId, meta: Meta) reads this, counter {
      Backed(task, meta) && Active(receipts[task].phase)
    }

    /** What the task found is installed, its binary was started for it last and was found running. */
    ghost predicate BackOn(task: TaskId) reads this {
      && task in aims && files == aims[task].found && Bin in files
      && |starts| > 0 && starts[|starts| - 1] == Start(task, files[Bin]) && confirmed == Some(files[Bin])
    }

    lemma Installed()
      requires Valid()
      ensures Whole(files)
    {
    }

    lemma Untouched(task: TaskId)
      requires Valid() && (task in receipts ==> receipts[task].phase.Prepared?)
      ensures task !in touched
    {
    }

    lemma Known(task: TaskId, meta: Meta)
      requires Backed(task, meta)
      ensures Whole(files) && task in aims && Whole(aims[task].found) && aims[task].found[Bin] == meta.oldDigest
      ensures task in aims && aims[task].meta == meta && Aimed(aims, receipts, task)
    {
      hide ReceiptsOk, BackupsOk, ClaimsOk, StartsOk, StopsOk, AskedOk, AimsOk, PruningOk;
      BackupIsHonest(receipts, backups, aims, pruning, task);
      WasAsked(asked, draws, aims, receipts, stops, starts, task);
    }

    /** This receipt is about the request its task's receipt on disk is about. */
    ghost predicate Working(receipt: Receipt) reads this {
      receipt.request.task in receipts && receipts[receipt.request.task].request == receipt.request
    }

    lemma WasRead(task: TaskId)
      requires Valid() && task in receipts
      ensures Heard(asked, receipts[task].request) && (Begun(receipts[task].phase) ==> Aimed(aims, receipts, task))
    {
      hide ReceiptsOk, BackupsOk, ClaimsOk, StartsOk, StopsOk, AskedOk, AimsOk, PruningOk;
      WasAsked(asked, draws, aims, receipts, stops, starts, task);
    }

    ghost predicate ReadLast(request: Request) reads this {
      |asked| > 0 && asked[|asked| - 1] == request
    }

    /** The request read last, which parses and is being worked on. */
    ghost predicate Current(request: Request) reads this {
      ReadLast(request) && request.parses
    }

    /** A receipt of the request's task, if there is one, is about this request. */
    ghost predicate Own(request: Request) reads this {
      request.task in receipts ==> receipts[request.task].request == request
    }

    constructor (files: Files, active: bool, process: Option<string>, counter: Counter)
      requires Whole(files) && counter.Valid()
      ensures Valid() && this.files == files && receipts == map[] && this.counter == counter && fresh(troubles)
    {
      this.counter := counter;
      troubles := new Troubles();
      this.files, receipts, backups, this.active, this.process := files, map[], map[], active, process;
      vetted, asked, aims, draws := {}, [], map[], {};
      touched, durable, starts, confirmed, stops := {}, map[], [], None, [];
      documents, proofs, advances, claims, pruning, removals, crowded, always := [], [], 0, map[], {}, 0, 0, true;
    }

    /** What is so now, with the readiness document read at this place. */
    ghost function ClaimNow(task: TaskId, at: int): Claim reads this {
      Claim(task !in touched, files, if task in aims then Some(aims[task].found) else None,
            if |starts| > 0 then Some(starts[|starts| - 1]) else None, confirmed,
            if 0 <= at < |documents| then Some(documents[at]) else None)
    }

    // ------------------------------------------------------------------ documents

    method ReadReceipt(task: TaskId) returns (r: Step<Found>)
      modifies troubles
      ensures troubles.Later() && troubles.Obeyed()
      ensures r.Done? && r.value.Absent? ==> task !in receipts
      ensures r.Done? && r.value.Found? ==> task in receipts && r.value.receipt == receipts[task]
      ensures r.Done? && r.value.Unreadable? ==> !troubles.Kept()
    {
      var answers: bool, alive: bool := *, *;
      if !alive { return Killed; }
      if !answers { troubles.disk := troubles.disk + 1; return Done(Unreadable); }
      return Done(if task in receipts then Found(receipts[task]) else Absent);
    }

    /** There is no receipt of the task yet, or one of the same identity that is not final. */
    predicate Replaceable(receipt: Receipt) reads this {
      var task := receipt.request.task;
      task in receipts ==> SameTask(receipts[task].request, receipt.request) && !Final(receipts[task].phase)
    }

    ghost predicate MayLand(receipt: Receipt, at: int) reads this {
      && Truthful(receipt, ClaimNow(receipt.request.task, at))
      && (receipt.phase.Prepared? || receipt.phase.Activating? ==> receipt.request.task !in touched)
      && Own(receipt.request) && ReceiptAsked(asked, draws, aims, receipt, receipt.request.task)
    }

    /** A receipt takes the place of the one there was. */
    method Land(receipt: Receipt, ghost at: int)
      requires Valid() && MayLand(receipt, at) && Replaceable(receipt)
      modifies this`receipts, this`claims, this`durable
      ensures Valid() && receipts == old(receipts)[receipt.request.task := receipt]
      ensures durable == if receipt.phase.Activating? then old(durable)[receipt.request.task := |counter.readings|]
                         else old(durable)
    {
      hide Counter.Valid, ReceiptsOk, BackupsOk, ClaimsOk, StartsOk, StopsOk, AskedOk, AimsOk, PruningOk, Truthful,
           Whole, ReceiptAsked;
      var task := receipt.request.task;
      ghost var claim := ClaimNow(task, at);
      ReceiptLands(receipts, claims, touched, documents, starts, backups, aims, pruning, task, receipt, claim);
      ReceiptIsAsked(asked, draws, aims, receipts, stops, starts, task, receipt);
      claims := claims[task := claim];
      receipts := receipts[task := receipt];
      if receipt.phase.Activating? {
        DurableFrom(stops, touched, counter.readings, durable, task, |counter.readings|);
        durable := durable[task := |counter.readings|];
      }
    }

    /** A receipt is replaced whole; a final one, or another task's, never. */
    method WriteReceipt(receipt: Receipt, ghost at: int) returns (r: Step<bool>)
      requires Valid() && MayLand(receipt, at)
      modifies this`receipts, this`claims, this`durable, troubles
      ensures Valid() && troubles.Later() && troubles.Unhindered()
      ensures r == Done(true) ==> old(Replaceable(receipt)) && troubles.Kept()
      ensures r == Done(false) && old(Replaceable(receipt)) ==> !troubles.Kept()
      ensures receipts == old(receipts) || receipts == old(receipts)[receipt.request.task := receipt]
      ensures r == Done(true) ==> receipts == old(receipts)[receipt.request.task := receipt]
      ensures r == Done(true) && receipt.phase.Activating? ==>
                receipt.request.task in durable && durable[receipt.request.task] == |counter.readings|
      ensures !receipt.phase.Activating? ==> durable == old(durable)
      ensures forall task :: task in old(receipts) && Final(old(receipts)[task].phase) ==>
                task in receipts && receipts[task] == old(receipts)[task]
    {
      hide Valid, MayLand;
      var readable: bool, lands: bool, reports: bool, alive: bool := *, *, *, *;
      var task := receipt.request.task;
      if !readable { troubles.disk := troubles.disk + 1; return Done(false); }
      if task in receipts && (!SameTask(receipts[task].request, receipt.request) || Final(receipts[task].phase)) {
        return Done(false);
      }
      if lands { Land(receipt, at); }
      if !alive { return Killed; }
      if !(lands && reports) { troubles.disk := troubles.disk + 1; }
      return Done(lands && reports);
    }

    /** The last reading of the counter permits the request. */
    ghost predicate Permitted(request: Request) reads this, counter {
      |counter.readings| > 0 && Allows(counter.readings, |counter.readings| - 1, request)
    }

    /** One fresh reading of the boot clock. */
    method Authorized(request: Request) returns (r: Step<bool>)
      requires Valid()
      modifies counter
      ensures Valid() && old(counter.readings) <= counter.readings
      ensures r.Done? ==> |counter.readings| == |old(counter.readings)| + 1
      ensures r.Done? ==> (r.value <==> Allows(counter.readings, |counter.readings| - 1, request))
    {
      hide Counter.Valid, ReceiptsOk, BackupsOk, ClaimsOk, StartsOk, StopsOk, AskedOk, AimsOk, PruningOk, Whole, Allows;
      ghost var readings := counter.readings;
      r := counter.Authorized(request);
      LaterReadings(stops, touched, readings, counter.readings, durable);
    }

    method Fail(request: Request) returns (r: Step<bool>)
      requires Valid() && request.task !in touched && Heard(asked, request) && Own(request)
      requires request.task in receipts ==> !Final(receipts[request.task].phase)
      modifies this`receipts, this`claims, this`durable, troubles
      ensures Valid() && troubles.Later() && troubles.Obeyed()
      ensures receipts == old(receipts) || receipts == old(receipts)[request.task := Receipt(request, Failed, "", "")]
      ensures r == Done(true) ==> receipts == old(receipts)[request.task := Receipt(request, Failed, "", "")]
      ensures r.Done? ==> (r.value <==> troubles.Kept()) && (r.value ==> Refused(request))
    {
      hide Valid;
      r := WriteReceipt(Receipt(request, Failed, "", ""), -1);
    }

    /** The task's receipt is not final yet. */
    ghost predicate Open(task: TaskId) reads this {
      task in receipts && !Final(receipts[task].phase)
    }

    method Undetermined(receipt: Receipt) returns (r: Step<bool>)
      requires Valid() && Working(receipt) && Open(receipt.request.task)
      modifies this`receipts, this`claims, this`durable, troubles
      ensures Valid() && troubles.Later() && troubles.Obeyed()
      ensures var left := receipt.(phase := Indeterminate, binary := "");
              && (receipts == old(receipts) || receipts == old(receipts)[receipt.request.task := left])
              && (r == Done(true) ==> receipts == old(receipts)[receipt.request.task := left])
      ensures r == Done(false) ==> !troubles.Kept()
    {
      hide Valid;
      WasRead(receipt.request.task);
      r := WriteReceipt(receipt.(phase := Indeterminate, binary := ""), -1);
    }

    // ----------------------------------------------------------------- files, service

    method ReadFile(file: File) returns (r: Step<Option<string>>)
      requires Valid()
      modifies troubles
      ensures r.Done? && r.value.Some? ==> r.value.value == files[file]
      ensures troubles.Later() && troubles.Kept() && (r == Done(None) ==> !troubles.Obeyed())
      ensures r.Done? && r.value.Some? ==> troubles.Clean()
    {
      hide ReceiptsOk, BackupsOk, ClaimsOk, StartsOk, StopsOk, AskedOk, AimsOk, PruningOk;
      var alive: bool, answers: bool := *, *;
      if !alive { return Killed; }
      if !answers { troubles.calls := troubles.calls + 1; }
      return Done(if answers then Some(files[file]) else None);
    }

    /** A managed file is replaced for a task that said so, and only while the service is stopped. */
    method WriteFile(task: TaskId, file: File, content: string) returns (r: Step<bool>)
      requires Valid() && task in touched && !active
      modifies this`files, troubles
      ensures Valid() && (files == old(files) || files == old(files)[file := content])
      ensures r == Done(true) ==> files == old(files)[file := content]
      ensures troubles.Later() && troubles.Kept() && troubles.Told(r)
    {
      hide ReceiptsOk, BackupsOk, ClaimsOk, StartsOk, StopsOk, AskedOk, AimsOk, PruningOk;
      var lands: bool, reports: bool, alive: bool := *, *, *;
      if lands { files := files[file := content]; }
      if !alive { return Killed; }
      if !(lands && reports) { troubles.calls := troubles.calls + 1; }
      return Done(lands && reports);
    }

    /** A file is opened, a directory synced, or not. */
    method Command() returns (r: Step<bool>)
      modifies troubles
      ensures troubles.Later() && troubles.Kept() && troubles.Told(r)
    {
      var alive: bool, worked: bool := *, *;
      if !alive { return Killed; }
      if !worked { troubles.calls := troubles.calls + 1; }
      return Done(worked);
    }

    /** Stops the service; one that failed to stop may run on or not. */
    method Halt() returns (r: Step<bool>)
      requires Valid()
      modifies this`active, this`process, this`confirmed, troubles
      ensures Valid() && confirmed.None?
      ensures r == Done(true) ==> !active && process.None?
      ensures troubles.Later() && troubles.Kept() && troubles.Told(r)
    {
      hide Counter.Valid, ReceiptsOk, BackupsOk, ClaimsOk, StartsOk, StopsOk, AskedOk, AimsOk, PruningOk, Whole;
      var alive: bool, worked: bool, stops: bool := *, *, *;
      confirmed := None;
      if worked || stops { active, process := false, None; }
      if !alive { return Killed; }
      if !worked { troubles.calls := troubles.calls + 1; }
      return Done(worked);
    }

    /** Starts the service for a task, on one of its two binaries. */
    method StartService(ghost task: TaskId) returns (r: Step<bool>)
      requires Valid() && task in receipts && task in aims && Aimed(aims, receipts, task)
      requires files[Bin] == aims[task].meta.oldDigest || files[Bin] == aims[task].meta.newDigest
      modifies this`starts, this`active, this`process, this`confirmed, troubles
      ensures Valid() && starts == old(starts) + [Start(task, files[Bin])] && confirmed.None?
      ensures troubles.Later() && troubles.Kept() && troubles.Told(r)
    {
      hide ReceiptsOk, BackupsOk, ClaimsOk, StartsOk, StopsOk, AskedOk, AimsOk, PruningOk;
      StartJoins(starts, receipts, aims, task, files[Bin]);
      StartIsAsked(asked, draws, aims, receipts, stops, starts, Start(task, files[Bin]));
      starts := starts + [Start(task, files[Bin])];
      r := Issue(files[Bin]);
    }

    method Issue(binary: string) returns (r: Step<bool>)
      requires Valid()
      modifies this`active, this`process, this`confirmed, troubles
      ensures Valid() && confirmed.None?
      ensures troubles.Later() && troubles.Kept() && troubles.Told(r)
    {
      hide Valid;
      var alive: bool, worked: bool := *, *;
      Spawn(binary, worked);
      if !worked { troubles.calls := troubles.calls + 1; }
      r := if alive then Done(worked) else Killed;
    }

    /** Systemd keeps the service active from a start that worked on, and its process may run by now. */
    method Spawn(binary: string, worked: bool)
      requires Valid()
      modifies this`active, this`process, this`confirmed
      ensures Valid() && confirmed.None?
    {
      hide Counter.Valid, ReceiptsOk, BackupsOk, ClaimsOk, StartsOk, StopsOk, AskedOk, AimsOk, PruningOk, Whole;
      var runs: bool := *;
      confirmed := None;
      active := active || runs || worked;
      process := if runs then Some(binary) else process;
    }

    /** Looks at the executable of the service's main process, which systemd may have restarted or lost meanwhile. */
    method VerifyProcess(digest: string) returns (r: Step<bool>)
      requires Valid()
      modifies this`process, this`confirmed, troubles
      ensures Valid()
      ensures r == Done(true) ==> process == Some(digest) && confirmed == Some(digest)
      ensures troubles.Later() && troubles.Kept() && troubles.Obeyed()
      ensures r == Done(false) ==> old(troubles.absent) < troubles.absent
      ensures r == Done(true) ==> troubles.Clean()
    {
      hide Valid;
      Meanwhile();
      var alive: bool, answers: bool := *, *;
      if !alive { return Killed; }
      if !answers || process != Some(digest) { troubles.absent := troubles.absent + 1; return Done(false); }
      Confirm();
      return Done(true);
    }

    /** Systemd may have lost the process, or started what is installed again. */
    method Meanwhile()
      requires Valid()
      modifies this`process
      ensures Valid()
    {
      hide Counter.Valid, ReceiptsOk, BackupsOk, ClaimsOk, StartsOk, StopsOk, AskedOk, AimsOk, PruningOk;
      var restarted: bool, lost: bool := *, *;
      if lost { process := None; }
      if active && restarted { process := Some(files[Bin]); }
    }

    ghost method Confirm()
      requires Valid()
      modifies this`confirmed
      ensures Valid() && confirmed == process
    {
      hide Counter.Valid, ReceiptsOk, BackupsOk, ClaimsOk, StartsOk, StopsOk, AskedOk, AimsOk, PruningOk, Whole;
      confirmed := process;
    }

    /** Waits for the process to run this binary; one that never does was not started after all. */
    method WaitProcess(digest: string) returns (r: Step<bool>)
      requires Valid()
      modifies this`process, this`confirmed, troubles
      ensures Valid()
      ensures r == Done(true) ==> confirmed == Some(digest)
      ensures troubles.Later() && troubles.Kept() && (r == Done(true) ==> troubles.Obeyed())
      ensures r == Done(false) ==> !troubles.Obeyed() && old(troubles.absent) < troubles.absent
    {
      hide Valid;
      var found :- VerifyProcess(digest);
      var polls: nat := *;
      while !found && polls > 0
        invariant Valid() && troubles.Later() && troubles.Kept() && troubles.Obeyed()
        invariant if found then confirmed == Some(digest) else old(troubles.absent) < troubles.absent
        decreases polls
      {
        found :- VerifyProcess(digest);
        polls := polls - 1;
      }
      if !found { troubles.calls := troubles.calls + 1; }
      return Done(found);
    }

    // ---------------------------------------------------------------------- rollback

    /** Puts every retained file back, the binary first and only if it is the recorded one. */
    method RestoreBackup(task: TaskId, meta: Meta) returns (r: Step<bool>)
      requires Swapping(task, meta) && task in touched && !active
      modifies this`files, troubles
      ensures Swapping(task, meta)
      ensures r == Done(true) ==> task in aims && files == aims[task].found
      ensures troubles.Later() && troubles.Kept() && troubles.Told(r)
    {
      hide ReceiptsOk, BackupsOk, ClaimsOk, StartsOk, StopsOk, AskedOk, AimsOk, PruningOk;
      BackupIsHonest(receipts, backups, aims, pruning, task);
      var backup := backups[task];
      var readable :- Command();
      if !readable || backup.files[Bin] != meta.oldDigest { return Done(false); }
      ManagedIsEverything();
      for i := 0 to |MANAGED|
        invariant Swapping(task, meta) && task in aims && Honest(backup, aims[task].found) && backup.meta.Some?
        invariant forall j :: 0 <= j < i ==> files[MANAGED[j]] == aims[task].found[MANAGED[j]]
        invariant troubles.Later() && troubles.Clean()
      {
        var opens :- Command();
        if !opens { return Done(false); }
        var written :- WriteFile(task, MANAGED[i], backup.files[MANAGED[i]]);
        if !written { return Done(false); }
      }
      SameFiles(files, aims[task].found);
      return Done(true);
    }

    /** Best effort: starts the service exactly if it can identify the binary as one of the task's two. */
    method RestartAfterFailedRestore(task: TaskId, meta: Meta) returns (r: Step<bool>)
      requires Backed(task, meta)
      modifies this`starts, this`active, this`process, this`confirmed, troubles
      ensures Backed(task, meta)
      ensures starts == old(starts) || starts == old(starts) + [Start(task, files[Bin])]
      ensures files[Bin] != meta.oldDigest && files[Bin] != meta.newDigest ==> starts == old(starts)
      ensures r == Done(true) ==> starts != old(starts)
      ensures troubles.Later() && troubles.Kept()
      ensures r.Done? && troubles.Obeyed() && (files[Bin] == meta.oldDigest || files[Bin] == meta.newDigest) ==>
                starts == old(starts) + [Start(task, files[Bin])]
    {
      hide Valid;
      Known(task, meta);
      var digest :- ReadFile(Bin);
      if digest.None? || (digest.value != meta.oldDigest && digest.value != meta.newDigest) { return Done(false); }
      var started :- StartService(task);
      if !started { return Done(false); }
      r := WaitProcess(digest.value);
    }

    /** From the moment the receipt says so, the task counts as having touched what is installed. */
    method BeginRollback(rolling: Receipt, meta: Meta) returns (r: Step<bool>)
      requires rolling.phase.RollingBack? && Backed(rolling.request.task, meta) && Working(rolling)
      modifies this`receipts, this`claims, this`durable, this`touched, troubles
      ensures Backed(rolling.request.task, meta) && Working(rolling) && old(touched) <= touched
      ensures r == Done(true) ==> Swapping(rolling.request.task, meta) && rolling.request.task in touched
      ensures troubles.Later() && troubles.Obeyed() && (r == Done(false) ==> !troubles.Kept())
    {
      hide Counter.Valid, ReceiptsOk, BackupsOk, ClaimsOk, StartsOk, StopsOk, AskedOk, AimsOk, PruningOk, Whole;
      var task := rolling.request.task;
      WasAsked(asked, draws, aims, receipts, stops, starts, task);
      var written :- WriteReceipt(rolling, -1);
      if !written { return Done(false); }
      TouchMore(receipts, claims, touched, documents, stops, counter.readings, durable, task);
      touched := touched + {task};
      return Done(true);
    }

    /**
      * The task did not succeed, and failed only with what it found back and running. It ended, if
      * every document was written; and failed, if everything asked was done besides.
      */
    ghost predicate Ended(task: TaskId, kept: bool, obeyed: bool) reads this {
      && task in receipts && !receipts[task].phase.Succeeded? && (receipts[task].phase.Failed? ==> BackOn(task))
      && (kept ==> Final(receipts[task].phase)) && (kept && obeyed ==> receipts[task].phase.Failed?)
    }

    /** Back to what the task found, or an admission that it could not be told. */
    method Rollback(receipt: Receipt, meta: Meta) returns (r: Step<bool>)
      requires Backed(receipt.request.task, meta) && Working(receipt)
      modifies this`receipts, this`claims, this`durable, this`files, this`touched
      modifies this`starts, this`active, this`process, this`confirmed, troubles
      ensures Valid() && old(touched) <= touched
      ensures r == Done(true) ==> Final(receipts[receipt.request.task].phase)
      ensures starts == old(starts) || starts == old(starts) + [Start(receipt.request.task, files[Bin])]
      ensures troubles.Later() && (r.Done? && troubles.Kept() ==> r.value)
      ensures Ended(receipt.request.task, r.Done? && troubles.Kept(), troubles.Obeyed())
      ensures receipts[receipt.request.task].phase.Failed? ==> troubles.Obeyed()
    {
      hide Valid, Whole, BackOn, Active;
      var task := receipt.request.task;
      var rolling := receipt.(phase := RollingBack);
      var written :- BeginRollback(rolling, meta);
      if !written { return Done(false); }
      var stopped :- Halt();
      if !stopped { r := Undetermined(rolling); return; }
      r := Undo(rolling, meta);
    }

    /** With the service stopped: the retained files back and started, or whatever can be identified started. */
    method Undo(rolling: Receipt, meta: Meta) returns (r: Step<bool>)
      requires rolling.phase.RollingBack? && Swapping(rolling.request.task, meta) && rolling.request.task in touched
               && !active && Working(rolling)
      modifies this`receipts, this`claims, this`durable, this`files
      modifies this`starts, this`active, this`process, this`confirmed, troubles
      ensures Valid()
      ensures r == Done(true) ==> Final(receipts[rolling.request.task].phase)
      ensures starts == old(starts) || starts == old(starts) + [Start(rolling.request.task, files[Bin])]
      ensures troubles.Later() && (r.Done? && troubles.Kept() ==> r.value)
      ensures Ended(rolling.request.task, r.Done? && troubles.Kept(), troubles.Obeyed())
      ensures receipts[rolling.request.task].phase.Failed? ==> troubles.Obeyed()
    {
      hide Valid, Whole, BackOn;
      var task := rolling.request.task;
      var restored :- RestoreBackup(task, meta);
      if !restored {
        var _ :- RestartAfterFailedRestore(task, meta);
        r := Undetermined(rolling);
        return;
      }
      r := StartRestored(rolling, meta);
    }

    method StartRestored(rolling: Receipt, meta: Meta) returns (r: Step<bool>)
      requires rolling.phase.RollingBack? && Swapping(rolling.request.task, meta) && Working(rolling)
      requires rolling.request.task in aims && files == aims[rolling.request.task].found
      modifies this`receipts, this`claims, this`durable, this`starts, this`active, this`process, this`confirmed
      modifies troubles
      ensures Valid()
      ensures r == Done(true) ==> Final(receipts[rolling.request.task].phase)
      ensures starts == old(starts) + [Start(rolling.request.task, files[Bin])]
      ensures troubles.Later() && (r.Done? && troubles.Kept() ==> r.value)
      ensures Ended(rolling.request.task, r.Done? && troubles.Kept(), troubles.Obeyed())
      ensures receipts[rolling.request.task].phase.Failed? ==> troubles.Obeyed()
    {
      hide Valid;
      var task := rolling.request.task;
      Known(task, meta);
      var started :- StartService(task);
      if !started { r := Undetermined(rolling); return; }
      var found :- WaitProcess(meta.oldDigest);
      if !found { r := Undetermined(rolling); return; }
      WasRead(task);
      r := WriteReceipt(rolling.(phase := Failed, binary := ""), -1);
    }

    /**
      * An interrupted task can be told how to end: it has a backup that speaks for the binary
      * installed; or it was only being prepared, and what it expects is installed.
      */
    ghost predicate Tellable(receipt: Receipt) reads this {
      var task := receipt.request.task;
      if task in backups && backups[task].meta.Some? then
        var meta := backups[task].meta.value;
        && meta.previous == receipt.request.expected && receipt.binary == meta.newDigest && Bin in files
        && (files[Bin] == meta.oldDigest || files[Bin] == meta.newDigest)
      else receipt.phase.Prepared? && Version in files && files[Version] == receipt.request.expected
    }

    /** An interrupted task is undone from its backup; without one, nothing is touched. */
    method Recover(receipt: Receipt) returns (r: Step<bool>)
      requires Valid() && receipt.request.task in receipts && receipts[receipt.request.task] == receipt
               && !Final(receipt.phase)
      modifies this`receipts, this`claims, this`durable, this`files, this`touched
      modifies this`starts, this`active, this`process, this`confirmed, troubles
      ensures Valid() && old(touched) <= touched
      ensures var task := receipt.request.task;
              task in receipts && (receipts[task].phase.Failed? ==> BackOn(task) || task !in touched)
      ensures r == Done(true) ==> Final(receipts[receipt.request.task].phase)
      ensures starts == old(starts) || starts == old(starts) + [Start(receipt.request.task, files[Bin])]
      ensures var task := receipt.request.task;
              task !in backups || backups[task].meta.None? ==>
                files == old(files) && starts == old(starts) && touched == old(touched)
      ensures troubles.Later() && (r.Done? && troubles.Kept() ==> r.value)
      ensures r.Done? && troubles.Kept() && troubles.Obeyed() ==>
                (receipts[receipt.request.task].phase.Failed? <==> old(Tellable(receipt)))
    {
      hide Valid;
      var task := receipt.request.task;
      if receipt.phase.Prepared? { Untouched(task); }
      WasRead(task);
      Installed();
      var readable :- Command();
      if !readable || task !in backups || backups[task].meta.None? {
        r := RecoverUnbacked(receipt);
        return;
      }
      r := RecoverBacked(receipt, backups[task].meta.value);
    }

    /** The backup's metadata speaks for what the task found: back to it, if it speaks for what is installed. */
    method RecoverBacked(receipt: Receipt, meta: Meta) returns (r: Step<bool>)
      requires Backed(receipt.request.task, meta) && receipts[receipt.request.task] == receipt
      modifies this`receipts, this`claims, this`durable, this`files, this`touched
      modifies this`starts, this`active, this`process, this`confirmed, troubles
      ensures Valid() && old(touched) <= touched
      ensures var task := receipt.request.task;
              task in receipts && (receipts[task].phase.Failed? ==> BackOn(task))
      ensures r == Done(true) ==> Final(receipts[receipt.request.task].phase)
      ensures starts == old(starts) || starts == old(starts) + [Start(receipt.request.task, files[Bin])]
      ensures troubles.Later() && (r.Done? && troubles.Kept() ==> r.value)
      ensures r.Done? && troubles.Kept() && troubles.Obeyed() ==>
                (receipts[receipt.request.task].phase.Failed? <==> old(Tellable(receipt)))
    {
      hide Valid, BackOn;
      Installed();
      var consistent :- Command();
      if meta.previous != receipt.request.expected || receipt.binary != meta.newDigest || !consistent {
        r := Undetermined(receipt);
        return;
      }
      var digest :- ReadFile(Bin);
      if digest.None? || (digest.value != meta.oldDigest
                          && digest.value != meta.newDigest) { r := Undetermined(receipt); return; }
      r := Rollback(receipt, meta);
    }

    /** Nothing speaks for what the task found: it fails if it was only being prepared and that is still installed. */
    method RecoverUnbacked(receipt: Receipt) returns (r: Step<bool>)
      requires Valid() && Working(receipt) && Open(receipt.request.task)
      requires receipt.phase.Prepared? ==> receipt.request.task !in touched
      modifies this`receipts, this`claims, this`durable, troubles
      ensures Valid() && receipt.request.task in receipts && !receipts[receipt.request.task].phase.Succeeded?
      ensures receipts[receipt.request.task].phase.Failed? ==> receipt.request.task !in touched
      ensures r == Done(true) ==> Final(receipts[receipt.request.task].phase)
      ensures troubles.Later() && (r.Done? && troubles.Kept() ==> r.value)
      ensures r.Done? && troubles.Kept() && troubles.Obeyed() ==>
                (receipts[receipt.request.task].phase.Failed? <==>
                 receipt.phase.Prepared? && Version in files && files[Version] == receipt.request.expected)
    {
      hide Valid;
      WasRead(receipt.request.task);
      Installed();
      if receipt.phase.Prepared? {
        var recorded :- ReadFile(Version);
        if recorded == Some(receipt.request.expected) {
          r := Fail(receipt.request);
          return;
        }
      }
      r := Undetermined(receipt);
    }

    // ----------------------------------------------------------------------- pruning

    /** A finished task's backup with everything in it, and nothing else. */
    predicate Complete(task: TaskId) reads this {
      CompleteIn(receipts, backups, task)
    }

    /** The complete backups of other finished tasks, in the order of their age; odd ones are left alone. */
    method FindPrunable(current: TaskId) returns (tasks: seq<TaskId>)
      requires Valid()
      modifies this`crowded, troubles
      ensures Valid() && crowded == old(crowded) + if |tasks| > 2 then 1 else 0
      ensures forall i :: 0 <= i < |tasks| ==> tasks[i] != current && Complete(tasks[i])
      ensures forall i, j :: 0 <= i < j < |tasks| ==> tasks[i] != tasks[j]
      ensures troubles.Later() && troubles.Clean()
      ensures troubles.skipped == old(troubles.skipped) ==> AllAmong(receipts, backups, current, {}, tasks)
    {
      hide Valid, CanBePruned;
      tasks := [];
      var left := backups.Keys;
      while left != {}
        invariant Valid() && crowded == old(crowded)
        invariant forall i :: 0 <= i < |tasks| ==> tasks[i] !in left && tasks[i] != current && Complete(tasks[i])
        invariant forall i, j :: 0 <= i < j < |tasks| ==> tasks[i] != tasks[j]
        invariant troubles.Later() && troubles.Clean()
        invariant troubles.skipped == old(troubles.skipped) ==> AllAmong(receipts, backups, current, left, tasks)
        decreases |left|
      {
        var task :| task in left;
        var safe: bool := *;
        if task != current && Complete(task) {
          if safe {
            tasks := tasks + [task];
          } else {
            troubles.skipped := troubles.skipped + 1;
          }
        }
        left := left - {task};
      }
      if |tasks| > 2 { Crowd(); }
    }

    /** One more pass found more finished backups than are kept. */
    ghost method Crowd()
      requires Valid()
      modifies this`crowded
      ensures Valid() && crowded == old(crowded) + 1
    {
      hide Counter.Valid, ReceiptsOk, BackupsOk, ClaimsOk, StartsOk, StopsOk, AskedOk, AimsOk, Whole;
      crowded := crowded + 1;
    }

    /** One more file of a backup is gone; from the first on, its metadata no longer speaks true. */
    method Erase(task: TaskId, whole: Backup, k: nat)
      requires Valid() && crowded > 0 && CanBePruned(receipts, task) && task in backups && k < 5
               && (k > 0 ==> removals > 0)
      requires task in aims && whole.meta == Some(aims[task].meta) && task in aims && Honest(whole, aims[task].found)
      modifies this`backups, this`pruning, this`removals, this`always
      ensures Valid() && backups == old(backups)[task := Pruned(whole, k + 1)]
      ensures pruning == old(pruning) + {task} && removals == old(removals) + 1
    {
      hide Counter.Valid, ReceiptsOk, BackupsOk, ClaimsOk, StartsOk, StopsOk, AskedOk, AimsOk, PruningOk, Whole,
           AllHonest, Pruned, Honest, CanBePruned;
      var next := backups[task := Pruned(whole, k + 1)];
      FileRemoved(receipts, backups, next, aims, pruning, task, whole, k, always, removals, crowded);
      backups := next;
      pruning := pruning + {task};
      removals := removals + 1;
      always := always && AllHonest(backups, aims);
    }

    method RemoveDirectory(task: TaskId) returns (r: Step<bool>)
      requires Valid() && removals > 0
      modifies this`backups, this`always, troubles
      ensures Valid() && backups - {task} == old(backups) - {task}
      ensures r == Done(true) ==> backups == old(backups) - {task}
      ensures troubles.Later() && troubles.Kept() && troubles.Told(r) && troubles.skipped == old(troubles.skipped)
    {
      hide ReceiptsOk, BackupsOk, ClaimsOk, StartsOk, StopsOk, AskedOk, AimsOk, Whole, AllHonest;
      var alive: bool, removed: bool := *, *;
      if removed {
        BackupGone(receipts, backups, aims, pruning, task);
        backups := backups - {task};
        always := always && AllHonest(backups, aims);
      }
      if !alive { return Killed; }
      if !removed { troubles.calls := troubles.calls + 1; }
      return Done(removed);
    }

    /** Removes a complete backup file by file, the binary first and the metadata last, then its directory. */
    method PruneOne(task: TaskId) returns (r: Step<bool>)
      requires Valid() && Complete(task) && crowded > 0
      modifies this`backups, this`pruning, this`removals, this`always, troubles
      ensures troubles.Later() && troubles.Kept() && troubles.Told(r) && troubles.skipped == old(troubles.skipped)
      ensures Valid() && old(pruning) <= pruning <= old(pruning) + {task} && backups - {task} == old(backups) - {task}
      ensures backups == old(backups) || task in pruning
      ensures r == Done(true) ==> backups == old(backups) - {task} && pruning == old(pruning) + {task}
    {
      hide Valid, Honest, Pruned;
      var whole := backups[task];
      Speaks(task);
      for k := 0 to 5
        invariant Valid() && task in backups && backups - {task} == old(backups) - {task}
        invariant if k == 0 then backups == old(backups) && pruning == old(pruning)
                  else pruning == old(pruning) + {task} && removals > 0
        invariant troubles.Later() && troubles.Clean() && troubles.skipped == old(troubles.skipped)
      {
        var alive: bool, removed: bool := *, *;
        if removed { Erase(task, whole, k); }
        if !alive { return Killed; }
        if !removed { troubles.calls := troubles.calls + 1; return Done(false); }
      }
      r := RemoveDirectory(task);
    }

    lemma Speaks(task: TaskId)
      requires Valid() && Complete(task)
      ensures task in aims && Honest(backups[task], aims[task].found)
              && backups[task].meta == Some(aims[task].meta)
    {
      hide ReceiptsOk, BackupsOk, ClaimsOk, StartsOk, StopsOk, AskedOk, AimsOk, Whole, Honest;
      CompleteIsHonest(receipts, backups, aims, pruning, task);
    }

    /**
      * Two finished backups are kept beside the one about to be made. Found two or
      * fewer, nothing is removed; else all but the last two go, one after the other.
      */
    method Prune(current: TaskId) returns (r: Step<bool>, ghost found: seq<TaskId>)
      requires Valid()
      modifies this`backups, this`pruning, this`removals, this`always, this`crowded, troubles
      ensures troubles.Later() && troubles.Kept() && troubles.Told(r)
      ensures Valid() && old(pruning) <= pruning
      ensures forall i :: 0 <= i < |found| ==> found[i] != current && old(Complete(found[i]))
      ensures crowded == old(crowded) + if |found| > 2 then 1 else 0
      ensures |found| <= 2 ==> backups == old(backups) && pruning == old(pruning)
      ensures pruning <= old(pruning) + Surplus(found) && backups - Surplus(found) == old(backups) - Surplus(found)
      ensures r == Done(true) ==> backups == old(backups) - Surplus(found) && pruning == old(pruning) + Surplus(found)
      ensures r == Done(true) && troubles.skipped == old(troubles.skipped) ==>
                AllAmong(receipts, backups, current, {}, Latest(found))
    {
      hide Valid, AllAmong;
      found := [];
      var listed :- Command();
      if !listed { return Done(false), found; }
      var tasks := FindPrunable(current);
      found := tasks;
      r := PruneAll(current, tasks);
      if r != Done(true) { return; }
      if troubles.skipped == old(troubles.skipped) {
        LeftAreLatest(receipts, old(backups), current, found);
      }
      r := Command();
    }

    method PruneAll(ghost current: TaskId, tasks: seq<TaskId>) returns (r: Step<bool>)
      requires Valid() && (|tasks| > 2 ==> crowded > 0)
      requires forall i :: 0 <= i < |tasks| ==> tasks[i] != current && Complete(tasks[i])
      requires forall i, j :: 0 <= i < j < |tasks| ==> tasks[i] != tasks[j]
      modifies this`backups, this`pruning, this`removals, this`always, troubles
      ensures troubles.Later() && troubles.Kept() && troubles.Told(r) && troubles.skipped == old(troubles.skipped)
      ensures Valid() && old(pruning) <= pruning
      ensures |tasks| <= 2 ==> backups == old(backups) && pruning == old(pruning)
      ensures pruning <= old(pruning) + Surplus(tasks) && backups - Surplus(tasks) == old(backups) - Surplus(tasks)
      ensures r == Done(true) ==> backups == old(backups) - Surplus(tasks) && pruning == old(pruning) + Surplus(tasks)
    {
      hide Valid, CanBePruned;
      var i := 0;
      while |tasks| - i > 2
        invariant 0 <= i <= (if |tasks| > 2 then |tasks| - 2 else 0) && Valid()
        invariant forall j :: i <= j < |tasks| ==> Complete(tasks[j])
        invariant pruning == old(pruning) + First(tasks, i) && backups == old(backups) - First(tasks, i)
        invariant troubles.Later() && troubles.Clean() && troubles.skipped == old(troubles.skipped)
      {
        OneMore(tasks, i);
        ghost var gone, was := First(tasks, i), backups;
        r := PruneOne(tasks[i]);
        forall j | i < j < |tasks| ensures Complete(tasks[j]) {
          assert tasks[j] in was - {tasks[i]};
        }
        OnlyWithin(backups, old(backups), gone, tasks[i], Surplus(tasks));
        if r != Done(true) { return; }
        i := i + 1;
      }
      assert First(tasks, i) == Surplus(tasks) && (|tasks| <= 2 ==> Surplus(tasks) == {} && backups == old(backups));
      return Done(true);
    }

    // ----------------------------------------------------------------------- forward

    /** All metadata is looked at again, as it is about to be; as long as nothing was pruned it speaks true. */
    ghost method LookAtAll(backups: map<TaskId, Backup>, aims: map<TaskId, Aim>)
      requires PruningOk(always, removals, crowded, pruning) && BackupsOk(receipts, backups, aims, pruning)
      modifies this`always
      ensures always == old(always)
    {
      hide BackupsOk, PruningOk, AllHonest;
      StillHonest(receipts, backups, aims, pruning, always, removals, crowded);
      always := always && AllHonest(backups, aims);
    }

    /** The backup of an unfinished task is being made; all metadata still speaks as true as it did. */
    ghost method Keep(task: TaskId, backup: Backup)
      requires Valid() && task in receipts && !Final(receipts[task].phase) && task in aims
      requires Honest(backup, aims[task].found) && (backup.meta.Some? ==> backup.meta.value == aims[task].meta)
      modifies this`always
      ensures always == old(always) && BackupsOk(receipts, backups[task := backup], aims, pruning)
    {
      hide Counter.Valid, ReceiptsOk, BackupsOk, ClaimsOk, StartsOk, StopsOk, AskedOk, AimsOk, PruningOk, Whole,
           AllHonest, Honest;
      UnfinishedIsNotPruned(receipts, backups, aims, pruning, task);
      BackupGrows(receipts, backups, aims, pruning, task, backup);
      LookAtAll(backups[task := backup], aims);
    }

    /** Copies every managed file, then writes the metadata that says so. */
    method PrepareBackup(task: TaskId, meta: Meta) returns (r: Step<bool>)
      requires Valid() && task in receipts && !Final(receipts[task].phase) && task in aims && aims[task].found == files
      requires aims[task].meta == meta && meta.oldDigest == files[Bin] && meta.previous == files[Version]
      modifies this`backups, this`always, troubles
      ensures Valid() && backups - {task} == old(backups) - {task}
      ensures r == Done(true) ==> Backed(task, meta)
      ensures troubles.Later() && troubles.Kept() && (r == Done(true) ==> troubles.Clean())
      ensures r == Done(false) && task !in old(backups) ==> !troubles.Obeyed()
    {
      hide Valid;
      Installed();
      if task in backups { return Done(false); }
      var made :- MakeDirectory(task);
      if !made { return Done(false); }
      ManagedIsEverything();
      for i := 0 to |MANAGED|
        invariant Valid() && task in backups && backups[task].meta.None? && backups - {task} == old(backups) - {task}
        invariant forall j :: 0 <= j < i ==>
                    MANAGED[j] in backups[task].files && backups[task].files[MANAGED[j]] == files[MANAGED[j]]
        invariant troubles.Later() && troubles.Clean()
      {
        var copied :- CopyFile(task, MANAGED[i], if MANAGED[i] == Version then meta.previous else files[MANAGED[i]]);
        if !copied { return Done(false); }
      }
      forall f: File ensures f in backups[task].files && backups[task].files[f] == files[f] {
        assert f in MANAGED;
      }
      assert backups[task].files == files;
      r := WriteMeta(task, meta);
    }

    method MakeDirectory(task: TaskId) returns (r: Step<bool>)
      requires Valid() && task in receipts && !Final(receipts[task].phase) && task in aims
               && task !in backups
      modifies this`backups, this`always, troubles
      ensures troubles.Later() && troubles.Kept() && troubles.Told(r)
      ensures Valid() && (backups == old(backups) || backups == old(backups)[task := Backup(map[], None)])
      ensures r == Done(true) ==> backups == old(backups)[task := Backup(map[], None)]
    {
      hide Counter.Valid, ReceiptsOk, BackupsOk, ClaimsOk, StartsOk, StopsOk, AskedOk, AimsOk, PruningOk, Whole;
      var alive: bool, made: bool := *, *;
      if made {
        Keep(task, Backup(map[], None));
        backups := backups[task := Backup(map[], None)];
      }
      if !alive { return Killed; }
      if !made { troubles.calls := troubles.calls + 1; }
      return Done(made);
    }

    method CopyFile(task: TaskId, file: File, content: string) returns (r: Step<bool>)
      requires Valid() && task in receipts && !Final(receipts[task].phase) && task in aims
      requires task in backups && backups[task].meta.None?
      modifies this`backups, this`always, troubles
      ensures troubles.Later() && troubles.Kept() && troubles.Told(r)
      ensures Valid()
      ensures backups == old(backups)
              || backups == old(backups)[task := Backup(old(backups)[task].files[file := content], None)]
      ensures r == Done(true) ==>
                backups == old(backups)[task := Backup(old(backups)[task].files[file := content], None)]
    {
      hide Counter.Valid, ReceiptsOk, BackupsOk, ClaimsOk, StartsOk, StopsOk, AskedOk, AimsOk, PruningOk, Whole;
      var alive: bool, lands: bool, reports: bool := *, *, *;
      var next := Backup(backups[task].files[file := content], None);
      if lands {
        Keep(task, next);
        backups := backups[task := next];
      }
      if !alive { return Killed; }
      if !(lands && reports) { troubles.calls := troubles.calls + 1; }
      return Done(lands && reports);
    }

    /** The metadata comes last, when everything it speaks for has been copied. */
    method WriteMeta(task: TaskId, meta: Meta) returns (r: Step<bool>)
      requires Valid() && task in receipts && !Final(receipts[task].phase) && task in backups
               && backups[task].meta.None?
      requires task in aims && aims[task].found == files && backups[task].files == files
      requires aims[task].meta == meta && meta.oldDigest == files[Bin] && meta.previous == files[Version]
      modifies this`backups, this`always, troubles
      ensures troubles.Later() && troubles.Kept() && troubles.Told(r)
      ensures Valid() && backups - {task} == old(backups) - {task}
      ensures r == Done(true) ==> Backed(task, meta)
    {
      hide ReceiptsOk, BackupsOk, ClaimsOk, StartsOk, StopsOk, AskedOk, AimsOk, PruningOk;
      var alive: bool, lands: bool, reports: bool := *, *, *;
      var next := Backup(backups[task].files, Some(meta));
      if lands {
        Keep(task, next);
        backups := backups[task := next];
      }
      if !alive { return Killed; }
      if !(lands && reports) { troubles.calls := troubles.calls + 1; }
      return Done(lands && reports);
    }

    /** Replaces the managed files one by one, the binary first. */
    method InstallCandidate(task: TaskId, candidate: Candidate, version: string) returns (r: Step<bool>)
      requires Valid() && task in touched && !active && Whole(candidate.files)
               && candidate.files[Bin] == candidate.digest
      modifies this`files, troubles
      ensures Valid()
      ensures r == Done(true) ==> files == candidate.files[Version := version]
      ensures troubles.Later() && troubles.Kept() && troubles.Told(r)
    {
      hide ReceiptsOk, BackupsOk, ClaimsOk, StartsOk, StopsOk, AskedOk, AimsOk, PruningOk;
      ManagedIsEverything();
      var target := candidate.files[Version := version];
      for i := 0 to |MANAGED|
        invariant Valid()
        invariant forall j :: 0 <= j < i ==> files[MANAGED[j]] == target[MANAGED[j]]
        invariant troubles.Later() && troubles.Clean()
      {
        var opens :- Command();
        if !opens { return Done(false); }
        var written :- WriteFile(task, MANAGED[i], if MANAGED[i] == Version then version
                                                   else candidate.files[MANAGED[i]]);
        if !written { return Done(false); }
      }
      SameFiles(files, target);
      return Done(true);
    }

    /** Checks a binary as a release's; what passed is kept, and nothing else is. */
    method Vet(what: Vetted) returns (r: Step<bool>)
      requires Valid()
      modifies this`vetted, troubles
      ensures Valid() && old(vetted) <= vetted <= old(vetted) + {what}
      ensures r.Done? ==> vetted == old(vetted) + if r.value then {what} else {}
      ensures troubles.Later() && troubles.Kept() && troubles.Obeyed()
      ensures r == Done(false) ==> old(troubles.rejected) < troubles.rejected
      ensures r == Done(true) ==> troubles.Clean()
    {
      hide Counter.Valid, ReceiptsOk, BackupsOk, ClaimsOk, StartsOk, StopsOk, AskedOk, AimsOk, PruningOk, Whole;
      var alive: bool, passes: bool := *, *;
      if passes {
        VettedMore(aims, vetted, what);
        vetted := vetted + {what};
      } else {
        troubles.rejected := troubles.rejected + 1;
      }
      if !alive { return Killed; }
      return Done(passes);
    }

    /** Downloads the release asked for; it is given only whole, and if its binary passes as that release's. */
    method Fetch(request: Request) returns (r: Step<Option<Candidate>>)
      requires Valid() && Permitted(request)
      modifies this`advances, this`vetted, troubles
      ensures Valid() && old(vetted) <= vetted
      ensures r.Done? && r.value.Some? ==>
                && Whole(r.value.value.files) && r.value.value.files[Bin] == r.value.value.digest
                && ReleaseOf(r.value.value.digest, request.version) in vetted
      ensures troubles.Later() && troubles.Kept()
      ensures r.Done? ==> (r.value.Some? <==> troubles.Unhindered())
    {
      hide Counter.Valid, ReceiptsOk, BackupsOk, ClaimsOk, StartsOk, StopsOk, AskedOk, AimsOk, PruningOk;
      advances := advances + 1;
      var candidate: Candidate, fetched: bool, alive: bool := *, *, *;
      if !alive { return Killed; }
      if !fetched || candidate.files.Keys != {Bin, Version, License, Notice}
         || candidate.files[Bin] != candidate.digest {
        troubles.calls := troubles.calls + 1;
        return Done(None);
      }
      KeysMeanWhole(candidate.files);
      var passes :- Vet(ReleaseOf(candidate.digest, request.version));
      return Done(if passes then Some(candidate) else None);
    }

    /** The release asked for, while it is still in time. */
    method Obtain(request: Request) returns (r: Step<Option<Candidate>>)
      requires Valid() && Permitted(request)
      modifies this`advances, this`vetted, counter, troubles
      ensures Valid() && old(vetted) <= vetted && old(counter.readings) <= counter.readings
      ensures r.Done? && r.value.Some? ==>
                && Whole(r.value.value.files) && r.value.value.files[Bin] == r.value.value.digest
                && ReleaseOf(r.value.value.digest, request.version) in vetted && Permitted(request)
      ensures troubles.Later() && troubles.Kept()
      ensures r.Done? ==> if r.value.Some? then troubles.Unhindered() else Late(request) || !troubles.Unhindered()
    {
      hide Valid, Allows, Whole;
      var candidate :- Fetch(request);
      if candidate.None? { return Done(None); }
      var permitted :- Authorized(request);
      return Done(if permitted then candidate else None);
    }

    /** Some reading of the counter since does not permit the request. */
    twostate predicate Late(request: Request) reads counter {
      exists at :: |old(counter.readings)| <= at < |counter.readings| && !Allows(counter.readings, at, request)
    }

    /** The task was refused with nothing touched. */
    ghost predicate Refused(request: Request) reads this {
      && request.task in receipts && receipts[request.task] == Receipt(request, Failed, "", "")
      && request.task !in touched
    }

    /**
      * Checks, downloads and documents: nothing managed changes here, and nothing is refused unless
      * something stood in the way, it was too late, or another release than expected is installed.
      */
    method Prepare(request: Request) returns (r: Step<Option<Plan>>)
      requires Valid() && Current(request) && request.task !in receipts
      modifies this`receipts, this`claims, this`durable, this`backups, this`aims, this`vetted
      modifies this`advances, this`process, this`confirmed, this`pruning, this`removals, this`always, this`crowded
      modifies counter, troubles
      ensures Valid() && Own(request) && old(counter.readings) <= counter.readings && troubles.Later()
      ensures r.Done? && r.value.Some? ==> r.value.value.request == request && Planned(r.value.value)
      ensures r.Done? && r.value.Some? ==> troubles.Clean()
      ensures r == Done(None) && troubles.Kept() ==>
                Refused(request) && (Late(request) || !troubles.Unhindered() || !Expects(request))
    {
      hide Valid, Allows, Planned, Chosen, Refused;
      Untouched(request.task);
      var chosen :- Choose(request);
      if chosen.None? { var _ :- Fail(request); return Done(None); }
      r := Record(chosen.value);
    }

    /** What is installed passed as the release the request expects, and the candidate as the one it asks for. */
    ghost predicate Chosen(plan: Plan) reads this, counter {
      && Permitted(plan.request) && Bin in files && Version in files
      && plan.meta == Meta(files[Version], files[Bin], plan.candidate.digest)
      && files[Version] == plan.request.expected && InstalledAs(files[Bin], plan.request.expected) in vetted
      && ReleaseOf(plan.candidate.digest, plan.request.version) in vetted
      && Whole(plan.candidate.files) && plan.candidate.files[Bin] == plan.candidate.digest
    }

    /** Everything decided before anything is recorded. */
    method Choose(request: Request) returns (r: Step<Option<Plan>>)
      requires Valid()
      modifies this`backups, this`vetted, this`advances, this`process, this`confirmed
      modifies this`pruning, this`removals, this`always, this`crowded, counter, troubles
      ensures Valid() && old(counter.readings) <= counter.readings && troubles.Later() && troubles.Kept()
      ensures r.Done? && r.value.Some? ==> r.value.value.request == request && Chosen(r.value.value) && troubles.Clean()
      ensures r == Done(None) ==> Late(request) || !troubles.Unhindered() || !Expects(request)
    {
      hide Valid, Allows, Whole;
      Installed();
      var meta :- Admit(request);
      if meta.None? { return Done(None); }
      var candidate :- Obtain(request);
      if candidate.None? { return Done(None); }
      var pruned, _ := Prune(request.task);
      if pruned.Killed? { return Killed; }
      if !pruned.value { return Done(None); }
      return Done(Some(Plan(request, candidate.value, meta.value.(newDigest := candidate.value.digest))));
    }

    /** What is installed is what the request expects. */
    ghost predicate Expects(request: Request) reads this {
      Version in files && files[Version] == request.expected
    }

    /** The request is in time, the release it expects is installed and passes, and it is what runs. */
    method Admit(request: Request) returns (r: Step<Option<Meta>>)
      requires Valid()
      modifies this`process, this`confirmed, this`vetted, counter, troubles
      ensures Valid() && old(vetted) <= vetted && old(counter.readings) <= counter.readings
      ensures r.Done? && r.value.Some? ==>
                && r.value.value.previous == files[Version] == request.expected
                && r.value.value.oldDigest == files[Bin] && process == Some(files[Bin])
                && InstalledAs(files[Bin], request.expected) in vetted && Permitted(request)
      ensures troubles.Later() && troubles.Kept() && (r.Done? && r.value.Some? ==> troubles.Clean())
      ensures r == Done(None) ==> Late(request) || !troubles.Unhindered() || !Expects(request)
    {
      hide Valid, Allows;
      Installed();
      var permitted :- Authorized(request);
      if !permitted { return Done(None); }
      var recorded :- ReadFile(Version);
      if recorded != Some(request.expected) { return Done(None); }
      var installed :- ReadFile(Bin);
      if installed.None? { return Done(None); }
      var acceptable :- Vet(InstalledAs(installed.value, request.expected));
      if !acceptable { return Done(None); }
      var runs :- VerifyProcess(installed.value);
      return Done(if runs then Some(Meta(recorded.value, installed.value, "")) else None);
    }

    /**
      * Everything decided before the service is touched: the last clock reading came after the
      * receipt and permits it.
      */
    ghost predicate Planned(plan: Plan) reads this, counter {
      var task := plan.request.task;
      && Swapping(task, plan.meta) && task !in touched
      && receipts[task] == Receipt(plan.request, Activating, "", plan.candidate.digest)
      && ReleaseOf(plan.candidate.digest, plan.request.version) in vetted
      && Whole(plan.candidate.files) && plan.candidate.files[Bin] == plan.candidate.digest
      && plan.meta.newDigest == plan.candidate.digest
      && task in durable && durable[task] < |counter.readings|
      && Allows(counter.readings, |counter.readings| - 1, plan.request)
    }

    /** What is installed and what is to replace it are fixed before the first receipt. */
    ghost method LookFirst(request: Request, meta: Meta)
      requires Valid() && request.task !in receipts
      requires meta.oldDigest == files[Bin] && meta.previous == files[Version] == request.expected
      requires InstalledAs(meta.oldDigest, request.expected) in vetted
               && ReleaseOf(meta.newDigest, request.version) in vetted
      modifies this`aims, this`always
      ensures Valid() && aims == old(aims)[request.task := Aim(files, meta, request)]
    {
      hide Counter.Valid, ReceiptsOk, BackupsOk, ClaimsOk, StartsOk, StopsOk, AskedOk, AimsOk, PruningOk, AllHonest;
      var next := aims[request.task := Aim(files, meta, request)];
      FirstLook(receipts, backups, aims, pruning, vetted, starts, request.task, Aim(files, meta, request));
      AimMore(asked, draws, aims, receipts, stops, starts, request.task, Aim(files, meta, request));
      LookAtAll(backups, next);
      aims := next;
    }

    method Record(plan: Plan) returns (r: Step<Option<Plan>>)
      requires Valid() && Current(plan.request) && Chosen(plan)
      requires plan.request.task !in receipts && plan.request.task !in touched
      modifies this`receipts, this`claims, this`durable, this`backups, this`aims, this`always
      modifies counter, troubles
      ensures Valid() && Own(plan.request) && old(counter.readings) <= counter.readings && troubles.Later()
      ensures r.Done? && r.value.Some? ==> r.value.value.request == plan.request && Planned(r.value.value)
      ensures r.Done? && r.value.Some? ==> troubles.Clean()
      ensures r == Done(None) && troubles.Kept() ==>
                Refused(plan.request) && (Late(plan.request) || !troubles.Obeyed())
    {
      hide Valid, Allows, Whole, Planned, Refused;
      var task := plan.request.task;
      NoBackup(task);
      LookFirst(plan.request, plan.meta);
      var written :- WriteReceipt(Receipt(plan.request, Prepared, "", plan.candidate.digest), -1);
      if !written { return Done(None); }
      r := RetainAndDecide(plan);
    }

    /** With the prepared receipt on disk: what is installed is retained, and then it is decided. */
    method RetainAndDecide(plan: Plan) returns (r: Step<Option<Plan>>)
      requires var task := plan.request.task;
               && Valid() && Current(plan.request) && Own(plan.request) && Chosen(plan)
               && task in receipts && !Final(receipts[task].phase) && task !in touched && task !in backups
               && task in aims && aims[task] == Aim(files, plan.meta, plan.request)
      modifies this`receipts, this`claims, this`durable, this`backups, this`always
      modifies counter, troubles
      ensures Valid() && Own(plan.request) && old(counter.readings) <= counter.readings && troubles.Later()
      ensures r.Done? && r.value.Some? ==> r.value.value.request == plan.request && Planned(r.value.value)
      ensures r.Done? && r.value.Some? ==> troubles.Clean()
      ensures r == Done(None) && troubles.Kept() ==>
                Refused(plan.request) && (Late(plan.request) || !troubles.Obeyed())
    {
      hide Valid, Allows, Whole, Planned, Refused;
      var kept :- PrepareBackup(plan.request.task, plan.meta);
      if !kept { var _ :- Fail(plan.request); return Done(None); }
      r := Decide(plan.request, plan.candidate, plan.meta);
    }

    lemma NoBackup(task: TaskId)
      requires Valid() && task !in receipts
      ensures task !in backups
    {
      hide ReceiptsOk, ClaimsOk, StartsOk, StopsOk, AskedOk, AimsOk, PruningOk, Whole;
    }

    /** The clock is read once more after the receipt that says files may be touched. */
    method Decide(request: Request, candidate: Candidate, meta: Meta) returns (r: Step<Option<Plan>>)
      requires Backed(request.task, meta) && request.task !in touched && Current(request) && Own(request)
      requires ReleaseOf(candidate.digest, request.version) in vetted
      requires meta.newDigest == candidate.digest && Whole(candidate.files) && candidate.files[Bin] == candidate.digest
      modifies this`receipts, this`claims, this`durable, counter, troubles
      ensures Valid() && Own(request) && old(counter.readings) <= counter.readings && troubles.Later()
      ensures r.Done? && r.value.Some? ==> r.value.value.request == request && Planned(r.value.value)
      ensures troubles.Obeyed() && (r.Done? && r.value.Some? ==> troubles.Clean())
      ensures r == Done(None) && troubles.Kept() ==> Refused(request) && Late(request)
    {
      hide Valid, Allows;
      Known(request.task, meta);
      var written :- WriteReceipt(Receipt(request, Activating, "", candidate.digest), -1);
      if !written { return Done(None); }
      var permitted :- Authorized(request);
      if !permitted { var _ :- Fail(request); return Done(None); }
      return Done(Some(Plan(request, candidate, meta)));
    }

    /** The one stop that begins a task. */
    method StopService(plan: Plan) returns (r: Step<bool>)
      requires Planned(plan)
      modifies this`touched, this`stops, this`active, this`process, this`confirmed, troubles
      ensures Swapping(plan.request.task, plan.meta) && touched == old(touched) + {plan.request.task}
      ensures stops == old(stops) + [Stop(plan.request, |counter.readings| - 1)]
      ensures r == Done(true) ==> !active
      ensures troubles.Later() && troubles.Kept() && troubles.Told(r)
    {
      hide Counter.Valid, ReceiptsOk, BackupsOk, ClaimsOk, StartsOk, StopsOk, AskedOk, AimsOk, PruningOk, Whole, Allows;
      var task := plan.request.task;
      StopJoins(stops, touched, counter.readings, durable, plan.request);
      WasAsked(asked, draws, aims, receipts, stops, starts, task);
      StopIsAsked(asked, draws, aims, receipts, stops, starts, Stop(plan.request, |counter.readings| - 1));
      TouchMore(receipts, claims, touched, documents, [], counter.readings, durable, task);
      touched := touched + {task};
      stops := stops + [Stop(plan.request, |counter.readings| - 1)];
      r := Halt();
    }

    /**
      * What a pass of the swap comes to. Once the target proved itself nothing is undone: it is still
      * installed, started last and found running, and the receipt is the activated one or says that it
      * succeeded. Otherwise the task did not succeed, and failed unless something went wrong.
      */
    ghost predicate Outcome(task: TaskId, before: seq<Ready>, kept: bool, obeyed: bool) reads this {
      if proofs == before then Ended(task, kept, obeyed) else Upheld(task, kept)
    }

    ghost predicate Upheld(task: TaskId, kept: bool) reads this {
      && |proofs| > 0 && task in receipts && receipts[task].binary == proofs[|proofs| - 1].binary
      && (receipts[task].phase.Activated? || receipts[task].phase.Succeeded?)
      && UpOn(receipts[task]) && (kept ==> receipts[task].phase.Succeeded?)
    }

    method Swap(plan: Plan) returns (r: Step<bool>)
      requires Planned(plan)
      modifies this`receipts, this`claims, this`durable, this`files, this`touched, this`documents, this`draws
      modifies this`stops, this`starts, this`active, this`process, this`confirmed, this`proofs, troubles
      ensures Valid() && stops == old(stops) + [Stop(plan.request, |counter.readings| - 1)]
      ensures r == Done(true) ==> plan.request.task in receipts && Final(receipts[plan.request.task].phase)
      ensures troubles.Later() && (r.Done? && troubles.Kept() ==> r.value)
      ensures Outcome(plan.request.task, old(proofs), r.Done? && troubles.Kept(), troubles.Obeyed())
      ensures r.Done? && troubles.Kept() && troubles.Obeyed() && troubles.Timely() ==> proofs != old(proofs)
      ensures proofs != old(proofs) ==> troubles.Obeyed()
      ensures proofs != old(proofs) ==>
                && files == plan.candidate.files[Version := plan.request.version]
                && starts == old(starts) + [Start(plan.request.task, plan.candidate.digest)]
    {
      hide Valid, Allows, BackOn, UpOn;
      var task, meta := plan.request.task, plan.meta;
      var receipt := Receipt(plan.request, Activating, "", plan.candidate.digest);
      var stopped :- StopService(plan);
      if !stopped { r := Rollback(receipt, meta); return; }
      var nonce :- RandomNonce(task);
      if nonce.None? { r := Rollback(receipt, meta); return; }
      r := Activate(plan, receipt.(nonce := nonce.value));
    }

    /** With the service stopped: the candidate takes the place of what was found, and is started. */
    method Activate(plan: Plan, active: Receipt) returns (r: Step<bool>)
      requires Swapping(plan.request.task, plan.meta) && plan.request.task in touched && !this.active
      requires Whole(plan.candidate.files) && plan.candidate.files[Bin] == plan.candidate.digest == plan.meta.newDigest
      requires active.request == plan.request && active.phase.Activating? && active.binary == plan.candidate.digest
      requires Working(active) && Draw(plan.request.task, active.nonce) in draws
      modifies this`receipts, this`claims, this`durable, this`files, this`touched, this`documents
      modifies this`starts, this`active, this`process, this`confirmed, this`proofs, troubles
      ensures Valid()
      ensures r == Done(true) ==> plan.request.task in receipts && Final(receipts[plan.request.task].phase)
      ensures troubles.Later() && (r.Done? && troubles.Kept() ==> r.value)
      ensures Outcome(plan.request.task, old(proofs), r.Done? && troubles.Kept(), troubles.Obeyed())
      ensures r.Done? && troubles.Kept() && troubles.Obeyed() && troubles.Timely() ==> proofs != old(proofs)
      ensures proofs != old(proofs) ==> troubles.Obeyed()
      ensures proofs != old(proofs) ==>
                && files == plan.candidate.files[Version := plan.request.version]
                && starts == old(starts) + [Start(plan.request.task, plan.candidate.digest)]
    {
      hide Valid, BackOn, UpOn;
      var installed :- InstallCandidate(plan.request.task, plan.candidate, plan.request.version);
      if !installed { r := Rollback(active, plan.meta); return; }
      r := Launch(active.(phase := Activated), plan.meta);
    }

    /** Draws a nonce for the task at hand; the history holds every one drawn. */
    method RandomNonce(task: TaskId) returns (r: Step<Option<string>>)
      requires Valid() && task in receipts && Active(receipts[task].phase)
      modifies this`draws, troubles
      ensures Valid() && old(draws) <= draws
      ensures r.Done? ==> draws == old(draws) + if r.value.Some? then {Draw(task, r.value.value)} else {}
      ensures troubles.Later() && troubles.Kept() && (r == Done(None) ==> !troubles.Obeyed())
      ensures r.Done? && r.value.Some? ==> troubles.Clean()
    {
      hide Counter.Valid, ReceiptsOk, BackupsOk, ClaimsOk, StartsOk, StopsOk, AskedOk, AimsOk, PruningOk, Whole;
      var alive: bool, nonce: Option<string> := *, *;
      if nonce.Some? {
        DrawMore(asked, draws, aims, receipts, stops, starts, Draw(task, nonce.value));
        draws := draws + {Draw(task, nonce.value)};
      } else {
        troubles.calls := troubles.calls + 1;
      }
      if !alive { return Killed; }
      return Done(nonce);
    }

    method ReadReady() returns (r: Step<Option<Ready>>)
      requires Valid()
      modifies this`documents
      ensures Valid() && old(documents) <= documents
      ensures r.Done? ==> documents == old(documents) + if r.value.Some? then [r.value.value] else []
    {
      hide Counter.Valid, ReceiptsOk, BackupsOk, ClaimsOk, StartsOk, StopsOk, AskedOk, AimsOk, PruningOk, Whole;
      var alive: bool, found: Option<Ready> := *, *;
      if !alive { return Killed; }
      if !found.Some? { return Done(None); }
      ReadMore(receipts, claims, touched, documents, found.value);
      documents := documents + [found.value];
      return Done(found);
    }

    /** One look for a readiness document about this activation whose process runs the binary it names. */
    method Look(receipt: Receipt) returns (r: Step<bool>, ghost poll: Poll)
      requires Valid()
      modifies this`documents, this`process, this`confirmed, this`proofs, troubles
      ensures Valid() && old(documents) <= documents && troubles.Later() && troubles.Kept() && troubles.Obeyed()
      ensures r == Done(true) ==>
                && |documents| > 0 && Answers(documents[|documents| - 1], receipt) && confirmed == Some(receipt.binary)
                && proofs == old(proofs) + [documents[|documents| - 1]]
      ensures r != Done(true) ==> proofs == old(proofs)
      ensures r == Done(false) ==> PollOk(poll, receipt) && poll.runs != Some(true)
      ensures r.Done? ==> documents == old(documents) + if poll.found.Some? then [poll.found.value] else []
    {
      hide Valid;
      poll := Poll(None, None);
      var found :- ReadReady();
      poll := Poll(found, None);
      if found.Some? && |receipt.nonce| == 32 && found.value.nonce == receipt.nonce
         && found.value.task == receipt.request.task
         && found.value.digest == receipt.request.digest && found.value.version == receipt.request.version
         && found.value.binary == receipt.binary && found.value.wellFormed {
        var runs :- VerifyProcess(found.value.binary);
        poll := Poll(found, Some(runs));
        if runs {
          Prove(found.value);
          return Done(true), poll;
        }
      }
      return Done(false), poll;
    }

    /** The target proved itself by this document. */
    ghost method Prove(ready: Ready)
      requires Valid()
      modifies this`proofs
      ensures Valid() && proofs == old(proofs) + [ready]
    {
      hide Counter.Valid, ReceiptsOk, BackupsOk, ClaimsOk, StartsOk, StopsOk, AskedOk, AimsOk, PruningOk, Whole;
      proofs := proofs + [ready];
    }

    /** Waits for that; gives up after one look or more, none of which found both. */
    method WaitReady(receipt: Receipt) returns (r: Step<bool>, ghost polls: seq<Poll>)
      requires Valid()
      modifies this`documents, this`process, this`confirmed, this`proofs, troubles
      ensures Valid() && old(documents) <= documents && troubles.Later() && troubles.Kept() && troubles.Obeyed()
      ensures r == Done(true) ==>
                && |documents| > 0 && Answers(documents[|documents| - 1], receipt) && confirmed == Some(receipt.binary)
                && proofs == old(proofs) + [documents[|documents| - 1]]
      ensures r != Done(true) ==> proofs == old(proofs)
      ensures r == Done(false) ==>
                |polls| > 0 && InVain(polls, receipt) && documents == old(documents) + Read(polls) && !troubles.Timely()
    {
      hide Valid, Answers, InVain, Read;
      var left: nat := *;
      polls := [];
      NoPolls(receipt);
      while true
        invariant Valid() && old(documents) <= documents && proofs == old(proofs)
        invariant troubles.Later() && troubles.Kept() && troubles.Obeyed()
        invariant InVain(polls, receipt) && documents == old(documents) + Read(polls)
        decreases left
      {
        ghost var poll;
        var proven;
        proven, poll :- Look(receipt);
        if proven { return Done(true), polls; }
        OneMorePoll(polls, poll, receipt);
        polls := polls + [poll];
        if left == 0 {
          troubles.unproven := troubles.unproven + 1;
          return Done(false), polls;
        }
        left := left - 1;
      }
    }

    /** The new binary was started for this activation, answered for it and was found running. */
    ghost predicate UpOn(active: Receipt) reads this {
      && Bin in files && files[Bin] == active.binary
      && |starts| > 0 && starts[|starts| - 1] == Start(active.request.task, active.binary)
      && confirmed == Some(active.binary)
      && |documents| > 0 && Answers(documents[|documents| - 1], active)
    }

    /** Starts what was installed. Proven, it stays and the task succeeds; otherwise what was found comes back. */
    method Launch(active: Receipt, meta: Meta) returns (r: Step<bool>)
      requires Swapping(active.request.task, meta) && active.phase.Activated? && Working(active)
      requires Draw(active.request.task, active.nonce) in draws
      requires files[Bin] == meta.newDigest && active.binary == meta.newDigest
               && files[Version] == active.request.version
      modifies this`receipts, this`claims, this`durable, this`files, this`touched, this`documents
      modifies this`starts, this`active, this`process, this`confirmed, this`proofs, troubles
      ensures Valid() && active.request.task in receipts
      ensures r == Done(true) ==> Final(receipts[active.request.task].phase)
      ensures troubles.Later() && (r.Done? && troubles.Kept() ==> r.value)
      ensures Outcome(active.request.task, old(proofs), r.Done? && troubles.Kept(), troubles.Obeyed())
      ensures r.Done? && troubles.Kept() && troubles.Obeyed() && troubles.Timely() ==> proofs != old(proofs)
      ensures proofs != old(proofs) ==> troubles.Obeyed()
      ensures proofs != old(proofs) ==>
                files == old(files) && starts == old(starts) + [Start(active.request.task, active.binary)]
    {
      hide Valid, UpOn, BackOn, Upheld;
      WasRead(active.request.task);
      var written :- WriteReceipt(active, -1);
      if !written { r := Rollback(active, meta); return; }
      r := Conclude(active, meta);
    }

    /** With the activated receipt on disk: the target is started, and kept exactly if it proves itself. */
    method Conclude(active: Receipt, meta: Meta) returns (r: Step<bool>)
      requires Swapping(active.request.task, meta) && active.phase.Activated? && receipts[active.request.task] == active
      requires Draw(active.request.task, active.nonce) in draws
      requires files[Bin] == meta.newDigest && active.binary == meta.newDigest
               && files[Version] == active.request.version
      modifies this`receipts, this`claims, this`durable, this`files, this`touched, this`documents
      modifies this`starts, this`active, this`process, this`confirmed, this`proofs, troubles
      ensures Valid() && active.request.task in receipts
      ensures r == Done(true) ==> Final(receipts[active.request.task].phase)
      ensures troubles.Later() && (r.Done? && troubles.Kept() ==> r.value)
      ensures Outcome(active.request.task, old(proofs), r.Done? && troubles.Kept(), troubles.Obeyed())
      ensures r.Done? && troubles.Kept() && troubles.Obeyed() && troubles.Timely() ==> proofs != old(proofs)
      ensures proofs != old(proofs) ==> troubles.Obeyed()
      ensures proofs != old(proofs) ==>
                files == old(files) && starts == old(starts) + [Start(active.request.task, active.binary)]
    {
      hide Valid, UpOn, BackOn;
      var answers :- StartAndWait(active, meta);
      if !answers { r := Rollback(active, meta); return; }
      r := Succeed(active, meta);
    }

    method StartAndWait(active: Receipt, meta: Meta) returns (r: Step<bool>)
      requires Swapping(active.request.task, meta) && receipts[active.request.task] == active
      requires files[Bin] == meta.newDigest == active.binary
      modifies this`documents, this`starts, this`active, this`process, this`confirmed, this`proofs, troubles
      ensures Swapping(active.request.task, meta) && troubles.Later() && troubles.Kept()
      ensures starts == old(starts) + [Start(active.request.task, active.binary)]
      ensures r == Done(true) ==>
                && UpOn(active) && |documents| > 0 && documents[|documents| - 1].binary == active.binary
                && proofs == old(proofs) + [documents[|documents| - 1]]
      ensures r != Done(true) ==> proofs == old(proofs)
      ensures r == Done(true) ==> troubles.Obeyed()
      ensures r == Done(false) ==> !troubles.Obeyed() || !troubles.Timely()
    {
      hide Valid;
      Known(active.request.task, meta);
      ghost var polls := [];
      var started :- StartService(active.request.task);
      if !started { return Done(false); }
      r, polls := WaitReady(active);
    }

    /** Success is recorded only of a binary that is up, and nothing of one that is undone. */
    method Succeed(active: Receipt, ghost meta: Meta) returns (r: Step<bool>)
      requires Swapping(active.request.task, meta) && UpOn(active) && files[Version] == active.request.version
      requires receipts[active.request.task] == active && active.phase.Activated?
      requires Draw(active.request.task, active.nonce) in draws
      requires |proofs| > 0 && proofs[|proofs| - 1].binary == active.binary
      modifies this`receipts, this`claims, this`durable, troubles
      ensures Valid() && troubles.Later() && troubles.Obeyed() && (r.Done? && troubles.Kept() ==> r.value)
      ensures Upheld(active.request.task, r.Done? && troubles.Kept())
      ensures r == Done(true) ==> receipts[active.request.task].phase.Succeeded?
    {
      hide Valid;
      Installed();
      WasRead(active.request.task);
      var done := active.(phase := Succeeded);
      r := WriteReceipt(done, |documents| - 1);
      assert receipts == old(receipts) || receipts[done.request.task] == done;
    }

    // ----------------------------------------------------------------------- requests

    /** The request names the task its receipt is about, as it was. */
    predicate Conforms(request: Request) reads this {
      request.task in receipts ==>
        var prior := receipts[request.task].request;
        SameTask(prior, request) && prior.version == request.version && prior.expected == request.expected
    }

    /**
      * What a pass over a new task comes to, once it is over: if nothing stood in its way it succeeds,
      * unless its target did not prove itself in time, it was too late, or it expects another release.
      */
    ghost predicate Settled(request: Request, before: seq<Ready>,
                            kept: bool, unhindered: bool, timely: bool, late: bool)
      reads this
    {
      && (proofs != before ==> Upheld(request.task, kept))
      && (kept ==>
            && request.task in receipts && Final(receipts[request.task].phase)
            && (receipts[request.task].phase.Succeeded? <==> proofs != before)
            && (unhindered && proofs == before ==>
                  || (receipts[request.task].phase.Failed? && BackOn(request.task) && !timely)
                  || (Refused(request) && (late || !Expects(request)))))
    }

    /** A task without a receipt is prepared and swapped, or refused. */
    method Begin(request: Request) returns (r: Step<bool>)
      requires Valid() && request.task !in receipts && Current(request)
      modifies this, counter, troubles
      ensures Valid() && asked == old(asked) && Own(request) && troubles.Later()
      ensures stops == old(stops) || (|stops| == |old(stops)| + 1 && old(stops) <= stops
                                      && stops[|old(stops)|].request == request)
      ensures r == Done(true) ==> request.task in receipts && Final(receipts[request.task].phase)
      ensures Settled(request, old(proofs), r.Done? && troubles.Kept(), troubles.Unhindered(), troubles.Timely(),
                      Late(request))
    {
      hide Valid, Planned, BackOn, UpOn;
      var plan :- Prepare(request);
      if plan.None? { return Done(false); }
      r := Swap(plan.value);
      StoppedForIt(|stops| - 1);
    }

    /**
      * One look at the request just read. What is prepared, recorded and stopped for is that
      * request. A task that has a receipt is only answered or rolled back: nothing is
      * downloaded for it again and the service is not stopped to begin it again. If every
      * document was read and written the task ends, and a new one ends succeeded exactly if its
      * target proved itself.
      */
    method Process(request: Request) returns (r: Step<bool>)
      requires Valid() && ReadLast(request)
      modifies this, counter, troubles
      ensures Valid() && asked == old(asked) && troubles.Later()
      ensures stops == old(stops) || (|stops| == |old(stops)| + 1 && old(stops) <= stops
                                      && stops[|old(stops)|].request == request)
      ensures request.task !in old(receipts) && request.task in receipts ==> receipts[request.task].request == request
      ensures request.task in old(receipts) ==>
                advances == old(advances) && stops == old(stops) && proofs == old(proofs)
      ensures r == Done(true) ==> request.task in receipts && Final(receipts[request.task].phase)
      ensures r.Done? && request.parses && old(Conforms(request)) && troubles.Kept() ==>
                request.task in receipts && Final(receipts[request.task].phase)
      ensures request.parses && request.task !in old(receipts) ==>
                Settled(request, old(proofs), r.Done? && troubles.Kept(), troubles.Unhindered(), troubles.Timely(),
                        Late(request))
    {
      hide Valid, BackOn, UpOn;
      if !request.parses { return Done(false); }
      var prior :- ReadReceipt(request.task);
      match prior
      case Unreadable => return Done(false);
      case Absent => r := Begin(request);
      case Found(receipt) =>
        if !SameTask(receipt.request, request) || receipt.request.version != request.version
           || receipt.request.expected != request.expected {
          return Done(false);
        }
        if Final(receipt.phase) { return Done(true); }
        ReceiptIsOwn(request.task);
        r := Recover(receipt);
    }

    lemma ReceiptIsOwn(task: TaskId)
      requires Valid() && task in receipts
      ensures receipts[task].request.task == task
    {
      hide BackupsOk, ClaimsOk, StartsOk, StopsOk, AskedOk, AimsOk, PruningOk, Whole;
    }

    lemma StoppedForIt(k: nat)
      requires Valid() && k < |stops|
      ensures Aimed(aims, receipts, stops[k].request.task) && stops[k].request == aims[stops[k].request.task].goal
    {
      hide ReceiptsOk, BackupsOk, ClaimsOk, StartsOk, StopsOk, AimsOk, PruningOk, ReceiptAsked;
    }

    /** Reads whatever request the agent left, if it can be read; the history holds every one read. */
    method ReadRequest() returns (r: Step<Option<Request>>)
      requires Valid()
      modifies this`asked, troubles
      ensures Valid() && troubles.Later() && troubles.Unhindered() && (r.Done? ==> (r.value.Some? <==> troubles.Kept()))
      ensures r.Done? && r.value.Some? ==> asked == old(asked) + [r.value.value]
      ensures !(r.Done? && r.value.Some?) ==> asked == old(asked)
    {
      hide Counter.Valid, ReceiptsOk, BackupsOk, ClaimsOk, StartsOk, StopsOk, AskedOk, AimsOk, PruningOk, Whole;
      var found: Option<Request>, alive: bool := *, *;
      if !alive { return Killed; }
      if !found.Some? {
        troubles.disk := troubles.disk + 1;
        return Done(None);
      }
      AskMore(asked, draws, aims, receipts, stops, starts, found.value);
      asked := asked + [found.value];
      return Done(found);
    }

    /**
      * One start of the helper. If every document is read and written there is a request, and what it
      * asks for ends: a new task as `Settled` says, one that has a receipt for good.
      */
    method Run() returns (r: Step<bool>)
      requires Valid()
      modifies this, counter, troubles
      ensures Valid() && old(asked) <= asked && troubles.Later()
      ensures r.Done? && troubles.Kept() ==> |asked| == |old(asked)| + 1
      ensures |asked| == |old(asked)| + 1 ==>
                var request := asked[|asked| - 1];
                && (request.parses && request.task !in old(receipts) ==>
                      Settled(request, old(proofs), r.Done? && troubles.Kept(), troubles.Unhindered(),
                              troubles.Timely(), Late(request)))
                && (r.Done? && request.parses && old(Conforms(request)) && troubles.Kept() ==>
                      request.task in receipts && Final(receipts[request.task].phase))
    {
      hide Valid, BackOn, Upheld, Refused, Expects, Final;
      var request :- ReadRequest();
      if request.None? { return Done(false); }
      r := Process(request.value);
    }

    /**
      * Any number of starts of the helper, each on whatever request it finds and any of which may
      * be killed. At every point final receipts are true, the service was only started on a binary
      * its task found or that passed as the release it asks for, was stopped to begin a task once
      * and in time, all of it for requests that were read, and all metadata spoke true at every
      * point exactly if nothing was ever pruned.
      */
    method Serve(times: nat)
      requires Valid()
      modifies this, counter, troubles
      ensures ClaimsOk(receipts, claims, touched, documents)
      ensures AskedOk(asked, draws, aims, receipts, stops, starts) && old(asked) <= asked
      ensures AimsOk(aims, vetted) && StartsOk(starts, receipts, aims)
      ensures StopsOk(stops, touched, counter.readings, durable) && Steady(counter.readings)
      ensures BackupsOk(receipts, backups, aims, pruning)
      ensures (always <==> removals == 0) && (crowded == 0 ==> removals == 0)
      ensures AllHonest(backups, aims) <==> forall task :: task in pruning && task in backups ==>
                                                               backups[task].meta.None?
    {
      for i := 0 to times
        invariant Valid() && old(asked) <= asked
      {
        var outcome := Run();
      }
      HonestNowExactly(receipts, backups, aims, pruning);
    }
  }
}
