/** The helper that performs the swap, one request at a time, killed and restarted at will. */
module DockerHelper {
  import opened Wrappers
  import opened Crashes
  import opened Requests
  import opened BootCounter
  import opened DockerSwap
  import opened DockerHistory

  class Helper {
    const engine: Engine
    const counter: Counter
    var receipts: map<TaskId, Receipt>
    var transactions: map<TaskId, Transaction>
    var slot: Option<Request>
    var turn: TaskId                         // the task the slot held last
    // what has happened so far
    ghost var mutated: set<TaskId>           // tasks for which a call that changes containers was made
    ghost var pulls: nat
    ghost var durable: map<TaskId, nat>      // how many clock readings came before the task's activating receipt
    ghost var stops: seq<Stop>               // forward stops
    ghost var created: map<TaskId, Id>       // replacements, whether or not the engine said so
    ghost var draws: set<Draw>               // nonces drawn
    ghost var vetted: set<Vetted>            // checks that passed
    ghost var asked: seq<Request>            // requests read from the slot
    ghost var launches: seq<Launch>          // starts of replacements
    ghost var documents: seq<Ready>          // readiness documents read
    ghost var reported: set<TaskId>            // replacements whose start was reported done
    ghost var proofs: seq<Ready>             // those a running replacement proved itself by
    ghost var starts: seq<Issue>             // starts issued by rollbacks
    ghost var takings: seq<Taking>           // removals asked of the target name
    ghost var claims: map<TaskId, Claim>     // what was so when each receipt landed

    ghost predicate Valid() reads this, engine, counter {
      && engine.Valid() && counter.Valid() && OneRuns(engine.boxes)
      && DocumentsOk(receipts, transactions) && TouchedOk(receipts, mutated, created)
      && ClaimsOk(receipts, claims, mutated, documents)
      && AskedOk(asked, receipts, stops) && StopsOk(stops, mutated, counter.readings, durable, vetted)
      && LaunchesOk(launches, created, draws, vetted) && TakingsOk(takings, created) && IssuesOk(starts)
      && TurnOk(engine.boxes, receipts, transactions, created, turn)
    }

    /** In the middle of this task's swap or its rollback. */
    ghost predicate Swapping(task: TaskId) reads this, engine, counter {
      && Valid() && turn == task && task in receipts && Active(receipts[task].phase)
    }

    /** The same, with this receipt about the request the task's receipt on disk is about. */
    ghost predicate Working(receipt: Receipt) reads this, engine, counter {
      && Swapping(receipt.request.task) && receipts[receipt.request.task].request == receipt.request
    }

    /** The same, with the receipt on disk saying that it is being rolled back. */
    ghost predicate Undoing(task: TaskId) reads this, engine, counter {
      Swapping(task) && receipts[task].phase.RollingBack?
    }

    /** What is so now, of the containers, the disk and the readiness document read at this place. */
    ghost function ClaimNow(task: TaskId, at: int): Claim reads this, engine {
      Claim(task !in mutated,
            if TARGET in engine.boxes then Some(engine.boxes[TARGET]) else None,
            if task in transactions then Some(transactions[task]) else None,
            if 0 <= at < |documents| then Some(documents[at]) else None)
    }

    constructor (boxes: map<Name, Box>, counter: Counter)
      requires forall n, m :: n in boxes && m in boxes && boxes[n].id == boxes[m].id ==> n == m
      requires OneRuns(boxes) && counter.Valid()
      ensures Valid() && fresh(engine) && engine.boxes == boxes && receipts == map[] && this.counter == counter
    {
      engine := new Engine(boxes);
      this.counter := counter;
      receipts, transactions, slot, turn := map[], map[], None, "";
      mutated, pulls, durable, stops, created := {}, 0, map[], [], map[];
      draws, vetted, asked, launches, documents, proofs := {}, {}, [], [], [], [];
      starts, takings, claims := [], [], map[];
    }

    // ------------------------------------------------------------------ documents

    method ReadReceipt(task: TaskId) returns (r: Step<Found>)
      modifies engine.troubles
      ensures engine.troubles.Later() && engine.troubles.Obeyed()
      ensures r.Done? && r.value.Absent? ==> task !in receipts
      ensures r.Done? && r.value.Found? ==> task in receipts && r.value.receipt == receipts[task]
      ensures r.Done? && r.value.Unreadable? ==> !engine.troubles.Kept()
    {
      var answers: bool, alive: bool := *, *;
      if !alive { return Killed; }
      if !answers { engine.troubles.disk := engine.troubles.disk + 1; return Done(Unreadable); }
      return Done(if task in receipts then Found(receipts[task]) else Absent);
    }

    /** There is no receipt of the task yet, or one of the same identity that is not final. */
    predicate Replaceable(receipt: Receipt) reads this {
      var task := receipt.request.task;
      task in receipts ==> SameTask(receipts[task].request, receipt.request) && !Final(receipts[task].phase)
    }

    ghost predicate MayLand(receipt: Receipt, at: int) reads this, engine {
      var task := receipt.request.task;
      && DocumentOk(task, receipt, transactions) && turn == task && Heard(asked, receipt.request)
      && (task in mutated ==> task in receipts && receipts[task].request == receipt.request)
      && (receipt.phase.Prepared? || receipt.phase.Activating? ==> task !in mutated)
      && (Active(receipt.phase) ==>
            OnlyBeside(engine.boxes, BackupName(task)) && task in transactions
            && Occupied(engine.boxes, transactions[task].oldId, created, task)
            && Retained(engine.boxes, transactions[task], created, task))
      && Truthful(receipt, ClaimNow(task, at))
    }

    /** A receipt takes the place of the one there was. */
    method Land(receipt: Receipt, ghost at: int)
      requires Valid() && MayLand(receipt, at) && Replaceable(receipt)
      modifies this`receipts, this`claims, this`durable
      ensures Valid() && receipts == old(receipts)[receipt.request.task := receipt]
      ensures durable == if receipt.phase.Activating? then old(durable)[receipt.request.task := |counter.readings|]
                         else old(durable)
    {
      hide Counter.Valid, Engine.Valid, DocumentsOk, DocumentOk, TouchedOk, ClaimsOk, StopsOk, AskedOk, IssuesOk,
           LaunchesOk, TakingsOk, OneRuns, OnlyBeside, Occupied, Retained, Truthful, BackupName;
      var task := receipt.request.task;
      ReceiptLands(receipts, transactions, mutated, created, claims, documents, task, receipt, ClaimNow(task, at));
      ReceiptIsAsked(asked, receipts, stops, mutated, counter.readings, durable, vetted, task, receipt);
      claims := claims[task := ClaimNow(task, at)];
      receipts := receipts[task := receipt];
      if receipt.phase.Activating? {
        DurableFrom(stops, mutated, counter.readings, durable, vetted, task, |counter.readings|);
        durable := durable[task := |counter.readings|];
      }
    }

    /** A receipt is replaced whole; a final one, or another task's, never. */
    method WriteReceipt(receipt: Receipt, ghost at: int) returns (r: Step<bool>)
      requires Valid() && MayLand(receipt, at)
      modifies this`receipts, this`claims, this`durable, engine.troubles
      ensures Valid() && engine.troubles.Later() && engine.troubles.Unhindered() && engine.troubles.Blind()
      ensures r == Done(true) ==> old(Replaceable(receipt)) && engine.troubles.Kept()
      ensures r == Done(false) && old(Replaceable(receipt)) ==> !engine.troubles.Kept()
      ensures receipts == old(receipts) || receipts == old(receipts)[receipt.request.task := receipt]
      ensures r == Done(true) ==> receipts == old(receipts)[receipt.request.task := receipt]
      ensures r == Done(true) && receipt.phase.Activating? ==>
                receipt.request.task in durable && durable[receipt.request.task] == |counter.readings|
      ensures !receipt.phase.Activating? ==> durable == old(durable)
      ensures forall task :: task in old(receipts) && Final(old(receipts)[task].phase) ==>
                task in receipts && receipts[task] == old(receipts)[task]
    {
      hide Valid, MayLand;
      var readable: bool, lands: bool, reports: bool, alive: bool := *, *, *, *;
      var task := receipt.request.task;
      if !readable { engine.troubles.disk := engine.troubles.disk + 1; return Done(false); }
      if task in receipts && (!SameTask(receipts[task].request, receipt.request) || Final(receipts[task].phase)) {
        return Done(false);
      }
      if lands { Land(receipt, at); }
      if !alive { return Killed; }
      if !(lands && reports) { engine.troubles.disk := engine.troubles.disk + 1; }
      return Done(lands && reports);
    }

    method WriteTransaction(task: TaskId, transaction: Transaction) returns (r: Step<bool>)
      requires Valid() && transaction.backup == BackupName(task)
      requires task in receipts && task in transactions ==>
                 transactions[task].oldId == transaction.oldId && Recorded(transaction, created, task)
      modifies this`transactions, engine.troubles
      ensures Valid() && (transactions == old(transactions) || transactions == old(transactions)[task := transaction])
      ensures r == Done(true) ==> transactions == old(transactions)[task := transaction]
      ensures engine.troubles.Later() && engine.troubles.Unhindered()
      ensures r.Done? ==> (r.value <==> engine.troubles.Kept())
    {
      hide DocumentsOk, TouchedOk, ClaimsOk, StopsOk, AskedOk, IssuesOk, LaunchesOk, TakingsOk, OneRuns, OnlyBeside,
           Occupied, BackupName, Recorded;
      var lands: bool, reports: bool, alive: bool := *, *, *;
      if lands {
        TransactionLands(receipts, transactions, task, transaction);
        transactions := transactions[task := transaction];
      }
      if !alive { return Killed; }
      if !(lands && reports) { engine.troubles.disk := engine.troubles.disk + 1; }
      return Done(lands && reports);
    }

    method ReadTransaction(task: TaskId) returns (r: Step<Option<Transaction>>)
      modifies engine.troubles
      ensures engine.troubles.Later() && engine.troubles.Obeyed()
      ensures r.Done? && r.value.Some? ==> task in transactions && r.value.value == transactions[task]
      ensures r == Done(None) && task in transactions ==> !engine.troubles.Kept()
    {
      var answers: bool, alive: bool := *, *;
      if !alive { return Killed; }
      if !answers { engine.troubles.disk := engine.troubles.disk + 1; }
      return Done(if answers && task in transactions then Some(transactions[task]) else None);
    }

    /** The last reading of the counter permits the request. */
    ghost predicate Permitted(request: Request) reads this, counter {
      |counter.readings| > 0 && Allows(counter.readings, |counter.readings| - 1, request)
    }

    /** A fresh reading of the boot counter decides. */
    method Authorized(request: Request) returns (r: Step<bool>)
      requires Valid()
      modifies counter
      ensures Valid() && old(counter.readings) <= counter.readings
      ensures r.Done? ==> |counter.readings| == |old(counter.readings)| + 1
      ensures r.Done? ==> (r.value <==> Allows(counter.readings, |counter.readings| - 1, request))
    {
      hide DocumentsOk, TouchedOk, ClaimsOk, StopsOk, AskedOk, IssuesOk, LaunchesOk, TakingsOk, OneRuns, TurnOk, Allows;
      ghost var before := counter.readings;
      r := counter.Authorized(request);
      LaterReadings(stops, mutated, before, counter.readings, durable, vetted);
    }

    // ---------------------------------------------------------------- final receipts

    /** What the task found runs under the target name again. */
    ghost predicate Back(task: TaskId) reads this, engine {
      && task in transactions && TARGET in engine.boxes
      && engine.boxes[TARGET].armed && engine.boxes[TARGET].id == transactions[task].oldId
    }

    /** Refuses a task none of whose steps touched a container. */
    method Fail(request: Request) returns (r: Step<bool>)
      requires Valid() && turn == request.task && request.task !in mutated && Heard(asked, request)
      requires Replaceable(Receipt(request, Failed, "", ""))
      modifies this`receipts, this`claims, this`durable, engine.troubles
      ensures Valid() && engine.troubles.Later() && engine.troubles.Unhindered()
      ensures receipts == old(receipts) || receipts == old(receipts)[request.task := Receipt(request, Failed, "", "")]
      ensures r.Done? && engine.troubles.Kept() ==>
                r.value && receipts == old(receipts)[request.task := Receipt(request, Failed, "", "")]
    {
      hide DocumentsOk, TouchedOk, ClaimsOk, StopsOk, AskedOk, IssuesOk, LaunchesOk, TakingsOk, OneRuns, TurnOk,
           BackupName;
      r := WriteReceipt(Receipt(request, Failed, "", ""), -1);
    }

    /** A task at hand may end undetermined; and failed, once what it found runs again. */
    lemma MayEnd(receipt: Receipt)
      requires Working(receipt)
      ensures MayLand(receipt.(phase := Indeterminate), -1)
      ensures Back(receipt.request.task) ==> MayLand(receipt.(phase := Failed), -1)
    {
      hide Counter.Valid, Engine.Valid, DocumentsOk, TouchedOk, ClaimsOk, StopsOk, AskedOk, IssuesOk, LaunchesOk,
           TakingsOk, OneRuns, OnlyBeside, Occupied, Retained, TurnOk, BackupName;
      WasAsked(asked, receipts, stops, receipt.request.task);
    }

    method Restored(receipt: Receipt) returns (r: Step<bool>)
      requires Working(receipt) && Back(receipt.request.task)
      modifies this`receipts, this`claims, this`durable, engine.troubles
      ensures Valid() && engine.troubles.Later() && engine.troubles.Unhindered() && engine.troubles.Blind()
      ensures receipts == old(receipts) || receipts == old(receipts)[receipt.request.task := receipt.(phase := Failed)]
      ensures r.Done? && engine.troubles.Kept() ==>
                r.value && receipts == old(receipts)[receipt.request.task := receipt.(phase := Failed)]
    {
      hide Valid, MayLand;
      MayEnd(receipt);
      r := WriteReceipt(receipt.(phase := Failed), -1);
    }

    method Undetermined(receipt: Receipt) returns (r: Step<bool>)
      requires Working(receipt)
      modifies this`receipts, this`claims, this`durable, engine.troubles
      ensures Valid() && engine.troubles.Later() && engine.troubles.Unhindered() && engine.troubles.Blind()
      ensures receipts == old(receipts)
              || receipts == old(receipts)[receipt.request.task := receipt.(phase := Indeterminate)]
      ensures r.Done? && engine.troubles.Kept() ==>
                r.value && receipts == old(receipts)[receipt.request.task := receipt.(phase := Indeterminate)]
    {
      hide Valid, MayLand;
      MayEnd(receipt);
      r := WriteReceipt(receipt.(phase := Indeterminate), -1);
    }

    // --------------------------------------------------------------- container calls

    method StopTarget(task: TaskId) returns (r: Step<bool>)
      requires Swapping(task)
      modifies this`mutated, engine, engine.troubles
      ensures Swapping(task) && mutated == old(mutated) + {task}
      ensures engine.boxes == old(engine.boxes) || engine.boxes == Disarmed(old(engine.boxes), TARGET)
      ensures r == Done(true) ==> TARGET in engine.boxes && engine.boxes == Disarmed(old(engine.boxes), TARGET)
      ensures engine.troubles.Later() && engine.troubles.Kept()
      ensures r == Done(false) && TARGET in engine.boxes ==> !engine.troubles.Obeyed()
    {
      hide DocumentsOk, TouchedOk, ClaimsOk, StopsOk, AskedOk, IssuesOk, LaunchesOk, TakingsOk, OneRuns, OnlyBeside,
           BackupName, Occupied, Retained;
      TouchMore(receipts, claims, mutated, created, documents, stops, counter.readings, durable, vetted, task);
      SameHolder(engine.boxes, TARGET, transactions[task], created, task);
      mutated := mutated + {task};
      StopKeeps(engine.boxes, TARGET);
      r := engine.Stop(TARGET);
    }

    /** A start is about to be issued: of what holds the target name, or of what the task retained if nothing does. */
    ghost method NoteStart(task: TaskId, name: Name)
      requires Undoing(task) && (name == TARGET || (name == BackupName(task) && TARGET !in engine.boxes))
      modifies this`mutated, this`starts
      ensures Undoing(task) && starts == old(starts) + [Issue(task, name, HolderOf(engine.boxes, TARGET))]
    {
      hide Counter.Valid, Engine.Valid, DocumentsOk, TouchedOk, ClaimsOk, StopsOk, AskedOk, LaunchesOk, TakingsOk,
           OneRuns, TurnOk, BackupName;
      TouchMore(receipts, claims, mutated, created, documents, stops, counter.readings, durable, vetted, task);
      mutated, starts := mutated + {task}, starts + [Issue(task, name, HolderOf(engine.boxes, TARGET))];
    }

    method StartTarget(task: TaskId) returns (r: Step<bool>)
      requires Undoing(task)
      modifies this`mutated, this`starts, engine, engine.troubles
      ensures Swapping(task) && starts == old(starts) + [Issue(task, TARGET, old(HolderOf(engine.boxes, TARGET)))]
      ensures engine.boxes == old(engine.boxes) || engine.boxes == Armed(old(engine.boxes), TARGET)
      ensures r == Done(true) ==> TARGET in engine.boxes && engine.boxes == Armed(old(engine.boxes), TARGET)
      ensures engine.troubles.Later() && engine.troubles.Kept() && engine.troubles.Blind()
      ensures r == Done(false) && TARGET in engine.boxes ==> !engine.troubles.Obeyed()
    {
      hide Counter.Valid, Engine.Valid, DocumentsOk, TouchedOk, ClaimsOk, StopsOk, AskedOk, IssuesOk, LaunchesOk,
           TakingsOk, OneRuns, OnlyBeside, Occupied, BackupName, Retained;
      NoteStart(task, TARGET);
      SameHolder(engine.boxes, TARGET, transactions[task], created, task);
      StartTargetKeeps(engine.boxes);
      r := engine.Start(TARGET);
    }

    /** The retained container is started under its own name only while nothing holds the target's. */
    method StartBackup(task: TaskId) returns (r: Step<bool>)
      requires Undoing(task) && TARGET !in engine.boxes
      modifies this`mutated, this`starts, engine, engine.troubles
      ensures Swapping(task) && starts == old(starts) + [Issue(task, BackupName(task), None)]
      ensures engine.troubles.Later() && engine.troubles.Kept() && engine.troubles.Blind()
    {
      hide Counter.Valid, Engine.Valid, DocumentsOk, TouchedOk, ClaimsOk, StopsOk, AskedOk, IssuesOk, LaunchesOk,
           TakingsOk, OneRuns, OnlyBeside, Occupied, BackupName, Retained;
      NoteStart(task, BackupName(task));
      SameHolder(engine.boxes, BackupName(task), transactions[task], created, task);
      StartBackupKeeps(engine.boxes, BackupName(task));
      BackupIsNotTarget(task);
      r := engine.Start(BackupName(task));
    }

    /** Unforced, the engine refuses a container that is running; forced, it takes it down. */
    method RemoveTarget(task: TaskId, force: bool) returns (r: Step<Removal>)
      requires Undoing(task)
      requires TARGET in engine.boxes ==> task in created && engine.boxes[TARGET].id == created[task]
      modifies this`mutated, this`takings, engine, engine.troubles
      ensures Swapping(task) && (engine.boxes == old(engine.boxes) || engine.boxes == old(engine.boxes) - {TARGET})
      ensures takings == old(takings) + [Taking(task, old(HolderOf(engine.boxes, TARGET)), force)]
      ensures r.Done? && (r.value.Removed? || r.value.Missing?) ==> TARGET !in engine.boxes
      ensures r.Done? && r.value.Conflict? ==> engine.boxes == old(engine.boxes)
      ensures engine.troubles.Later() && engine.troubles.Kept()
      ensures r.Done? && (r.value.Refused? || (r.value.Conflict? && force)) ==> !engine.troubles.Obeyed()
    {
      hide DocumentsOk, TouchedOk, ClaimsOk, StopsOk, AskedOk, IssuesOk, LaunchesOk, OneRuns, OnlyBeside, BackupName,
           Retained;
      TouchMore(receipts, claims, mutated, created, documents, stops, counter.readings, durable, vetted, task);
      RemovesNew(engine.boxes, transactions[task], created, task);
      mutated, takings := mutated + {task}, takings + [Taking(task, HolderOf(engine.boxes, TARGET), force)];
      RemoveKeeps(engine.boxes, TARGET);
      r := engine.Remove(TARGET, force);
    }

    method Restore(task: TaskId) returns (r: Step<bool>)
      requires Undoing(task) && task in transactions
      requires BackupName(task) in engine.boxes && engine.boxes[BackupName(task)].id == transactions[task].oldId
      modifies this`mutated, engine, engine.troubles
      ensures Swapping(task)
      ensures r == Done(true) ==> TARGET in engine.boxes && engine.boxes[TARGET].id == transactions[task].oldId
      ensures engine.troubles.Later() && engine.troubles.Kept() && engine.troubles.Blind()
      ensures r == Done(false) && TARGET !in old(engine.boxes) ==> !engine.troubles.Obeyed()
    {
      hide DocumentsOk, TouchedOk, ClaimsOk, StopsOk, AskedOk, IssuesOk, LaunchesOk, TakingsOk, OneRuns, OnlyBeside,
           BackupName, Retained;
      TouchMore(receipts, claims, mutated, created, documents, stops, counter.readings, durable, vetted, task);
      MovesOld(engine.boxes, transactions[task], created, task);
      mutated := mutated + {task};
      RestoreKeeps(engine.boxes, BackupName(task));
      r := engine.Rename(BackupName(task), TARGET);
    }

    // ---------------------------------------------------------------------- rollback

    method InspectOnceMore(name: Name) returns (r: Step<Seen>)
      modifies engine.troubles
      ensures engine.troubles.Later() && engine.troubles.Kept()
      ensures r.Done? && r.value.NotFound? ==> name !in engine.boxes
      ensures r.Done? && r.value.Seen? ==> name in engine.boxes && r.value.id == engine.boxes[name].id
      ensures r.Done? && r.value.Unanswered? ==> !engine.troubles.Obeyed()
      ensures r.Done? ==>
                engine.troubles.vacant == old(engine.troubles.vacant) + if r.value.NotFound? then [name] else []
    {
      var seen :- engine.Inspect(name);
      var transient: bool := *;
      if seen.Unanswered? && transient {
        seen :- engine.Inspect(name);
      }
      return Done(seen);
    }

    /**
      * Clears the target name. It is forced only after the engine said the container
      * still runs, and only if it is the recorded replacement or none was recorded.
      */
    method RemoveReplacement(task: TaskId, current: Id, transaction: Transaction) returns (r: Step<bool>)
      requires Undoing(task) && task in created && created[task] == current && Recorded(transaction, created, task)
      requires TARGET in engine.boxes && engine.boxes[TARGET].id == current
      modifies this`mutated, this`takings, engine, engine.troubles
      ensures Swapping(task) && (engine.boxes == old(engine.boxes) || engine.boxes == old(engine.boxes) - {TARGET})
      ensures r == Done(true) ==> TARGET !in engine.boxes
      ensures takings == old(takings) + [Taking(task, Some(current), false)]
              || (takings == old(takings) + [Taking(task, Some(current), false), Taking(task, Some(current), true)]
                  && (transaction.newId == "" || transaction.newId == current))
      ensures engine.troubles.Later() && engine.troubles.Kept() && (r == Done(false) ==> !engine.troubles.Obeyed())
    {
      hide Valid, BackupName;
      var removal :- RemoveTarget(task, false);
      if removal.Removed? || removal.Missing? { return Done(true); }
      if !removal.Conflict? || (transaction.newId != "" && current != transaction.newId) { return Done(false); }
      removal :- RemoveTarget(task, true);
      return Done(removal.Removed? || removal.Missing?);
    }

    /** The stop's own answer decides nothing: the removal asks the engine again. */
    method ClearTarget(task: TaskId, current: Id, transaction: Transaction) returns (r: Step<bool>)
      requires Undoing(task) && task in created && created[task] == current && Recorded(transaction, created, task)
      requires TARGET in engine.boxes && engine.boxes[TARGET].id == current
      modifies this`mutated, this`takings, engine, engine.troubles
      ensures Swapping(task) && (r == Done(true) ==> TARGET !in engine.boxes)
      ensures engine.troubles.Later() && engine.troubles.Kept() && (r == Done(false) ==> !engine.troubles.Obeyed())
    {
      hide Valid, BackupName, Recorded;
      var stopped :- StopTarget(task);
      r := RemoveReplacement(task, current, transaction);
    }

    /** A rollback that ended the task saw the old container running, or had issued a start to exactly one container. */
    ghost predicate Served(task: TaskId, before: seq<Issue>, saw: bool) reads this {
      && |before| <= |starts| <= |before| + 1
      && (task in receipts && Final(receipts[task].phase) ==> saw || |starts| == |before| + 1)
    }

    method KeepServing(receipt: Receipt) returns (r: Step<bool>)
      requires Working(receipt) && Undoing(receipt.request.task)
      modifies this`mutated, this`starts, this`receipts, this`claims, this`durable, engine, engine.troubles
      ensures Valid() && starts == old(starts)
              + [Issue(receipt.request.task, TARGET, old(HolderOf(engine.boxes, TARGET)))]
      ensures engine.troubles.Later() && engine.troubles.Blind() && Unsettled(receipt.request.task)
      ensures r.Done? && engine.troubles.Kept() ==> r.value && Final(receipts[receipt.request.task].phase)
    {
      hide DocumentsOk, TouchedOk, ClaimsOk, StopsOk, AskedOk, IssuesOk, LaunchesOk, TakingsOk, OneRuns, OnlyBeside,
           Occupied, BackupName, Retained;
      var started :- StartTarget(receipt.request.task);
      r := Undetermined(receipt);
    }

    /** A rollback under way, or one that ended without a proven outcome. */
    ghost predicate Unsettled(task: TaskId) reads this {
      task in receipts && (receipts[task].phase.RollingBack? || receipts[task].phase.Indeterminate?)
    }

    method KeepBackupServing(receipt: Receipt) returns (r: Step<bool>)
      requires Working(receipt) && Undoing(receipt.request.task) && TARGET !in engine.boxes
      modifies this`mutated, this`starts, this`receipts, this`claims, this`durable, engine, engine.troubles
      ensures Valid() && starts == old(starts) + [Issue(receipt.request.task, BackupName(receipt.request.task), None)]
      ensures engine.troubles.Later() && engine.troubles.Blind() && Unsettled(receipt.request.task)
      ensures r.Done? && engine.troubles.Kept() ==> r.value && Final(receipts[receipt.request.task].phase)
    {
      hide DocumentsOk, TouchedOk, ClaimsOk, StopsOk, AskedOk, IssuesOk, LaunchesOk, TakingsOk, OneRuns, OnlyBeside,
           Occupied, BackupName, Retained;
      var started :- StartBackup(receipt.request.task);
      r := Undetermined(receipt);
    }

    /** The task ended, if every document was written; and with the old container back, if the engine did as asked. */
    ghost predicate Ended(task: TaskId, kept: bool, obeyed: bool) reads this, engine {
      && task in receipts && !receipts[task].phase.Succeeded?
      && (kept ==> Final(receipts[task].phase))
      && (kept && obeyed ==> receipts[task].phase.Failed? && Back(task))
    }

    method StartRestored(receipt: Receipt) returns (r: Step<bool>)
      requires Working(receipt) && Undoing(receipt.request.task)
      requires var task := receipt.request.task;
               task in transactions && TARGET in engine.boxes && engine.boxes[TARGET].id == transactions[task].oldId
      modifies this`mutated, this`starts, this`receipts, this`claims, this`durable, engine, engine.troubles
      ensures Valid()
      ensures starts == old(starts)
              + [Issue(receipt.request.task, TARGET, Some(transactions[receipt.request.task].oldId))]
      ensures engine.troubles.Later() && engine.troubles.Blind() && (r.Done? && engine.troubles.Kept() ==> r.value)
      ensures Ended(receipt.request.task, r.Done? && engine.troubles.Kept(), engine.troubles.Obeyed())
    {
      hide Valid;
      var started :- StartTarget(receipt.request.task);
      if !started {
        r := Undetermined(receipt);
      } else {
        r := Restored(receipt);
      }
    }

    /** What a transaction says of the old container, and of the new one if it says anything, is so. */
    ghost predicate KnowsOld(task: TaskId, transaction: Transaction) reads this {
      && task in transactions && transactions[task].oldId == transaction.oldId
      && transaction.backup == BackupName(task) && Recorded(transaction, created, task)
    }

    /** From here on the task can only end failed or undetermined. */
    method BeginRollback(receipt: Receipt) returns (r: Step<bool>)
      requires Working(receipt)
      modifies this`receipts, this`claims, this`durable, engine.troubles
      ensures Working(receipt)
      ensures r == Done(true) ==> receipts[receipt.request.task].phase.RollingBack?
      ensures engine.troubles.Later() && engine.troubles.Unhindered()
      ensures r == Done(false) ==> !engine.troubles.Kept()
      ensures receipts[receipt.request.task].phase.RollingBack? || receipts == old(receipts)
    {
      hide DocumentsOk, TouchedOk, ClaimsOk, StopsOk, AskedOk, IssuesOk, LaunchesOk, TakingsOk, OneRuns, OnlyBeside,
           Occupied, BackupName, Retained;
      DocumentHeld(receipts, transactions, receipt.request.task);
      WasAsked(asked, receipts, stops, receipt.request.task);
      r := WriteReceipt(receipt.(phase := RollingBack), -1);
    }

    /** What holds the target name, if it is not the old container, is this task's replacement. */
    method InspectTarget(task: TaskId) returns (r: Step<Seen>)
      requires Swapping(task) && task in transactions
      modifies engine.troubles
      ensures Swapping(task) && engine.troubles.Later() && engine.troubles.Kept()
      ensures r.Done? && r.value.Seen? ==>
                && TARGET in engine.boxes && r.value.id == engine.boxes[TARGET].id
                && (r.value.running ==> engine.boxes[TARGET].armed)
                && (r.value.id != transactions[task].oldId ==> task in created && created[task] == r.value.id)
      ensures r.Done? && r.value.NotFound? ==> TARGET !in engine.boxes
      ensures r.Done? && r.value.Unanswered? ==> !engine.troubles.Obeyed()
      ensures r.Done? && !r.value.Unanswered? && !(r.value.Seen? && r.value.running) ==>
                old(engine.troubles.absent) < engine.troubles.absent
    {
      hide DocumentsOk, TouchedOk, ClaimsOk, StopsOk, AskedOk, IssuesOk, LaunchesOk, TakingsOk, OneRuns, OnlyBeside,
           BackupName, Retained;
      r := engine.Inspect(TARGET);
    }

    /**
      * Back to the container the task found. If every document is written the task ends; if the
      * engine does as it is asked besides, that container is back and running and the task failed.
      */
    method Rollback(receipt: Receipt, transaction: Transaction) returns (r: Step<bool>, ghost saw: bool)
      requires Working(receipt) && KnowsOld(receipt.request.task, transaction)
      modifies this`mutated, this`starts, this`receipts, this`claims, this`durable, this`takings
      modifies engine, engine.troubles
      ensures Valid() && Served(receipt.request.task, old(starts), saw)
      ensures saw ==> TARGET in engine.boxes && engine.boxes[TARGET].armed
                      && engine.boxes[TARGET].id == transaction.oldId
      ensures engine.troubles.Later() && (r.Done? && engine.troubles.Kept() ==> r.value)
      ensures Ended(receipt.request.task, r.Done? && engine.troubles.Kept(), engine.troubles.Obeyed())
      ensures engine.troubles.Unhindered() && old(HolderOf(engine.boxes, TARGET)) == Some(transaction.oldId) ==>
                starts == old(starts)
    {
      hide Valid, BackupName, Recorded;
      saw := false;
      var task, rolling := receipt.request.task, receipt.(phase := RollingBack);
      var written :- BeginRollback(receipt);
      if !written { return Done(false), false; }
      var current :- InspectTarget(task);
      if current.Seen? {
        if current.id == transaction.oldId {
          if !current.running {
            r := StartRestored(rolling);
            return r, false;
          }
          r := Restored(rolling);
          return r, true;
        }
        var cleared :- ClearTarget(task, current.id, transaction);
        if !cleared {
          r := KeepServing(rolling);
          return r, false;
        }
      }
      r := RestoreBackup(rolling, transaction);
      return r, false;
    }

    /** While nothing holds the target name, the container the task found is under the task's own. */
    lemma FoundBeside(task: TaskId)
      requires Swapping(task) && TARGET !in engine.boxes
      ensures task in transactions
      ensures HolderOf(engine.boxes, BackupName(task)) == Some(transactions[task].oldId)
    {
    }

    /** One more start was issued, and not under the target name. */
    ghost predicate StartedBeside(before: seq<Issue>) reads this {
      |starts| == |before| + 1 && starts[|starts| - 1].name != TARGET
    }

    /**
      * The second half: put the retained container back, or leave exactly one candidate running. It is
      * started under its own name exactly if the target name was found to be free.
      */
    method RestoreBackup(rolling: Receipt, transaction: Transaction) returns (r: Step<bool>)
      requires Working(rolling) && Undoing(rolling.request.task) && KnowsOld(rolling.request.task, transaction)
      modifies this`mutated, this`starts, this`receipts, this`claims, this`durable, engine, engine.troubles
      ensures Valid() && Served(rolling.request.task, old(starts), false)
      ensures starts == old(starts) || starts == old(starts) + [starts[|starts| - 1]]
      ensures StartedBeside(old(starts)) ==> starts[|starts| - 1].target.None?
      ensures r.Done? ==>
                (StartedBeside(old(starts)) <==> engine.troubles.vacant == old(engine.troubles.vacant) + [TARGET])
      ensures engine.troubles.Later() && (r.Done? && engine.troubles.Kept() ==> r.value)
      ensures Ended(rolling.request.task, r.Done? && engine.troubles.Kept(),
                    engine.troubles.Obeyed() && TARGET !in old(engine.boxes))
    {
      hide Valid, BackupName, Recorded, Back;
      var task := rolling.request.task;
      BackupIsNotTarget(task);
      if TARGET !in engine.boxes { FoundBeside(task); }
      var backup :- InspectOnceMore(transaction.backup);
      if !backup.Seen? || backup.id != transaction.oldId {
        ghost var before := old(engine.troubles.vacant);
        assert (before + [transaction.backup])[|before|] != (before + [TARGET])[|before|];
        r := KeepServing(rolling);
        return;
      }
      r := PutBack(rolling, transaction);
    }

    /** The retained container takes its name again and is started; or whichever candidate there is. */
    method PutBack(rolling: Receipt, transaction: Transaction) returns (r: Step<bool>)
      requires Working(rolling) && Undoing(rolling.request.task) && KnowsOld(rolling.request.task, transaction)
      requires HolderOf(engine.boxes, BackupName(rolling.request.task)) == Some(transaction.oldId)
      modifies this`mutated, this`starts, this`receipts, this`claims, this`durable, engine, engine.troubles
      ensures Valid() && Served(rolling.request.task, old(starts), false)
      ensures starts == old(starts) || starts == old(starts) + [starts[|starts| - 1]]
      ensures StartedBeside(old(starts)) ==> starts[|starts| - 1].target.None?
      ensures r.Done? ==>
                (StartedBeside(old(starts)) <==> engine.troubles.vacant == old(engine.troubles.vacant) + [TARGET])
      ensures engine.troubles.Later() && (r.Done? && engine.troubles.Kept() ==> r.value)
      ensures Ended(rolling.request.task, r.Done? && engine.troubles.Kept(),
                    engine.troubles.Obeyed() && TARGET !in old(engine.boxes))
    {
      hide Valid, BackupName, Recorded, Back;
      var task := rolling.request.task;
      BackupIsNotTarget(task);
      var renamed :- Restore(task);
      if renamed {
        r := StartRestored(rolling);
        return;
      }
      var target :- InspectOnceMore(TARGET);
      if !target.NotFound? {
        r := KeepServing(rolling);
      } else {
        r := KeepBackupServing(rolling);
      }
    }

    /** An interrupted task is rolled back from its recorded identity; with none readable, nothing is touched. */
    method Recover(receipt: Receipt) returns (r: Step<bool>, ghost saw: bool)
      requires Working(receipt)
      modifies this`mutated, this`starts, this`receipts, this`claims, this`durable, this`takings
      modifies engine, engine.troubles
      ensures Valid()
      ensures saw ==> TARGET in engine.boxes && engine.boxes[TARGET].armed
      ensures Served(receipt.request.task, old(starts), saw)
              || (engine.boxes == old(engine.boxes) && starts == old(starts) && mutated == old(mutated)
                  && takings == old(takings))
      ensures engine.troubles.Later() && (r.Done? && engine.troubles.Kept() ==> r.value)
      ensures Ended(receipt.request.task, r.Done? && engine.troubles.Kept(), engine.troubles.Obeyed())
    {
      hide Valid, Back;
      saw := false;
      RecordIsSo(receipt);
      var transaction :- ReadTransaction(receipt.request.task);
      if transaction.None? {
        r := Undetermined(receipt);
      } else {
        r, saw := Rollback(receipt, transaction.value);
      }
    }

    /** What is recorded of an unfinished task is so. */
    lemma RecordIsSo(receipt: Receipt)
      requires Working(receipt)
      ensures var task := receipt.request.task; task in transactions && KnowsOld(task, transactions[task])
    {
      hide Counter.Valid, Engine.Valid, DocumentsOk, TouchedOk, ClaimsOk, StopsOk, AskedOk, IssuesOk, LaunchesOk,
           TakingsOk, OneRuns, OnlyBeside, Occupied, BackupName;
      DocumentHeld(receipts, transactions, receipt.request.task);
    }

    // ------------------------------------------------------------------- forward

    /**
      * Everything decided before the running agent is touched: the documents are on
      * disk, and the last reading of the counter, taken after them, permits the start.
      */
    ghost predicate Planned(request: Request, transaction: Transaction) reads this, engine, counter {
      var task := request.task;
      && Swapping(task) && task !in mutated && receipts[task] == Receipt(request, Activating, "", "")
      && task in transactions && transactions[task] == transaction && transaction.backup == BackupName(task)
      && transaction.newId == "" && TARGET in engine.boxes && engine.boxes[TARGET].id == transaction.oldId
      && AgentOf(transaction.oldId, request.expected) in vetted
      && ReleaseOf(transaction.newImage, request.version) in vetted
      && task in durable && durable[task] < |counter.readings|
      && Allows(counter.readings, |counter.readings| - 1, request)
    }

    /** Checks a container or an image; what passed is kept, and nothing else is. */
    method Vet(what: Vetted) returns (r: Step<bool>)
      requires Valid()
      modifies this`vetted, engine.troubles
      ensures Valid() && old(vetted) <= vetted <= old(vetted) + {what}
      ensures r.Done? ==> vetted == old(vetted) + if r.value then {what} else {}
      ensures engine.troubles.Later() && engine.troubles.Kept() && engine.troubles.Obeyed()
      ensures if r == Done(true) then engine.troubles.Clean()
              else r == Done(false) ==> old(engine.troubles.rejected) < engine.troubles.rejected
    {
      hide DocumentsOk, TouchedOk, ClaimsOk, StopsOk, AskedOk, IssuesOk, LaunchesOk, TakingsOk, OneRuns, TurnOk;
      var alive: bool, passes: bool := *, *;
      if passes {
        KnowMore(stops, mutated, counter.readings, durable, launches, created, draws, vetted, {}, {what});
        assert draws + {} == draws;
        vetted := vetted + {what};
      } else {
        engine.troubles.rejected := engine.troubles.rejected + 1;
      }
      if !alive { return Killed; }
      return Done(passes);
    }

    /** The container that holds the target name, if it runs and passes as the agent at the version expected. */
    method FindAgent(request: Request) returns (r: Step<Option<Id>>)
      requires Valid()
      modifies this`vetted, engine.troubles
      ensures Valid() && old(vetted) <= vetted
      ensures r.Done? && r.value.Some? ==>
                && TARGET in engine.boxes && engine.boxes[TARGET].id == r.value.value && engine.boxes[TARGET].armed
                && AgentOf(r.value.value, request.expected) in vetted
      ensures engine.troubles.Later() && engine.troubles.Kept()
      ensures r.Done? ==> (r.value.Some? <==> engine.troubles.Unhindered())
    {
      hide DocumentsOk, TouchedOk, ClaimsOk, StopsOk, AskedOk, IssuesOk, LaunchesOk, TakingsOk, OneRuns, TurnOk;
      var agent :- engine.Inspect(TARGET);
      if !agent.Seen? { return Done(None); }
      var acceptable :- Vet(AgentOf(agent.id, request.expected));
      return Done(if acceptable && agent.running then Some(agent.id) else None);
    }

    /** Pulls the release asked for; an image is given only if it passes as that release. */
    method Pull(request: Request) returns (r: Step<Option<Id>>)
      requires Valid() && Permitted(request)
      modifies this`pulls, this`vetted, engine.troubles
      ensures Valid() && old(vetted) <= vetted
      ensures r.Done? && r.value.Some? ==> ReleaseOf(r.value.value, request.version) in vetted
      ensures engine.troubles.Later() && engine.troubles.Kept()
      ensures r.Done? ==> (r.value.Some? <==> engine.troubles.Unhindered())
    {
      hide DocumentsOk, TouchedOk, ClaimsOk, StopsOk, AskedOk, IssuesOk, LaunchesOk, TakingsOk, OneRuns, TurnOk;
      pulls := pulls + 1;
      var alive: bool, pulled: bool, image: Id := *, *, *;
      if !alive { return Killed; }
      if !pulled { engine.troubles.calls := engine.troubles.calls + 1; return Done(None); }
      var fits :- Vet(ReleaseOf(image, request.version));
      return Done(if fits then Some(image) else None);
    }

    /** Some reading of the counter since does not permit the request. */
    twostate predicate Late(request: Request) reads counter {
      exists at :: |old(counter.readings)| <= at < |counter.readings| && !Allows(counter.readings, at, request)
    }

    /** The task was refused with nothing touched. */
    ghost predicate Refused(request: Request) reads this {
      request.task in receipts && receipts[request.task] == Receipt(request, Failed, "", "")
    }

    /**
      * Checks and documents: nothing here changes a container, each refusal says so truthfully, and
      * nothing is refused unless something stood in the way or it was too late.
      */
    method Prepare(request: Request) returns (r: Step<Option<Transaction>>)
      requires Valid() && turn == request.task && request.task !in receipts && Current(request)
      modifies this`receipts, this`claims, this`durable, this`transactions, this`pulls, this`vetted
      modifies counter, engine.troubles
      ensures Valid() && Own(request) && old(counter.readings) <= counter.readings
      ensures r.Done? && r.value.Some? ==> Planned(request, r.value.value)
      ensures engine.troubles.Later() && (r.Done? && r.value.Some? ==> engine.troubles.Clean())
      ensures r == Done(None) && engine.troubles.Kept() ==>
                Refused(request) && (Late(request) || !engine.troubles.Unhindered())
    {
      hide Valid, Allows, BackupName;
      Untouched(request.task);
      var permitted :- Authorized(request);
      if !permitted { var _ :- Fail(request); return Done(None); }
      var agent :- FindAgent(request);
      if agent.None? { var _ :- Fail(request); return Done(None); }
      var image :- Pull(request);
      if image.None? { var _ :- Fail(request); return Done(None); }
      permitted :- Authorized(request);
      if !permitted { var _ :- Fail(request); return Done(None); }
      r := Record(request, Transaction(agent.value, BackupName(request.task), image.value, ""));
    }

    lemma Untouched(task: TaskId)
      requires Valid() && task !in receipts
      ensures task !in mutated
    {
    }

    ghost predicate ReadLast(request: Request) reads this {
      |asked| > 0 && asked[|asked| - 1] == request
    }

    /** The request read last, which parses and is being worked on. */
    ghost predicate Current(request: Request) reads this {
      ReadLast(request) && request.parses
    }

    /** A receipt of the request's task, if there is one, is about this request. */
    ghost predicate Own(request: Request) reads this {
      request.task in receipts ==> receipts[request.task].request == request
    }

    /**
      * The rollback identity is on disk before the receipt that says containers may be touched, and
      * the counter is read after both.
      */
    method Record(request: Request, transaction: Transaction) returns (r: Step<Option<Transaction>>)
      requires Valid() && Current(request) && Permitted(request) && turn == request.task
      requires request.task !in receipts && request.task !in mutated
      requires transaction.backup == BackupName(request.task) && transaction.newId == ""
      requires TARGET in engine.boxes && engine.boxes[TARGET].id == transaction.oldId
      requires AgentOf(transaction.oldId, request.expected) in vetted
      requires ReleaseOf(transaction.newImage, request.version) in vetted
      modifies this`receipts, this`claims, this`durable, this`transactions, counter, engine.troubles
      ensures Valid() && Own(request) && old(counter.readings) <= counter.readings
      ensures r.Done? && r.value.Some? ==> Planned(request, r.value.value)
      ensures engine.troubles.Later() && engine.troubles.Unhindered()
      ensures r.Done? && r.value.Some? ==> engine.troubles.Kept()
      ensures r == Done(None) && engine.troubles.Kept() ==> Refused(request) && Late(request)
    {
      hide Valid, Allows, BackupName;
      var kept :- WriteTransaction(request.task, transaction);
      if !kept { var _ :- Fail(request); return Done(None); }
      var written :- WriteReceipt(Receipt(request, Prepared, "", ""), -1);
      if !written { return Done(None); }
      r := Decide(request, transaction);
    }

    lemma MayActivate(request: Request, transaction: Transaction)
      requires Valid() && Current(request) && turn == request.task && request.task !in mutated
      requires request.task in transactions && transactions[request.task] == transaction
      requires transaction.backup == BackupName(request.task) && transaction.newId == ""
      requires TARGET in engine.boxes && engine.boxes[TARGET].id == transaction.oldId
      ensures MayLand(Receipt(request, Activating, "", ""), -1)
    {
      hide Counter.Valid, Engine.Valid, DocumentsOk, TouchedOk, ClaimsOk, StopsOk, AskedOk, IssuesOk, LaunchesOk,
           TakingsOk, OneRuns, OnlyBeside, Occupied, Retained, TurnOk, BackupName;
      NothingCreated(receipts, mutated, created, request.task);
      TargetMeansAlone(engine.boxes, BackupName(request.task));
      OccupiedByOld(engine.boxes, created, request.task, transaction);
    }

    /** The counter is read once more after the receipt that says containers may be touched. */
    method Decide(request: Request, transaction: Transaction) returns (r: Step<Option<Transaction>>)
      requires Valid() && Own(request) && Current(request) && turn == request.task && request.task !in mutated
      requires Replaceable(Receipt(request, Activating, "", ""))
      requires request.task in transactions && transactions[request.task] == transaction
      requires transaction.backup == BackupName(request.task) && transaction.newId == ""
      requires TARGET in engine.boxes && engine.boxes[TARGET].id == transaction.oldId
      requires AgentOf(transaction.oldId, request.expected) in vetted
      requires ReleaseOf(transaction.newImage, request.version) in vetted
      modifies this`receipts, this`claims, this`durable, counter, engine.troubles
      ensures Valid() && Own(request) && old(counter.readings) <= counter.readings
      ensures r.Done? && r.value.Some? ==> Planned(request, r.value.value)
      ensures engine.troubles.Later() && engine.troubles.Unhindered()
      ensures r.Done? && r.value.Some? ==> engine.troubles.Kept()
      ensures r == Done(None) && engine.troubles.Kept() ==> Refused(request) && Late(request)
    {
      hide Valid, MayLand, Allows, BackupName;
      MayActivate(request, transaction);
      var written :- WriteReceipt(Receipt(request, Activating, "", ""), -1);
      if !written { return Done(None); }
      var permitted :- Authorized(request);
      if !permitted { var _ :- Fail(request); return Done(None); }
      return Done(Some(transaction));
    }

    /** Draws a nonce for the task at hand; the history holds every one drawn. */
    method RandomNonce(task: TaskId) returns (r: Step<Option<string>>)
      requires Swapping(task)
      modifies this`draws, engine.troubles
      ensures Swapping(task) && old(draws) <= draws
      ensures r.Done? ==> draws == old(draws) + if r.value.Some? then {Draw(task, r.value.value)} else {}
      ensures engine.troubles.Later() && engine.troubles.Kept() && (r == Done(None) ==> !engine.troubles.Obeyed())
    {
      hide DocumentsOk, TouchedOk, ClaimsOk, StopsOk, AskedOk, IssuesOk, LaunchesOk, TakingsOk, OneRuns, TurnOk;
      var alive: bool, nonce: Option<string> := *, *;
      if nonce.Some? {
        KnowMore(stops, mutated, counter.readings, durable, launches, created, draws, vetted,
                 {Draw(task, nonce.value)}, {});
        assert vetted + {} == vetted;
        draws := draws + {Draw(task, nonce.value)};
      } else {
        engine.troubles.calls := engine.troubles.calls + 1;
      }
      if !alive { return Killed; }
      return Done(nonce);
    }

    /** Reads the readiness document, if there is one; the history holds every one read. */
    method ReadReady() returns (r: Step<Option<Ready>>)
      requires Valid()
      modifies this`documents
      ensures Valid()
      ensures r.Done? ==> documents == old(documents) + if r.value.Some? then [r.value.value] else []
    {
      hide DocumentsOk, TouchedOk, ClaimsOk, StopsOk, AskedOk, IssuesOk, LaunchesOk, TakingsOk, OneRuns, TurnOk;
      var alive: bool, ready: Option<Ready> := *, *;
      if ready.Some? {
        ReadMore(receipts, claims, mutated, documents, ready.value);
        documents := documents + [ready.value];
      }
      if !alive { return Killed; }
      return Done(ready);
    }

    /** One look for the activation's own proof: a document that answers, and the very container running. */
    method Look(receipt: Receipt, transaction: Transaction) returns (r: Step<Option<Ready>>, ghost poll: Poll)
      requires Swapping(receipt.request.task)
      modifies this`documents, this`proofs, engine.troubles
      ensures Swapping(receipt.request.task) && engine.troubles.Later() && engine.troubles.Kept()
      ensures r.Done? && r.value.Some? ==>
                && |documents| > 0 && documents[|documents| - 1] == r.value.value && Answers(r.value.value, receipt)
                && BoxAt(engine.boxes, TARGET) == Some(Box(transaction.newId, transaction.newImage, true))
      ensures proofs == old(proofs) + if r.Done? && r.value.Some? then [r.value.value] else []
      ensures r == Done(None) ==> PollOk(poll, receipt) && !Proves(poll, receipt, transaction)
      ensures r.Done? ==> documents == old(documents) + if poll.found.Some? then [poll.found.value] else []
    {
      hide DocumentsOk, TouchedOk, ClaimsOk, StopsOk, AskedOk, IssuesOk, LaunchesOk, TakingsOk, OneRuns, TurnOk,
           BackupName;
      poll := Poll(None, None);
      var found :- ReadReady();
      poll := Poll(found, None);
      if found.Some? && found.value.task == receipt.request.task && found.value.digest == receipt.request.digest
         && found.value.version == receipt.request.version && found.value.nonce == receipt.nonce
         && found.value.wellFormed {
        var seen :- engine.Inspect(TARGET);
        poll := Poll(found, Some(seen));
        if seen.Seen? && seen.id == transaction.newId && seen.image == transaction.newImage && seen.running {
          proofs := proofs + [found.value];
          return Done(Some(found.value)), poll;
        }
      }
      return Done(None), poll;
    }

    /** Waits for that proof; gives up after one look or more, none of which found it. */
    method WaitReady(receipt: Receipt, transaction: Transaction)
      returns (r: Step<Option<Ready>>, ghost polls: seq<Poll>)
      requires Swapping(receipt.request.task) && receipt.request.task in reported
      modifies this`documents, this`proofs, engine.troubles
      ensures Swapping(receipt.request.task) && engine.troubles.Later() && engine.troubles.Kept()
      ensures r.Done? && r.value.Some? ==>
                && |documents| > 0 && documents[|documents| - 1] == r.value.value && Answers(r.value.value, receipt)
                && BoxAt(engine.boxes, TARGET) == Some(Box(transaction.newId, transaction.newImage, true))
      ensures proofs == old(proofs) + if r.Done? && r.value.Some? then [r.value.value] else []
      ensures r == Done(None) ==>
                && |polls| > 0 && InVain(polls, receipt, transaction) && documents == old(documents) + Read(polls)
                && !engine.troubles.Timely()
    {
      hide Valid, Answers, InVain, Read;
      var left: nat := *;
      polls := [];
      NoPolls(receipt, transaction);
      while true
        invariant Swapping(receipt.request.task) && proofs == old(proofs)
        invariant engine.troubles.Later() && engine.troubles.Kept()
        invariant InVain(polls, receipt, transaction) && documents == old(documents) + Read(polls)
        decreases left
      {
        ghost var poll;
        var found;
        found, poll :- Look(receipt, transaction);
        if found.Some? { return Done(found), polls; }
        OneMorePoll(polls, poll, receipt, transaction);
        polls := polls + [poll];
        if left == 0 {
          engine.troubles.unproven := engine.troubles.unproven + 1;
          return Done(None), polls;
        }
        left := left - 1;
      }
    }

    /** Stops the running agent, on the last reading of the counter: the only stop of the forward path. */
    method StopAgent(request: Request, transaction: Transaction) returns (r: Step<bool>)
      requires Planned(request, transaction)
      modifies this`mutated, this`stops, engine, engine.troubles
      ensures Swapping(request.task) && request.task in mutated
      ensures engine.troubles.Later() && engine.troubles.Kept() && (r == Done(false) ==> !engine.troubles.Obeyed())
      ensures stops == old(stops) + [Stop(request, |counter.readings| - 1, transaction.oldId)]
      ensures r == Done(true) ==>
                NoneRuns(engine.boxes) && TARGET in engine.boxes && engine.boxes[TARGET].id == transaction.oldId
      ensures Free(request.task) <==> old(Free(request.task))
    {
      hide DocumentsOk, TouchedOk, ClaimsOk, StopsOk, AskedOk, IssuesOk, LaunchesOk, TakingsOk, OneRuns, OnlyBeside,
           Allows, BackupName, Retained;
      var task := request.task;
      StopKeeps(engine.boxes, TARGET);
      TouchMore(receipts, claims, mutated, created, documents, stops, counter.readings, durable, vetted, task);
      StopJoins(stops, mutated, counter.readings, durable, vetted, asked, receipts, request, engine.boxes[TARGET].id);
      mutated, stops := mutated + {task}, stops + [Stop(request, |counter.readings| - 1, engine.boxes[TARGET].id)];
      assert Swapping(task);
      r := StopTarget(task);
    }

    /** No container holds the name the task would keep its old one under. */
    ghost predicate Free(task: TaskId) reads engine {
      BackupName(task) !in engine.boxes
    }

    method Retain(task: TaskId) returns (r: Step<bool>)
      requires Swapping(task) && NoneRuns(engine.boxes) && TARGET in engine.boxes
      modifies engine, engine.troubles
      ensures Swapping(task) && NoneRuns(engine.boxes)
      ensures r == Done(true) ==> TARGET !in engine.boxes
      ensures engine.troubles.Later() && engine.troubles.Kept()
      ensures r == Done(false) && old(Free(task)) ==> !engine.troubles.Obeyed()
    {
      hide DocumentsOk, TouchedOk, ClaimsOk, StopsOk, AskedOk, IssuesOk, LaunchesOk, TakingsOk, OneRuns, OnlyBeside,
           NoneRuns, BackupName, Retained;
      BackupIsNotTarget(task);
      MovesOld(engine.boxes, transactions[task], created, task);
      RetainKeeps(engine.boxes, BackupName(task));
      r := engine.Rename(TARGET, BackupName(task));
      NoneMeansOne(engine.boxes, BackupName(task));
    }

    /** A replacement may exist even if the engine did not say so; either way it is this task's. */
    method CreateReplacement(task: TaskId, image: Id) returns (r: Step<Option<Id>>)
      requires Swapping(task) && NoneRuns(engine.boxes) && TARGET !in engine.boxes && task in mutated
               && task !in created
      modifies engine, this`created, engine.troubles
      ensures Swapping(task) && NoneRuns(engine.boxes)
      ensures r.Done? && r.value.Some? ==>
                task in created && created[task] == r.value.value
                && BoxAt(engine.boxes, TARGET) == Some(Box(r.value.value, image, false))
      ensures forall other :: other in old(created) ==> other in created && created[other] == old(created)[other]
      ensures engine.troubles.Later() && engine.troubles.Kept() && (r == Done(None) ==> !engine.troubles.Obeyed())
    {
      hide DocumentsOk, ClaimsOk, StopsOk, AskedOk, IssuesOk, LaunchesOk, TakingsOk, OneRuns, OnlyBeside, BackupName,
           Retained;
      ghost var boxes, used := engine.boxes, engine.used;
      r := engine.Create(TARGET, image);
      NoneMeansOne(engine.boxes, BackupName(task));
      if TARGET in engine.boxes {
        CreatesNew(boxes, used, transactions[task], created, task, engine.boxes[TARGET].id, image);
        CreatedOnce(created, takings, launches, draws, vetted, task, engine.boxes[TARGET].id);
        created := created[task := engine.boxes[TARGET].id];
      }
    }

    /**
      * What a pass of the swap comes to. Once the replacement proved itself nothing is undone: it is
      * still there, and the receipt is the activated one or says that it succeeded. Otherwise the
      * task did not succeed, and ended with the old container back unless something failed.
      */
    ghost predicate Outcome(task: TaskId, before: seq<Ready>, kept: bool, obeyed: bool) reads this, engine {
      if proofs == before then Ended(task, kept, obeyed) else Upheld(task, kept)
    }

    ghost predicate Upheld(task: TaskId, kept: bool) reads this, engine {
      && |proofs| > 0 && task in transactions && task in receipts && TARGET in engine.boxes
      && engine.boxes[TARGET] == Box(transactions[task].newId, transactions[task].newImage, true)
      && (receipts[task].phase.Activated? || receipts[task].phase.Succeeded?)
      && (receipts[task].phase.Succeeded? ==> receipts[task].binary == proofs[|proofs| - 1].binary)
      && (kept ==> receipts[task].phase.Succeeded?)
    }

    /** Nothing was started, removed or restored by a rollback. */
    twostate predicate NotUndone() reads this {
      starts == old(starts) && takings == old(takings)
    }

    lemma PlannedIsNew(request: Request, transaction: Transaction)
      requires Planned(request, transaction)
      ensures request.task !in created && NotLaunched(launches, request.task) && KnowsOld(request.task, transaction)
    {
      hide Counter.Valid, Engine.Valid, DocumentsOk, TouchedOk, ClaimsOk, StopsOk, AskedOk, IssuesOk, LaunchesOk,
           TakingsOk, OneRuns, TurnOk, BackupName;
      UntouchedIsNew(receipts, mutated, created, launches, draws, vetted, request.task);
    }

    method Swap(request: Request, transaction: Transaction) returns (r: Step<bool>)
      requires Planned(request, transaction)
      modifies this`mutated, this`stops, this`starts, this`receipts, this`claims, this`durable, this`takings
      modifies this`transactions, this`created, this`draws, this`launches, this`reported, this`documents, this`proofs
      modifies engine, engine.troubles
      ensures Valid()
      ensures stops == old(stops) + [Stop(request, |counter.readings| - 1, transaction.oldId)]
      ensures engine.troubles.Later() && (r.Done? && engine.troubles.Kept() ==> r.value)
      ensures Outcome(request.task, old(proofs), r.Done? && engine.troubles.Kept(), engine.troubles.Obeyed())
      ensures r.Done? && engine.troubles.Kept() && engine.troubles.Obeyed() ==>
                proofs != old(proofs) || !engine.troubles.Timely() || !old(Free(request.task))
      ensures proofs != old(proofs) ==> NotUndone()
    {
      hide Valid, NoneRuns, Allows, BackupName, NotLaunched, Back, Free;
      var task, receipt := request.task, Receipt(request, Activating, "", "");
      PlannedIsNew(request, transaction);
      ghost var saw := false;
      var stopped :- StopAgent(request, transaction);
      if !stopped { r, saw := Rollback(receipt, transaction); return; }
      var retained :- Retain(task);
      if !retained { r, saw := Rollback(receipt, transaction); return; }
      r := Replace(receipt, transaction);
    }

    /** The target name is free and nothing runs: a replacement is created there, and activated. */
    method Replace(receipt: Receipt, transaction: Transaction) returns (r: Step<bool>)
      requires var task := receipt.request.task;
               && Working(receipt) && KnowsOld(task, transaction) && NotLaunched(launches, task)
               && ReleaseOf(transaction.newImage, receipt.request.version) in vetted
               && task in mutated && task !in created && NoneRuns(engine.boxes) && TARGET !in engine.boxes
      modifies this`mutated, this`starts, this`receipts, this`claims, this`durable, this`takings
      modifies this`transactions, this`created, this`draws, this`launches, this`reported, this`documents, this`proofs
      modifies engine, engine.troubles
      ensures Valid()
      ensures engine.troubles.Later() && (r.Done? && engine.troubles.Kept() ==> r.value)
      ensures Outcome(receipt.request.task, old(proofs), r.Done? && engine.troubles.Kept(), engine.troubles.Obeyed())
      ensures r.Done? && engine.troubles.Kept() && engine.troubles.Obeyed() && engine.troubles.Timely() ==>
                proofs != old(proofs)
      ensures proofs != old(proofs) ==> NotUndone()
    {
      hide Valid, BackupName, NoneRuns, NotLaunched, Back;
      ghost var saw := false;
      var replacement :- CreateReplacement(receipt.request.task, transaction.newImage);
      if replacement.None? { r, saw := Rollback(receipt, transaction); return; }
      r := Activate(receipt, transaction.(newId := replacement.value));
    }

    /** The replacement's identity and a fresh nonce go to disk; only then is it started, once. */
    method Activate(receipt: Receipt, transaction: Transaction) returns (r: Step<bool>)
      requires var task := receipt.request.task;
               && Working(receipt) && KnowsOld(task, transaction) && NotLaunched(launches, task)
               && ReleaseOf(transaction.newImage, receipt.request.version) in vetted
               && task in created && created[task] == transaction.newId
               && BoxAt(engine.boxes, TARGET) == Some(Box(transaction.newId, transaction.newImage, false))
      modifies this`mutated, this`starts, this`receipts, this`claims, this`durable, this`takings
      modifies this`transactions, this`draws, this`launches, this`reported, this`documents, this`proofs
      modifies engine, engine.troubles
      ensures Valid()
      ensures launches == old(launches)
              || (|launches| == |old(launches)| + 1 && launches[..|old(launches)|] == old(launches)
                  && launches[|old(launches)|].receipt.request == receipt.request
                  && launches[|old(launches)|].transaction == transaction)
      ensures engine.troubles.Later() && (r.Done? && engine.troubles.Kept() ==> r.value)
      ensures Outcome(receipt.request.task, old(proofs), r.Done? && engine.troubles.Kept(), engine.troubles.Obeyed())
      ensures r.Done? && engine.troubles.Kept() && engine.troubles.Obeyed() && engine.troubles.Timely() ==>
                proofs != old(proofs)
      ensures proofs != old(proofs) ==> NotUndone()
    {
      hide Valid, BackupName, Back;
      var task := receipt.request.task;
      ghost var saw := false;
      var kept :- RecordReplacement(task, transaction);
      if !kept { r, saw := Rollback(receipt, transaction); return; }
      var active :- RecordActivation(receipt, transaction);
      if active.None? { r, saw := Rollback(receipt, transaction); return; }
      r := Run(active.value, transaction);
    }

    method RecordReplacement(task: TaskId, transaction: Transaction) returns (r: Step<bool>)
      requires Swapping(task) && KnowsOld(task, transaction)
      modifies this`transactions, engine.troubles
      ensures Swapping(task) && KnowsOld(task, transaction)
      ensures r == Done(true) ==> transactions[task] == transaction
      ensures engine.troubles.Later() && engine.troubles.Obeyed() && (r == Done(false) ==> !engine.troubles.Kept())
    {
      hide DocumentsOk, TouchedOk, ClaimsOk, StopsOk, AskedOk, IssuesOk, LaunchesOk, TakingsOk, OneRuns, OnlyBeside,
           Occupied, BackupName, Retained, Recorded;
      r := WriteTransaction(task, transaction);
    }

    /** The activated receipt, with a nonce drawn for it, or nothing if either could not be had. */
    method RecordActivation(receipt: Receipt, transaction: Transaction) returns (r: Step<Option<Receipt>>)
      requires Working(receipt) && KnowsOld(receipt.request.task, transaction)
      modifies this`draws, this`receipts, this`claims, this`durable, engine.troubles
      ensures Working(receipt)
      ensures r.Done? && r.value.Some? ==>
                var active := r.value.value;
                && active.request == receipt.request && active.phase.Activated?
                && receipts[receipt.request.task] == active
                && Draw(receipt.request.task, active.nonce) in draws
      ensures engine.troubles.Later()
      ensures r == Done(None) ==> !engine.troubles.Kept() || !engine.troubles.Obeyed()
    {
      hide DocumentsOk, TouchedOk, ClaimsOk, StopsOk, AskedOk, IssuesOk, LaunchesOk, TakingsOk, OneRuns, OnlyBeside,
           Occupied, BackupName, Retained;
      var task := receipt.request.task;
      DocumentHeld(receipts, transactions, task);
      WasAsked(asked, receipts, stops, task);
      var nonce :- RandomNonce(task);
      if nonce.None? { return Done(None); }
      var active := receipt.(nonce := nonce.value, phase := Activated);
      var written :- WriteReceipt(active, -1);
      return Done(if written then Some(active) else None);
    }

    /** The one start of a task's replacement. */
    method IssueReplacement(task: TaskId) returns (r: Step<bool>)
      requires Swapping(task) && NotLaunched(launches, task) && task in created && task in transactions
      requires transactions[task].newId == created[task]
      requires receipts[task].phase.Activated? && Draw(task, receipts[task].nonce) in draws
      requires ReleaseOf(transactions[task].newImage, receipts[task].request.version) in vetted
      requires BoxAt(engine.boxes, TARGET) == Some(Box(created[task], transactions[task].newImage, false))
      modifies this`mutated, this`launches, engine, engine.troubles
      ensures Swapping(task)
      ensures launches == old(launches) + [Launch(receipts[task], transactions[task], old(BoxAt(engine.boxes, TARGET)))]
      ensures engine.troubles.Later() && engine.troubles.Kept() && (r == Done(false) ==> !engine.troubles.Obeyed())
    {
      hide Counter.Valid, Engine.Valid, DocumentsOk, TouchedOk, ClaimsOk, StopsOk, AskedOk, IssuesOk, LaunchesOk,
           TakingsOk, OneRuns, OnlyBeside, BackupName, NotLaunched, Occupied, Retained;
      TouchMore(receipts, claims, mutated, created, documents, stops, counter.readings, durable, vetted, task);
      ReceiptNamesTask(receipts, transactions, task);
      ghost var launch := Launch(receipts[task], transactions[task], BoxAt(engine.boxes, TARGET));
      LaunchJoins(launches, created, draws, vetted, launch);
      SameHolder(engine.boxes, TARGET, transactions[task], created, task);
      mutated := mutated + {task};
      launches := launches + [launch];
      StartTargetKeeps(engine.boxes);
      r := engine.Start(TARGET);
    }

    /** Starts the replacement, and notes if that was reported done. */
    method StartReplacement(task: TaskId) returns (r: Step<bool>)
      requires Swapping(task) && NotLaunched(launches, task) && task in created && task in transactions
      requires transactions[task].newId == created[task]
      requires receipts[task].phase.Activated? && Draw(task, receipts[task].nonce) in draws
      requires ReleaseOf(transactions[task].newImage, receipts[task].request.version) in vetted
      requires BoxAt(engine.boxes, TARGET) == Some(Box(created[task], transactions[task].newImage, false))
      modifies this`mutated, this`launches, this`reported, engine, engine.troubles
      ensures Swapping(task)
      ensures launches == old(launches) + [Launch(receipts[task], transactions[task], old(BoxAt(engine.boxes, TARGET)))]
      ensures engine.troubles.Later() && engine.troubles.Kept() && (r == Done(false) ==> !engine.troubles.Obeyed())
      ensures r == Done(true) ==> task in reported
    {
      hide Valid, NotLaunched;
      r := IssueReplacement(task);
      if r == Done(true) { Report(task); }
    }

    ghost method Report(task: TaskId)
      requires Swapping(task)
      modifies this`reported
      ensures Swapping(task) && reported == old(reported) + {task}
    {
      hide Counter.Valid, Engine.Valid, DocumentsOk, TouchedOk, ClaimsOk, StopsOk, AskedOk, IssuesOk, LaunchesOk,
           TakingsOk, OneRuns, TurnOk, BackupName;
      reported := reported + {task};
    }

    /**
      * Starts the replacement and waits for its proof. Proven, it stays, and success is on disk before
      * anything is cleaned up; otherwise the old container comes back.
      */
    method Run(active: Receipt, transaction: Transaction) returns (r: Step<bool>)
      requires var task := active.request.task;
               && Swapping(task) && KnowsOld(task, transaction) && NotLaunched(launches, task)
               && transactions[task] == transaction
               && task in created && created[task] == transaction.newId
               && BoxAt(engine.boxes, TARGET) == Some(Box(transaction.newId, transaction.newImage, false))
               && ReleaseOf(transaction.newImage, active.request.version) in vetted
               && receipts[task] == active && active.phase.Activated? && Draw(task, active.nonce) in draws
      modifies this`mutated, this`starts, this`receipts, this`claims, this`durable, this`takings
      modifies this`launches, this`reported, this`documents, this`proofs, engine, engine.troubles
      ensures Valid()
      ensures launches == old(launches) + [Launch(active, transaction, old(BoxAt(engine.boxes, TARGET)))]
      ensures engine.troubles.Later() && (r.Done? && engine.troubles.Kept() ==> r.value)
      ensures Outcome(active.request.task, old(proofs), r.Done? && engine.troubles.Kept(), engine.troubles.Obeyed())
      ensures r.Done? && engine.troubles.Kept() && engine.troubles.Obeyed() && engine.troubles.Timely() ==>
                proofs != old(proofs)
      ensures proofs != old(proofs) ==> NotUndone()
    {
      hide Valid, BackupName, Back, Recorded, NotLaunched, Upheld, Answers, InVain;
      var task := active.request.task;
      ghost var saw, polls := false, [];
      var started :- StartReplacement(task);
      if !started { r, saw := Rollback(active, transaction); return; }
      var ready;
      ready, polls :- WaitReady(active, transaction);
      if ready.None? { r, saw := Rollback(active, transaction); return; }
      r := Succeed(active, transaction, ready.value);
    }

    /**
      * Success means the recorded container and image, running under the target name, and this
      * activation's document. Nothing that proved itself is undone.
      */
    method Succeed(active: Receipt, transaction: Transaction, ready: Ready) returns (r: Step<bool>)
      requires var task := active.request.task;
               && Working(active) && KnowsOld(task, transaction) && transactions[task] == transaction
               && receipts[task] == active && active.phase.Activated?
               && |documents| > 0 && documents[|documents| - 1] == ready && Answers(ready, active)
               && |proofs| > 0 && proofs[|proofs| - 1] == ready
               && TARGET in engine.boxes && engine.boxes[TARGET] == Box(transaction.newId, transaction.newImage, true)
      modifies this`receipts, this`claims, this`durable, this`mutated, engine, engine.troubles
      ensures Valid() && engine.troubles.Later() && (r.Done? && engine.troubles.Kept() ==> r.value)
      ensures Upheld(active.request.task, r.Done? && engine.troubles.Kept())
    {
      hide DocumentsOk, TouchedOk, ClaimsOk, StopsOk, AskedOk, IssuesOk, LaunchesOk, TakingsOk, OneRuns, OnlyBeside,
           Occupied, BackupName, Retained, Recorded;
      var task := active.request.task;
      WasAsked(asked, receipts, stops, task);
      var written :- WriteReceipt(active.(phase := Succeeded, binary := ready.binary), |documents| - 1);
      if !written { return Done(false); }
      r := RemoveBackup(task);
    }

    method RemoveBackup(task: TaskId) returns (r: Step<bool>)
      requires Valid() && turn == task && task in receipts && receipts[task].phase.Succeeded?
      modifies this`mutated, engine, engine.troubles
      ensures Valid() && BoxAt(engine.boxes, TARGET) == old(BoxAt(engine.boxes, TARGET))
      ensures engine.troubles.Later() && engine.troubles.Kept() && (r.Done? ==> r.value)
    {
      hide DocumentsOk, TouchedOk, ClaimsOk, StopsOk, AskedOk, IssuesOk, LaunchesOk, TakingsOk, OneRuns, OnlyBeside,
           Occupied, Retained, BackupName;
      TouchMore(receipts, claims, mutated, created, documents, stops, counter.readings, durable, vetted, task);
      mutated := mutated + {task};
      RemoveKeeps(engine.boxes, BackupName(task));
      BackupIsNotTarget(task);
      var removal :- engine.Remove(BackupName(task), false);
      return Done(true);
    }

    // ---------------------------------------------------------------------- requests

    /** The request names the task its receipt is about, as it was. */
    predicate Conforms(request: Request) reads this {
      request.task in receipts ==>
        var prior := receipts[request.task].request;
        SameTask(prior, request) && prior.version == request.version && prior.expected == request.expected
    }

    /**
      * What a pass over a new task comes to, once it is over: if nothing stood in its way it succeeds,
      * unless its replacement did not prove itself in time, the name its old container would keep is
      * taken, or it was too late.
      */
    ghost predicate Settled(request: Request, before: seq<Ready>,
                            kept: bool, unhindered: bool, able: bool, late: bool)
      reads this, engine
    {
      && (proofs != before ==> Upheld(request.task, kept))
      && (kept ==>
            && request.task in receipts && Final(receipts[request.task].phase)
            && (receipts[request.task].phase.Succeeded? <==> proofs != before)
            && (unhindered && proofs == before ==>
                  || (receipts[request.task].phase.Failed? && Back(request.task) && !able)
                  || (Refused(request) && late)))
    }

    /** A task without a receipt is prepared and swapped, or refused. */
    method Begin(request: Request) returns (r: Step<bool>)
      requires Valid() && turn == request.task && request.task !in receipts && Current(request)
      modifies this, engine, counter, engine.troubles
      ensures Valid() && slot == old(slot) && turn == old(turn) && asked == old(asked) && Own(request)
      ensures engine.troubles.Later()
      ensures stops == old(stops) || (|stops| == |old(stops)| + 1 && old(stops) <= stops
                                      && stops[|old(stops)|].request == request)
      ensures proofs != old(proofs) ==> NotUndone()
      ensures Settled(request, old(proofs), r.Done? && engine.troubles.Kept(), engine.troubles.Unhindered(),
                      engine.troubles.Timely() && old(Free(request.task)), Late(request))
    {
      hide Valid, Back, Planned, Free;
      var transaction :- Prepare(request);
      if transaction.None? { return Done(false); }
      r := Swap(request, transaction.value);
      StoppedForIt(|stops| - 1);
    }

    /**
      * One look at the request just read. What is prepared, recorded and stopped for is
      * that request. A task that already has a receipt is only answered, failed or
      * rolled back: nothing is pulled, created or activated for it again, and the agent
      * is not stopped again by the forward path. If every document was read and written the
      * task ends, and a new one ends succeeded exactly if its replacement proved itself.
      */
    method Process(request: Request) returns (r: Step<bool>)
      requires Valid() && turn == request.task && ReadLast(request)
      modifies this, engine, counter, engine.troubles
      ensures Valid() && slot == old(slot) && turn == old(turn) && asked == old(asked) && engine.troubles.Later()
      ensures stops == old(stops) || (|stops| == |old(stops)| + 1 && old(stops) <= stops
                                      && stops[|old(stops)|].request == request)
      ensures request.task !in old(receipts) && request.task in receipts ==> receipts[request.task].request == request
      ensures request.task in old(receipts) ==>
                pulls == old(pulls) && stops == old(stops) && created == old(created) && launches == old(launches)
                && proofs == old(proofs)
      ensures r.Done? && request.parses && old(Conforms(request)) && engine.troubles.Kept() ==>
                request.task in receipts && Final(receipts[request.task].phase)
      ensures proofs != old(proofs) ==> NotUndone()
      ensures request.parses && request.task !in old(receipts) ==>
                Settled(request, old(proofs), r.Done? && engine.troubles.Kept(), engine.troubles.Unhindered(),
                        engine.troubles.Timely() && old(Free(request.task)), Late(request))
    {
      hide Valid, Back, Free;
      if !request.parses { return Done(false); }
      var prior :- ReadReceipt(request.task);
      match prior
      case Unreadable => return Done(false);
      case Absent => r := Begin(request);
      case Found(receipt) => r := Resume(request, receipt);
    }

    lemma StoppedForIt(k: nat)
      requires Valid() && k < |stops|
      ensures stops[k].request.task in receipts && receipts[stops[k].request.task].request == stops[k].request
    {
    }

    /**
      * A final receipt is only answered, a prepared task fails with nothing touched, an unfinished
      * one is rolled back.
      */
    method Resume(request: Request, receipt: Receipt) returns (r: Step<bool>)
      requires Valid() && turn == request.task && Heard(asked, request)
      requires request.task in receipts && receipt == receipts[request.task]
      modifies this`mutated, this`starts, this`receipts, this`claims, this`durable, this`takings
      modifies engine, engine.troubles
      ensures Valid() && engine.troubles.Later()
      ensures Final(receipt.phase) ==> receipts == old(receipts)
      ensures !Active(receipt.phase) ==>
                engine.boxes == old(engine.boxes) && mutated == old(mutated) && starts == old(starts)
      ensures |starts| <= |old(starts)| + 1
      ensures r.Done? && old(Conforms(request)) && engine.troubles.Kept() ==>
                && request.task in receipts && Final(receipts[request.task].phase)
                && (receipt.phase.Prepared? ==> Refused(request))
                && (Active(receipt.phase) && engine.troubles.Obeyed() ==>
                      receipts[request.task].phase.Failed? && Back(request.task))
    {
      hide Valid, Back;
      ReceiptIsOwn(request.task);
      if !SameTask(receipt.request, request) || receipt.request.version != request.version
         || receipt.request.expected != request.expected {
        return Done(false);
      }
      ghost var saw := false;
      match receipt.phase
      case Succeeded => return Done(true);
      case Failed => return Done(true);
      case Indeterminate => return Done(true);
      case Prepared => r := Fail(request);
      case Activating => r, saw := Recover(receipt);
      case Activated => r, saw := Recover(receipt);
      case RollingBack => r, saw := Recover(receipt);
    }

    lemma ReceiptIsOwn(task: TaskId)
      requires Valid() && task in receipts
      ensures receipts[task].request.task == task && (receipts[task].phase.Prepared? ==> task !in mutated)
    {
      hide Counter.Valid, Engine.Valid, ClaimsOk, StopsOk, AskedOk, IssuesOk, LaunchesOk, TakingsOk, OneRuns, TurnOk,
           BackupName;
    }

    /**
      * The agent may replace the request, or take it away; it never brings back a task it replaced
      * unless that task is finished.
      */
    method Arrives()
      requires Valid()
      modifies this`slot, this`turn
      ensures Valid() && (slot.Some? ==> turn == slot.value.task)
    {
      hide Counter.Valid, Engine.Valid, DocumentsOk, TouchedOk, ClaimsOk, StopsOk, AskedOk, IssuesOk, LaunchesOk,
           TakingsOk, OneRuns, OnlyBeside, Occupied, Retained, BackupName;
      var next: Option<Request> := *;
      var comesBack := next.Some? && next.value.task != turn && next.value.task in receipts
                       && !Final(receipts[next.value.task].phase);
      slot := if comesBack then None else next;
      if slot.Some? { turn := slot.value.task; }
    }

    /** Reads whatever request the agent left in the slot; the history holds every one read. */
    method ReadRequest() returns (r: Step<Option<Request>>)
      requires Valid()
      modifies this`slot, this`turn, this`asked, engine.troubles
      ensures Valid() && engine.troubles.Later() && engine.troubles.Unhindered() && engine.troubles.Timely()
      ensures r.Done? && r.value.Some? ==>
                && slot == r.value && turn == r.value.value.task && asked == old(asked) + [r.value.value]
                && engine.troubles.Kept()
      ensures !(r.Done? && r.value.Some?) ==> asked == old(asked)
      ensures r == Done(None) && engine.troubles.Kept() ==> slot.None?
    {
      hide Valid;
      Arrives();
      var alive: bool, readable: bool := *, *;
      if !alive { return Killed; }
      if !readable { engine.troubles.disk := engine.troubles.disk + 1; return Done(None); }
      if slot.None? { return Done(None); }
      Ask(slot.value);
      return Done(slot);
    }

    ghost method Ask(request: Request)
      requires Valid()
      modifies this`asked
      ensures Valid() && asked == old(asked) + [request]
    {
      hide Counter.Valid, Engine.Valid, DocumentsOk, TouchedOk, ClaimsOk, StopsOk, AskedOk, IssuesOk, LaunchesOk,
           TakingsOk, OneRuns, TurnOk, BackupName;
      AskMore(asked, receipts, stops, request);
      asked := asked + [request];
    }

    /**
      * One look at the slot. If every document is read and written, a request found there is worked on
      * until it ends: a new task as `Settled` says, one that has a receipt for good.
      */
    method ProcessCurrent() returns (r: Step<bool>)
      requires Valid()
      modifies this, engine, counter, engine.troubles
      ensures Valid() && old(asked) <= asked && engine.troubles.Later()
      ensures r.Done? && engine.troubles.Kept() && slot.Some? ==> asked == old(asked) + [slot.value]
      ensures |asked| == |old(asked)| + 1 ==>
                var request := asked[|asked| - 1];
                && (request.parses && request.task !in old(receipts) ==>
                      Settled(request, old(proofs), r.Done? && engine.troubles.Kept(), engine.troubles.Unhindered(),
                              engine.troubles.Timely() && old(Free(request.task)), Late(request)))
                && (r.Done? && request.parses && old(Conforms(request)) && engine.troubles.Kept() ==>
                      request.task in receipts && Final(receipts[request.task].phase))
    {
      hide Valid, Back, Upheld, Refused, Final;
      var request :- ReadRequest();
      if request.None? { return Done(false); }
      r := Process(request.value);
    }

    /**
      * Any number of ticks, each of which may kill the helper, which then starts
      * again: whatever the interleaving, at every point at most one agent container
      * is kept running; the forward path stopped the agent at most once for a task,
      * and started its replacement at most once; every final receipt was true when
      * it was written; a rollback only ever removed its own task's replacement; and
      * all of it was for requests that were read from the slot.
      */
    method Serve(ticks: nat)
      requires Valid()
      modifies this, engine, counter, engine.troubles
      ensures OneRuns(engine.boxes) && ClaimsOk(receipts, claims, mutated, documents)
      ensures AskedOk(asked, receipts, stops) && old(asked) <= asked
      ensures StopsOk(stops, mutated, counter.readings, durable, vetted) && Steady(counter.readings)
      ensures LaunchesOk(launches, created, draws, vetted) && TakingsOk(takings, created) && IssuesOk(starts)
    {
      for i := 0 to ticks
        invariant Valid() && old(asked) <= asked
      {
        var outcome := ProcessCurrent();
      }
    }
  }
}
