/** The files, documents and history of an upgrade under systemd, and what every part of it satisfies. */
module SystemdHistory {
  import opened Wrappers
  import opened Requests
  import opened BootCounter

  datatype File = Bin | Version | License | Notice

  type Files = map<File, string>

  const MANAGED: seq<File> := [Bin, Version, License, Notice]

  lemma ManagedIsEverything()
    ensures |MANAGED| == 4 && MANAGED[0] == Bin && MANAGED[1] == Version && MANAGED[2] == License
            && MANAGED[3] == Notice
    ensures forall f: File :: f in MANAGED
  {
    forall f: File ensures f in MANAGED {
      assert f == MANAGED[0] || f == MANAGED[1] || f == MANAGED[2] || f == MANAGED[3];
    }
  }

  predicate Whole(files: Files) {
    forall f: File :: f in files
  }

  lemma KeysMeanWhole(files: Files)
    requires files.Keys == {Bin, Version, License, Notice}
    ensures Whole(files)
  {
    forall f: File ensures f in files {
      match f
      case Bin =>
      case Version =>
      case License =>
      case Notice =>
    }
  }

  lemma SameFiles(a: Files, b: Files)
    requires Whole(a) && Whole(b) && forall j :: 0 <= j < |MANAGED| ==> a[MANAGED[j]] == b[MANAGED[j]]
    ensures a == b
  {
    ManagedIsEverything();
    forall f: File ensures a[f] == b[f] {
      assert f in MANAGED;
    }
  }

  /** What a backup is of: the release it retains, and the one to be installed. */
  datatype Meta = Meta(previous: string, oldDigest: string, newDigest: string)

  /** A task's backup directory; the metadata is written last. */
  datatype Backup = Backup(files: Files, meta: Option<Meta>)

  /** What a task set out from and for: what it found installed, the two binaries, and the request. */
  datatype Aim = Aim(found: Files, meta: Meta, goal: Request)

  datatype Candidate = Candidate(files: Files, digest: string)

  /** A check that passed: of the installed binary, or of a downloaded one, as a release's. */
  datatype Vetted = InstalledAs(binary: string, version: string) | ReleaseOf(binary: string, version: string)

  /** A nonce, and the task it was drawn for. */
  datatype Draw = Draw(task: TaskId, nonce: string)

  /** One look for a target's proof: the document found, and, if it answers, whether its process runs. */
  datatype Poll = Poll(found: Option<Ready>, runs: Option<bool>)

  /** The process is looked at exactly if the document answers. */
  predicate PollOk(poll: Poll, receipt: Receipt) {
    poll.runs.Some? <==> poll.found.Some? && Answers(poll.found.value, receipt)
  }

  /** None of these looks found a proof. */
  predicate InVain(polls: seq<Poll>, receipt: Receipt) {
    forall i :: 0 <= i < |polls| ==> PollOk(polls[i], receipt) && polls[i].runs != Some(true)
  }

  /** The documents some polls found. */
  function Read(polls: seq<Poll>): seq<Ready> {
    if polls == [] then [] else
      Read(polls[..|polls| - 1])
      + if polls[|polls| - 1].found.Some? then [polls[|polls| - 1].found.value] else []
  }

  lemma NoPolls(receipt: Receipt)
    ensures InVain([], receipt) && Read([]) == []
  {
  }

  lemma OneMorePoll(polls: seq<Poll>, poll: Poll, receipt: Receipt)
    requires InVain(polls, receipt) && PollOk(poll, receipt) && poll.runs != Some(true)
    ensures InVain(polls + [poll], receipt)
    ensures Read(polls + [poll]) == Read(polls) + if poll.found.Some? then [poll.found.value] else []
  {
    assert (polls + [poll])[..|polls|] == polls;
  }

  /** A start of the service: for which task, and on which binary. */
  datatype Start = Start(task: TaskId, installed: string)

  /** A forward stop of the service, and the place of the clock reading it went ahead on. */
  datatype Stop = Stop(request: Request, at: nat)

  // ------------------------------------------------------------------ final receipts

  /**
    * What was so when a receipt landed: the files, the last start, the process found running since,
    * and the readiness document.
    */
  datatype Claim = Claim(untouched: bool, files: Files, before: Option<Files>, started: Option<Start>,
                         confirmed: Option<string>, ready: Option<Ready>)

  /** A readiness document about this very activation. */
  predicate Answers(ready: Ready, receipt: Receipt) {
    && |receipt.nonce| == 32 && ready.nonce == receipt.nonce && ready.task == receipt.request.task
    && ready.digest == receipt.request.digest && ready.version == receipt.request.version
    && ready.binary == receipt.binary && ready.wellFormed
  }

  /**
    * The service was last started for this task on the binary that is installed, and its process
    * was found running since.
    */
  predicate RunsOn(claim: Claim, task: TaskId, binary: string) {
    && Bin in claim.files && claim.files[Bin] == binary
    && claim.started == Some(Start(task, binary)) && claim.confirmed == Some(binary)
  }

  predicate Truthful(receipt: Receipt, claim: Claim) {
    match receipt.phase
    case Succeeded =>
      && RunsOn(claim, receipt.request.task, receipt.binary)
      && Version in claim.files && claim.files[Version] == receipt.request.version
      && claim.ready.Some? && Answers(claim.ready.value, receipt)
    case Failed =>
      || claim.untouched
      || (claim.before == Some(claim.files) && Bin in claim.files
          && RunsOn(claim, receipt.request.task, claim.files[Bin]))
    case _ => true
  }

  ghost predicate ReceiptsOk(receipts: map<TaskId, Receipt>, touched: set<TaskId>) {
    && (forall task :: task in receipts ==> receipts[task].request.task == task)
    && (forall task :: task in touched ==> task in receipts && !receipts[task].phase.Prepared?)
  }

  ghost predicate ClaimsOk(receipts: map<TaskId, Receipt>, claims: map<TaskId, Claim>, touched: set<TaskId>,
                           documents: seq<Ready>) {
    forall task :: task in receipts && Final(receipts[task].phase) ==>
      && task in claims && Truthful(receipts[task], claims[task])
      && (receipts[task].phase.Failed? && claims[task].untouched ==> task !in touched)
      && (claims[task].ready.Some? ==> claims[task].ready.value in documents)
  }

  // ---------------------------------------------------------------- starts and stops

  /**
    * Each task's two binaries are the one it found installed, which passed as the release its
    * request expects, and one that passed as the release its request asks for.
    */
  predicate AimOk(aim: Aim, vetted: set<Vetted>) {
    && Whole(aim.found) && aim.meta.oldDigest == aim.found[Bin]
    && aim.meta.previous == aim.found[Version] == aim.goal.expected
    && InstalledAs(aim.meta.oldDigest, aim.goal.expected) in vetted
    && ReleaseOf(aim.meta.newDigest, aim.goal.version) in vetted
  }

  ghost predicate AimsOk(aims: map<TaskId, Aim>, vetted: set<Vetted>) {
    forall task :: task in aims ==> AimOk(aims[task], vetted)
  }

  /** The phases that say the task's two binaries were fixed. */
  predicate Begun(phase: Phase) {
    phase.Prepared? || Active(phase) || phase.Succeeded?
  }

  /**
    * Every receipt is about a request that was read; one that tells of an activation holds a nonce
    * drawn for it; and what was begun, stopped or started for a task was for the request its
    * receipt holds, for which its two binaries were fixed.
    */
  ghost predicate AskedOk(asked: seq<Request>, draws: set<Draw>, aims: map<TaskId, Aim>,
                          receipts: map<TaskId, Receipt>, stops: seq<Stop>, starts: seq<Start>) {
    && (forall task :: task in receipts ==> ReceiptAsked(asked, draws, aims, receipts[task], task))
    && (forall i :: 0 <= i < |stops| ==>
          Aimed(aims, receipts, stops[i].request.task) && stops[i].request == aims[stops[i].request.task].goal)
    && (forall i :: 0 <= i < |starts| ==> Aimed(aims, receipts, starts[i].task))
  }

  ghost predicate ReceiptAsked(asked: seq<Request>, draws: set<Draw>, aims: map<TaskId, Aim>, receipt: Receipt,
                               task: TaskId) {
    && Heard(asked, receipt.request)
    && (receipt.phase.Activated? || receipt.phase.Succeeded? ==> Draw(task, receipt.nonce) in draws)
    && (Begun(receipt.phase) ==> task in aims && receipt.request == aims[task].goal)
  }

  ghost predicate Aimed(aims: map<TaskId, Aim>, receipts: map<TaskId, Receipt>, task: TaskId) {
    task in receipts && task in aims && receipts[task].request == aims[task].goal
  }

  lemma AskMore(asked: seq<Request>, draws: set<Draw>, aims: map<TaskId, Aim>, receipts: map<TaskId, Receipt>,
                stops: seq<Stop>, starts: seq<Start>, request: Request)
    requires AskedOk(asked, draws, aims, receipts, stops, starts)
    ensures AskedOk(asked + [request], draws, aims, receipts, stops, starts)
  {
  }

  lemma DrawMore(asked: seq<Request>, draws: set<Draw>, aims: map<TaskId, Aim>, receipts: map<TaskId, Receipt>,
                 stops: seq<Stop>, starts: seq<Start>, draw: Draw)
    requires AskedOk(asked, draws, aims, receipts, stops, starts)
    ensures AskedOk(asked, draws + {draw}, aims, receipts, stops, starts)
  {
  }

  /** A task without a receipt may be given another goal. */
  lemma AimMore(asked: seq<Request>, draws: set<Draw>, aims: map<TaskId, Aim>, receipts: map<TaskId, Receipt>,
                stops: seq<Stop>, starts: seq<Start>, task: TaskId, aim: Aim)
    requires AskedOk(asked, draws, aims, receipts, stops, starts) && task !in receipts
    ensures AskedOk(asked, draws, aims[task := aim], receipts, stops, starts)
  {
  }

  /** A task's receipts are all about one request. */
  lemma ReceiptIsAsked(asked: seq<Request>, draws: set<Draw>, aims: map<TaskId, Aim>,
                       receipts: map<TaskId, Receipt>, stops: seq<Stop>, starts: seq<Start>, task: TaskId,
                       receipt: Receipt)
    requires AskedOk(asked, draws, aims, receipts, stops, starts) && ReceiptAsked(asked, draws, aims, receipt, task)
    requires task in receipts ==> receipts[task].request == receipt.request
    ensures AskedOk(asked, draws, aims, receipts[task := receipt], stops, starts)
  {
    hide ReceiptAsked;
  }

  lemma StopIsAsked(asked: seq<Request>, draws: set<Draw>, aims: map<TaskId, Aim>, receipts: map<TaskId, Receipt>,
                    stops: seq<Stop>, starts: seq<Start>, stop: Stop)
    requires AskedOk(asked, draws, aims, receipts, stops, starts)
    requires Aimed(aims, receipts, stop.request.task) && stop.request == aims[stop.request.task].goal
    ensures AskedOk(asked, draws, aims, receipts, stops + [stop], starts)
  {
    hide ReceiptAsked;
  }

  lemma StartIsAsked(asked: seq<Request>, draws: set<Draw>, aims: map<TaskId, Aim>, receipts: map<TaskId, Receipt>,
                     stops: seq<Stop>, starts: seq<Start>, start: Start)
    requires AskedOk(asked, draws, aims, receipts, stops, starts) && Aimed(aims, receipts, start.task)
    ensures AskedOk(asked, draws, aims, receipts, stops, starts + [start])
  {
    hide ReceiptAsked;
  }

  lemma WasAsked(asked: seq<Request>, draws: set<Draw>, aims: map<TaskId, Aim>, receipts: map<TaskId, Receipt>,
                 stops: seq<Stop>, starts: seq<Start>, task: TaskId)
    requires AskedOk(asked, draws, aims, receipts, stops, starts) && task in receipts
    ensures Heard(asked, receipts[task].request) && (Begun(receipts[task].phase) ==> Aimed(aims, receipts, task))
  {
  }

  /** Every stop was for a request that was read. */
  lemma StopsWereAsked(asked: seq<Request>, draws: set<Draw>, aims: map<TaskId, Aim>,
                       receipts: map<TaskId, Receipt>, stops: seq<Stop>, starts: seq<Start>, k: nat)
    requires AskedOk(asked, draws, aims, receipts, stops, starts) && k < |stops|
    ensures Heard(asked, stops[k].request)
  {
    assert Aimed(aims, receipts, stops[k].request.task);
  }

  /** The service was only ever started on a binary its task found installed or that was verified for it. */
  ghost predicate StartsOk(starts: seq<Start>, receipts: map<TaskId, Receipt>, aims: map<TaskId, Aim>) {
    forall i :: 0 <= i < |starts| ==>
      && starts[i].task in receipts && starts[i].task in aims
      && (starts[i].installed == aims[starts[i].task].meta.oldDigest
          || starts[i].installed == aims[starts[i].task].meta.newDigest)
  }

  /**
    * The service was stopped to begin a task at most once, on a permitting reading taken after its
    * receipt was on disk.
    */
  ghost predicate StopsOk(stops: seq<Stop>, touched: set<TaskId>, readings: seq<Clock>, durable: map<TaskId, nat>) {
    && (forall i :: 0 <= i < |stops| ==>
          var task := stops[i].request.task;
          task in touched && task in durable && durable[task] <= stops[i].at
          && Allows(readings, stops[i].at, stops[i].request))
    && (forall i, j :: 0 <= i < j < |stops| ==> stops[i].request.task != stops[j].request.task)
  }

  lemma StartJoins(starts: seq<Start>, receipts: map<TaskId, Receipt>, aims: map<TaskId, Aim>, task: TaskId,
                   installed: string)
    requires StartsOk(starts, receipts, aims) && task in receipts && task in aims
    requires installed == aims[task].meta.oldDigest || installed == aims[task].meta.newDigest
    ensures StartsOk(starts + [Start(task, installed)], receipts, aims)
  {
  }

  lemma StopJoins(stops: seq<Stop>, touched: set<TaskId>, readings: seq<Clock>, durable: map<TaskId, nat>,
                  request: Request)
    requires StopsOk(stops, touched, readings, durable) && request.task !in touched
    requires request.task in durable && durable[request.task] < |readings| && Allows(readings, |readings| - 1, request)
    ensures StopsOk(stops + [Stop(request, |readings| - 1)], touched + {request.task}, readings, durable)
  {
  }

  lemma LaterReadings(stops: seq<Stop>, touched: set<TaskId>, readings: seq<Clock>, more: seq<Clock>,
                      durable: map<TaskId, nat>)
    requires StopsOk(stops, touched, readings, durable) && readings <= more
    ensures StopsOk(stops, touched, more, durable)
  {
  }

  lemma TouchMore(receipts: map<TaskId, Receipt>, claims: map<TaskId, Claim>, touched: set<TaskId>,
                  documents: seq<Ready>, stops: seq<Stop>, readings: seq<Clock>, durable: map<TaskId, nat>,
                  task: TaskId)
    requires ReceiptsOk(receipts, touched) && ClaimsOk(receipts, claims, touched, documents)
    requires StopsOk(stops, touched, readings, durable) && task in receipts && Active(receipts[task].phase)
    ensures ReceiptsOk(receipts, touched + {task}) && ClaimsOk(receipts, claims, touched + {task}, documents)
    ensures StopsOk(stops, touched + {task}, readings, durable)
  {
  }

  // ------------------------------------------------------------------------- backups

  predicate CanBePruned(receipts: map<TaskId, Receipt>, task: TaskId) {
    task in receipts && (receipts[task].phase.Succeeded? || receipts[task].phase.Failed?)
  }

  /** The metadata, where there is any, speaks for a complete copy of what the task found. */
  predicate Honest(backup: Backup, before: Files) {
    backup.meta.Some? ==>
      && backup.files == before && Whole(before)
      && backup.meta.value.oldDigest == before[Bin] && backup.meta.value.previous == before[Version]
  }

  ghost predicate AllHonest(backups: map<TaskId, Backup>, aims: map<TaskId, Aim>) {
    forall task :: task in backups && backups[task].meta.Some? ==>
                     task in aims && Honest(backups[task], aims[task].found)
  }

  /** A backup is honest unless its removal was begun, which takes the binary first. */
  ghost predicate BackupsOk(receipts: map<TaskId, Receipt>, backups: map<TaskId, Backup>, aims: map<TaskId, Aim>,
                            pruning: set<TaskId>) {
    && (forall task :: task in backups ==> task in receipts && task in aims)
    && (forall task :: task in backups && backups[task].meta.Some? ==> backups[task].meta.value == aims[task].meta)
    && (forall task :: task in backups && task !in pruning ==> Honest(backups[task], aims[task].found))
    && (forall task :: task in pruning ==> CanBePruned(receipts, task))
    && (forall task :: task in pruning && task in backups ==> Bin !in backups[task].files)
  }

  /** Metadata has spoken true at every point so far exactly if nothing was ever pruned. */
  ghost predicate PruningOk(always: bool, removals: nat, crowded: nat, pruning: set<TaskId>) {
    (always <==> removals == 0) && (removals == 0 ==> pruning == {}) && (crowded == 0 ==> removals == 0)
  }

  /** In any reachable state, all metadata is honest exactly when every removal begun has got as far as the metadata. */
  lemma HonestNowExactly(receipts: map<TaskId, Receipt>, backups: map<TaskId, Backup>, aims: map<TaskId, Aim>,
                         pruning: set<TaskId>)
    requires BackupsOk(receipts, backups, aims, pruning)
    ensures AllHonest(backups, aims) <==> forall task :: task in pruning && task in backups ==>
                                                             backups[task].meta.None?
  {
    if AllHonest(backups, aims) {
      forall task | task in pruning && task in backups ensures backups[task].meta.None? {
        assert Bin !in backups[task].files;
      }
    }
  }

  /** As long as nothing was pruned, looking at all the metadata again finds it true. */
  lemma StillHonest(receipts: map<TaskId, Receipt>, backups: map<TaskId, Backup>, aims: map<TaskId, Aim>,
                    pruning: set<TaskId>, always: bool, removals: nat, crowded: nat)
    requires BackupsOk(receipts, backups, aims, pruning) && PruningOk(always, removals, crowded, pruning)
    ensures always ==> AllHonest(backups, aims)
  {
  }

  /** A backup part-way through its removal: the binary goes first, the metadata last. */
  function Pruned(backup: Backup, k: nat): Backup
    requires k <= 5
  {
    Backup(backup.files - (set j | 0 <= j < k && j < 4 :: MANAGED[j]), if k < 5 then backup.meta else None)
  }

  /**
    * The metadata of a backup being removed speaks for a complete copy only before the first
    * removal and after the last.
    */
  lemma PrunedIsHonestExactly(backup: Backup, before: Files, k: nat)
    requires k <= 5 && backup.meta.Some? && Honest(backup, before)
    ensures Honest(Pruned(backup, k), before) <==> k == 0 || k == 5
    ensures k > 0 ==> Bin !in Pruned(backup, k).files
  {
    if k == 0 {
      assert Pruned(backup, 0).files == backup.files;
    } else {
      assert Bin == MANAGED[0];
      assert Bin !in Pruned(backup, k).files;
    }
  }

  /**
    * At every point of pruning all but the last two of these, what each one's metadata says is true
    * exactly when there is nothing to prune.
    */
  lemma PruningIsHonestExactly(backups: seq<Backup>, before: seq<Files>)
    requires |before| == |backups|
    requires forall i :: 0 <= i < |backups| ==> backups[i].meta.Some? && Honest(backups[i], before[i])
    ensures (forall i, k: nat :: 0 <= i < |backups| - 2 && k <= 5 ==> Honest(Pruned(backups[i], k), before[i]))
            <==> |backups| <= 2
  {
    if |backups| > 2 {
      PrunedIsHonestExactly(backups[0], before[0], 1);
    }
  }

  /** One removal into the pruning of a complete backup, the metadata still names a binary that is gone. */
  lemma InterruptedPruningLies()
    ensures var files := map[Bin := "old", Version := "1.0.0", License := "l", Notice := "n"];
            var backup := Backup(files, Some(Meta("1.0.0", "old", "new")));
            Honest(backup, files) && Pruned(backup, 1).meta.Some? && !Honest(Pruned(backup, 1), files)
  {
    var files: Files := map[Bin := "old", Version := "1.0.0", License := "l", Notice := "n"];
    KeysMeanWhole(files);
    PrunedIsHonestExactly(Backup(files, Some(Meta("1.0.0", "old", "new"))), files, 1);
  }

  ghost function First(tasks: seq<TaskId>, n: nat): set<TaskId>
    requires n <= |tasks|
  {
    set j | 0 <= j < n :: tasks[j]
  }

  /** All but the last two. */
  ghost function Surplus(tasks: seq<TaskId>): set<TaskId> {
    First(tasks, if |tasks| > 2 then |tasks| - 2 else 0)
  }

  /** A finished task's backup, with its metadata and all four files. */
  predicate CompleteIn(receipts: map<TaskId, Receipt>, backups: map<TaskId, Backup>, task: TaskId) {
    && CanBePruned(receipts, task) && task in backups && backups[task].meta.Some?
    && backups[task].meta.value.previous == receipts[task].request.expected
    && backups[task].files.Keys == {Bin, Version, License, Notice}
  }

  /** Every complete backup of another finished task is among these, but for those still to be looked at. */
  ghost predicate AllAmong(receipts: map<TaskId, Receipt>, backups: map<TaskId, Backup>, current: TaskId,
                           left: set<TaskId>, tasks: seq<TaskId>) {
    forall task :: task !in left && task != current && CompleteIn(receipts, backups, task) ==> task in tasks
  }

  /** What is left of the complete backups are the last two. */
  lemma LeftAreLatest(receipts: map<TaskId, Receipt>, backups: map<TaskId, Backup>, current: TaskId,
                      found: seq<TaskId>)
    requires AllAmong(receipts, backups, current, {}, found)
    ensures AllAmong(receipts, backups - Surplus(found), current, {}, Latest(found))
  {
    hide CanBePruned;
    forall task | task != current && CompleteIn(receipts, backups - Surplus(found), task)
      ensures task in Latest(found)
    {
      assert CompleteIn(receipts, backups, task);
      NotSurplus(found, task);
    }
  }

  /** The two tasks at the end of a list, which are kept. */
  ghost function Latest(tasks: seq<TaskId>): seq<TaskId> {
    if |tasks| <= 2 then tasks else tasks[|tasks| - 2..]
  }

  lemma NotSurplus(tasks: seq<TaskId>, task: TaskId)
    requires task in tasks && task !in Surplus(tasks)
    ensures task in Latest(tasks)
  {
    var i :| 0 <= i < |tasks| && tasks[i] == task;
    if |tasks| > 2 && i >= |tasks| - 2 {
      assert tasks[|tasks| - 2..][i - (|tasks| - 2)] == task;
    }
  }

  lemma OneMore(tasks: seq<TaskId>, i: nat)
    requires i + 2 < |tasks|
    ensures First(tasks, i + 1) == First(tasks, i) + {tasks[i]} <= Surplus(tasks)
  {
  }

  lemma OnlyWithin(now: map<TaskId, Backup>, then0: map<TaskId, Backup>, gone: set<TaskId>, task: TaskId,
                   surplus: set<TaskId>)
    requires now - {task} == (then0 - gone) - {task} && gone + {task} <= surplus
    ensures now - surplus == then0 - surplus
  {
    assert now - surplus == (now - {task}) - surplus;
  }

  /** A backup of an unfinished task changes while it is being made. */
  lemma BackupGrows(receipts: map<TaskId, Receipt>, backups: map<TaskId, Backup>, aims: map<TaskId, Aim>,
                    pruning: set<TaskId>, task: TaskId, backup: Backup)
    requires BackupsOk(receipts, backups, aims, pruning) && task in receipts && task in aims
    requires task !in pruning && Honest(backup, aims[task].found)
             && (backup.meta.Some? ==> backup.meta.value == aims[task].meta)
    ensures BackupsOk(receipts, backups[task := backup], aims, pruning)
  {
  }

  /** A file of a finished task's complete backup, or a further one of a backup being removed, is gone. */
  lemma BackupShrinks(receipts: map<TaskId, Receipt>, backups: map<TaskId, Backup>, aims: map<TaskId, Aim>,
                      pruning: set<TaskId>, task: TaskId, whole: Backup, k: nat)
    requires BackupsOk(receipts, backups, aims, pruning) && CanBePruned(receipts, task) && task in backups
             && k < 5
    requires whole.meta == Some(aims[task].meta) && Honest(whole, aims[task].found)
    ensures BackupsOk(receipts, backups[task := Pruned(whole, k + 1)], aims, pruning + {task})
    ensures BackupsOk(receipts, backups - {task}, aims, pruning + {task})
    ensures k == 0 ==> !AllHonest(backups[task := Pruned(whole, 1)], aims)
  {
    PrunedIsHonestExactly(whole, aims[task].found, k + 1);
    if k == 0 {
      var after := backups[task := Pruned(whole, 1)];
      assert task in after && after[task].meta.Some? && !Honest(after[task], aims[task].found);
    }
  }

  lemma FileRemoved(receipts: map<TaskId, Receipt>, backups: map<TaskId, Backup>, next: map<TaskId, Backup>,
                    aims: map<TaskId, Aim>, pruning: set<TaskId>, task: TaskId, whole: Backup, k: nat,
                    always: bool, removals: nat, crowded: nat)
    requires BackupsOk(receipts, backups, aims, pruning) && CanBePruned(receipts, task) && task in backups
             && k < 5
    requires whole.meta == Some(aims[task].meta) && Honest(whole, aims[task].found)
             && next == backups[task := Pruned(whole, k + 1)]
    requires PruningOk(always, removals, crowded, pruning) && crowded > 0 && (k > 0 ==> removals > 0)
    ensures BackupsOk(receipts, next, aims, pruning + {task})
    ensures PruningOk(always && AllHonest(next, aims), removals + 1, crowded, pruning + {task})
  {
    hide BackupsOk, AllHonest, Pruned, Honest, CanBePruned;
    BackupShrinks(receipts, backups, aims, pruning, task, whole, k);
  }

  lemma BackupGone(receipts: map<TaskId, Receipt>, backups: map<TaskId, Backup>, aims: map<TaskId, Aim>,
                   pruning: set<TaskId>, task: TaskId)
    requires BackupsOk(receipts, backups, aims, pruning)
    ensures BackupsOk(receipts, backups - {task}, aims, pruning)
  {
  }

  /** A task not heard of before may be looked at: nothing recorded so far is about it. */
  lemma FirstLook(receipts: map<TaskId, Receipt>, backups: map<TaskId, Backup>, aims: map<TaskId, Aim>,
                  pruning: set<TaskId>, vetted: set<Vetted>, starts: seq<Start>, task: TaskId, aim: Aim)
    requires BackupsOk(receipts, backups, aims, pruning) && AimsOk(aims, vetted)
    requires StartsOk(starts, receipts, aims) && task !in receipts && AimOk(aim, vetted)
    ensures BackupsOk(receipts, backups, aims[task := aim], pruning)
    ensures AimsOk(aims[task := aim], vetted)
    ensures StartsOk(starts, receipts, aims[task := aim])
  {
    hide AimOk;
  }

  /** A backup with everything in it is not being removed, so its metadata speaks true. */
  lemma CompleteIsHonest(receipts: map<TaskId, Receipt>, backups: map<TaskId, Backup>, aims: map<TaskId, Aim>,
                         pruning: set<TaskId>, task: TaskId)
    requires BackupsOk(receipts, backups, aims, pruning) && task in backups && backups[task].meta.Some?
    requires backups[task].files.Keys == {Bin, Version, License, Notice}
    ensures task in aims && Honest(backups[task], aims[task].found)
            && backups[task].meta == Some(aims[task].meta)
  {
    assert Bin in backups[task].files.Keys;
  }

  lemma UnfinishedIsNotPruned(receipts: map<TaskId, Receipt>, backups: map<TaskId, Backup>, aims: map<TaskId, Aim>,
                              pruning: set<TaskId>, task: TaskId)
    requires BackupsOk(receipts, backups, aims, pruning) && task in receipts && !Final(receipts[task].phase)
    ensures task !in pruning
  {
  }

  lemma VettedMore(aims: map<TaskId, Aim>, vetted: set<Vetted>, what: Vetted)
    requires AimsOk(aims, vetted)
    ensures AimsOk(aims, vetted + {what})
  {
  }

  lemma ReadMore(receipts: map<TaskId, Receipt>, claims: map<TaskId, Claim>, touched: set<TaskId>,
                 documents: seq<Ready>, ready: Ready)
    requires ClaimsOk(receipts, claims, touched, documents)
    ensures ClaimsOk(receipts, claims, touched, documents + [ready])
  {
  }

  lemma DurableFrom(stops: seq<Stop>, touched: set<TaskId>, readings: seq<Clock>, durable: map<TaskId, nat>,
                    task: TaskId, from: nat)
    requires StopsOk(stops, touched, readings, durable) && task !in touched
    ensures StopsOk(stops, touched, readings, durable[task := from])
  {
  }

  lemma ReceiptLands(receipts: map<TaskId, Receipt>, claims: map<TaskId, Claim>, touched: set<TaskId>,
                     documents: seq<Ready>, starts: seq<Start>, backups: map<TaskId, Backup>,
                     aims: map<TaskId, Aim>, pruning: set<TaskId>, task: TaskId, receipt: Receipt, claim: Claim)
    requires ReceiptsOk(receipts, touched) && ClaimsOk(receipts, claims, touched, documents)
    requires StartsOk(starts, receipts, aims) && BackupsOk(receipts, backups, aims, pruning)
    requires receipt.request.task == task && (receipt.phase.Prepared? || claim.untouched ==> task !in touched)
             && Truthful(receipt, claim)
    requires claim.ready.Some? ==> claim.ready.value in documents
    requires task in receipts ==> !Final(receipts[task].phase)
    ensures ReceiptsOk(receipts[task := receipt], touched)
    ensures ClaimsOk(receipts[task := receipt], claims[task := claim], touched, documents)
    ensures StartsOk(starts, receipts[task := receipt], aims)
    ensures BackupsOk(receipts[task := receipt], backups, aims, pruning)
  {
  }

  /** The backup of an unfinished task, once it has metadata, is complete and about this task's two binaries. */
  lemma BackupIsHonest(receipts: map<TaskId, Receipt>, backups: map<TaskId, Backup>, aims: map<TaskId, Aim>,
                       pruning: set<TaskId>, task: TaskId)
    requires BackupsOk(receipts, backups, aims, pruning) && task in backups && backups[task].meta.Some?
    requires task in receipts && !Final(receipts[task].phase)
    ensures task in aims && Honest(backups[task], aims[task].found)
            && backups[task].meta == Some(aims[task].meta)
  {
  }
}
