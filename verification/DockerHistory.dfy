/** What a Docker helper has done so far, and what every part of that history satisfies. */
module DockerHistory {
  import opened Wrappers
  import opened Requests
  import opened BootCounter
  import opened DockerSwap

  /** A check that passed: of a container as the agent at a version, or of an image as the release of one. */
  datatype Vetted = AgentOf(container: Id, version: string) | ReleaseOf(image: Id, version: string)

  /** A nonce, and the task it was drawn for. */
  datatype Draw = Draw(task: TaskId, nonce: string)

  /** A forward stop of the running agent: of which container, and on which clock reading it went ahead. */
  datatype Stop = Stop(request: Request, at: nat, target: Id)

  /** A start a rollback issued: under which name, and what held the target name then. */
  datatype Issue = Issue(task: TaskId, name: Name, target: Option<Id>)

  /** A start of a replacement: what was on disk about it, and what held the target name then. */
  datatype Launch = Launch(receipt: Receipt, transaction: Transaction, target: Option<Box>)

  /** A removal asked of the target name, and what held it then. */
  datatype Taking = Taking(task: TaskId, target: Option<Id>, force: bool)

  /** One look for a replacement's proof: the document found, and, if it answers, what holds the target name. */
  datatype Poll = Poll(found: Option<Ready>, seen: Option<Seen>)

  /** The target name is looked at exactly if the document answers. */
  predicate PollOk(poll: Poll, receipt: Receipt) {
    poll.seen.Some? <==> poll.found.Some? && Answers(poll.found.value, receipt)
  }

  /** The document answers, and the very container runs. */
  predicate Proves(poll: Poll, receipt: Receipt, transaction: Transaction) {
    && poll.found.Some? && Answers(poll.found.value, receipt)
    && poll.seen == Some(Seen(transaction.newId, transaction.newImage, true))
  }

  /** None of these looks found a proof. */
  predicate InVain(polls: seq<Poll>, receipt: Receipt, transaction: Transaction) {
    forall i :: 0 <= i < |polls| ==> PollOk(polls[i], receipt) && !Proves(polls[i], receipt, transaction)
  }

  /** The documents some polls found. */
  function Read(polls: seq<Poll>): seq<Ready> {
    if polls == [] then [] else
      Read(polls[..|polls| - 1])
      + if polls[|polls| - 1].found.Some? then [polls[|polls| - 1].found.value] else []
  }

  lemma NoPolls(receipt: Receipt, transaction: Transaction)
    ensures InVain([], receipt, transaction) && Read([]) == []
  {
  }

  lemma OneMorePoll(polls: seq<Poll>, poll: Poll, receipt: Receipt, transaction: Transaction)
    requires InVain(polls, receipt, transaction) && PollOk(poll, receipt) && !Proves(poll, receipt, transaction)
    ensures InVain(polls + [poll], receipt, transaction)
    ensures Read(polls + [poll]) == Read(polls) + if poll.found.Some? then [poll.found.value] else []
  {
    assert (polls + [poll])[..|polls|] == polls;
  }

  function BoxAt(boxes: map<Name, Box>, name: Name): Option<Box> {
    if name in boxes then Some(boxes[name]) else None
  }

  function HolderOf(boxes: map<Name, Box>, name: Name): Option<Id> {
    if name in boxes then Some(boxes[name].id) else None
  }

  ghost predicate DocumentsOk(receipts: map<TaskId, Receipt>, transactions: map<TaskId, Transaction>) {
    forall task :: task in receipts ==> DocumentOk(task, receipts[task], transactions)
  }

  /** A task that touched containers has a receipt saying it may have; so has one that created a replacement. */
  ghost predicate TouchedOk(receipts: map<TaskId, Receipt>, mutated: set<TaskId>, created: map<TaskId, Id>) {
    && (forall task :: task in mutated ==> task in receipts && !receipts[task].phase.Prepared?)
    && created.Keys <= mutated
  }

  /**
    * Every final receipt was true when it landed, on a readiness document that was read, and one
    * that says nothing was touched still is.
    */
  ghost predicate ClaimsOk(receipts: map<TaskId, Receipt>, claims: map<TaskId, Claim>, mutated: set<TaskId>,
                           documents: seq<Ready>) {
    forall task :: task in receipts && Final(receipts[task].phase) ==>
      && task in claims && Truthful(receipts[task], claims[task])
      && (receipts[task].phase.Failed? && claims[task].untouched ==> task !in mutated)
      && (claims[task].ready.Some? ==> claims[task].ready.value in documents)
  }

  /**
    * Every receipt is about a request that was read from the slot, and the agent was
    * stopped for the very request its task's receipt holds.
    */
  ghost predicate AskedOk(asked: seq<Request>, receipts: map<TaskId, Receipt>, stops: seq<Stop>) {
    && (forall task :: task in receipts ==> Heard(asked, receipts[task].request))
    && (forall i :: 0 <= i < |stops| ==>
          stops[i].request.task in receipts && receipts[stops[i].request.task].request == stops[i].request)
  }

  /**
    * The agent was stopped for a task at most once, on a reading of the clock that
    * permitted it and was taken after the receipt that says so was on disk; and what was
    * stopped had passed as the agent at the version the request expects.
    */
  ghost predicate StopsOk(stops: seq<Stop>, mutated: set<TaskId>, readings: seq<Clock>, durable: map<TaskId, nat>,
                          vetted: set<Vetted>) {
    && (forall i :: 0 <= i < |stops| ==>
          var task := stops[i].request.task;
          && task in mutated && task in durable && durable[task] <= stops[i].at
          && Allows(readings, stops[i].at, stops[i].request)
          && AgentOf(stops[i].target, stops[i].request.expected) in vetted)
    && (forall i, j :: 0 <= i < j < |stops| ==> stops[i].request.task != stops[j].request.task)
  }

  /** A rollback starts what holds the target name, or the retained container while nothing does. */
  ghost predicate IssuesOk(starts: seq<Issue>) {
    forall i :: 0 <= i < |starts| ==>
      starts[i].name == TARGET || (starts[i].name == BackupName(starts[i].task) && starts[i].target.None?)
  }

  /**
    * A start of what the task created, from an image that passed as the release asked for, with
    * identity and nonce on disk.
    */
  ghost predicate LaunchOk(l: Launch, created: map<TaskId, Id>, draws: set<Draw>, vetted: set<Vetted>) {
    var task := l.receipt.request.task;
    && l.receipt.phase.Activated? && Draw(task, l.receipt.nonce) in draws && task in created
    && l.transaction.newId == created[task]
    && ReleaseOf(l.transaction.newImage, l.receipt.request.version) in vetted
    && l.target.Some? && l.target.value.id == created[task] && l.target.value.image == l.transaction.newImage
  }

  /** A replacement is started at most once per task, and each start is in order. */
  ghost predicate LaunchesOk(launches: seq<Launch>, created: map<TaskId, Id>, draws: set<Draw>, vetted: set<Vetted>) {
    && (forall i :: 0 <= i < |launches| ==> LaunchOk(launches[i], created, draws, vetted))
    && (forall i, j :: 0 <= i < j < |launches| ==> launches[i].receipt.request.task != launches[j].receipt.request.task)
  }

  /** A rollback only ever removes the replacement its own task created. */
  ghost predicate TakingsOk(takings: seq<Taking>, created: map<TaskId, Id>) {
    forall i :: 0 <= i < |takings| && takings[i].target.Some? ==>
      takings[i].task in created && takings[i].target.value == created[takings[i].task]
  }

  /** What holds the target name is the container the task found there, or the one it created. */
  predicate Occupied(boxes: map<Name, Box>, oldId: Id, created: map<TaskId, Id>, task: TaskId) {
    TARGET in boxes ==> boxes[TARGET].id == oldId || (task in created && boxes[TARGET].id == created[task])
  }

  /**
    * The container the task found is there, under the target name or the task's own; what the task
    * created is another; and what is recorded of that is true.
    */
  predicate Retained(boxes: map<Name, Box>, transaction: Transaction, created: map<TaskId, Id>, task: TaskId) {
    && (HolderOf(boxes, TARGET) == Some(transaction.oldId)
        || HolderOf(boxes, BackupName(task)) == Some(transaction.oldId))
    && (task in created ==> created[task] != transaction.oldId)
    && Recorded(transaction, created, task)
  }

  predicate Recorded(transaction: Transaction, created: map<TaskId, Id>, task: TaskId) {
    transaction.newId == "" || (task in created && created[task] == transaction.newId)
  }

  /** If the task at hand is unfinished, only its own containers hold the target name or run beside it. */
  ghost predicate TurnOk(boxes: map<Name, Box>, receipts: map<TaskId, Receipt>, transactions: map<TaskId, Transaction>,
                         created: map<TaskId, Id>, turn: TaskId) {
    turn in receipts && Active(receipts[turn].phase) ==>
      && OnlyBeside(boxes, BackupName(turn))
      && turn in transactions && Occupied(boxes, transactions[turn].oldId, created, turn)
      && Retained(boxes, transactions[turn], created, turn)
  }

  lemma TouchMore(receipts: map<TaskId, Receipt>, claims: map<TaskId, Claim>, mutated: set<TaskId>,
                  created: map<TaskId, Id>, documents: seq<Ready>, stops: seq<Stop>, readings: seq<Clock>,
                  durable: map<TaskId, nat>, vetted: set<Vetted>, task: TaskId)
    requires TouchedOk(receipts, mutated, created) && ClaimsOk(receipts, claims, mutated, documents)
    requires StopsOk(stops, mutated, readings, durable, vetted)
    requires task in receipts && !receipts[task].phase.Prepared? && !receipts[task].phase.Failed?
    ensures TouchedOk(receipts, mutated + {task}, created) && ClaimsOk(receipts, claims, mutated + {task}, documents)
    ensures StopsOk(stops, mutated + {task}, readings, durable, vetted)
  {
  }

  lemma ReadMore(receipts: map<TaskId, Receipt>, claims: map<TaskId, Claim>, mutated: set<TaskId>,
                 documents: seq<Ready>, ready: Ready)
    requires ClaimsOk(receipts, claims, mutated, documents)
    ensures ClaimsOk(receipts, claims, mutated, documents + [ready])
  {
  }

  /** Later readings change nothing about earlier stops. */
  lemma LaterReadings(stops: seq<Stop>, mutated: set<TaskId>, readings: seq<Clock>, more: seq<Clock>,
                      durable: map<TaskId, nat>, vetted: set<Vetted>)
    requires StopsOk(stops, mutated, readings, durable, vetted) && readings <= more
    ensures StopsOk(stops, mutated, more, durable, vetted)
  {
  }

  /** A stop on the last reading, of a task that was not stopped before. */
  lemma StopJoins(stops: seq<Stop>, mutated: set<TaskId>, readings: seq<Clock>, durable: map<TaskId, nat>,
                  vetted: set<Vetted>, asked: seq<Request>, receipts: map<TaskId, Receipt>, request: Request,
                  target: Id)
    requires StopsOk(stops, mutated, readings, durable, vetted) && request.task !in mutated
    requires request.task in durable && durable[request.task] < |readings| && Allows(readings, |readings| - 1, request)
    requires AgentOf(target, request.expected) in vetted
    requires AskedOk(asked, receipts, stops) && request.task in receipts && receipts[request.task].request == request
    ensures StopsOk(stops + [Stop(request, |readings| - 1, target)], mutated + {request.task}, readings, durable,
                    vetted)
    ensures AskedOk(asked, receipts, stops + [Stop(request, |readings| - 1, target)])
  {
  }

  lemma CreatedOnce(created: map<TaskId, Id>, takings: seq<Taking>, launches: seq<Launch>, draws: set<Draw>,
                    vetted: set<Vetted>, task: TaskId, id: Id)
    requires TakingsOk(takings, created) && LaunchesOk(launches, created, draws, vetted) && task !in created
    ensures TakingsOk(takings, created[task := id]) && LaunchesOk(launches, created[task := id], draws, vetted)
  {
  }

  lemma DocumentHeld(receipts: map<TaskId, Receipt>, transactions: map<TaskId, Transaction>, task: TaskId)
    requires DocumentsOk(receipts, transactions) && task in receipts && !Final(receipts[task].phase)
    ensures task in transactions && transactions[task].backup == BackupName(task)
  {
  }

  lemma TransactionLands(receipts: map<TaskId, Receipt>, transactions: map<TaskId, Transaction>, task: TaskId,
                         transaction: Transaction)
    requires DocumentsOk(receipts, transactions) && transaction.backup == BackupName(task)
    ensures DocumentsOk(receipts, transactions[task := transaction])
  {
  }

  lemma ReceiptLands(receipts: map<TaskId, Receipt>, transactions: map<TaskId, Transaction>, mutated: set<TaskId>,
                     created: map<TaskId, Id>, claims: map<TaskId, Claim>, documents: seq<Ready>, task: TaskId,
                     receipt: Receipt, claim: Claim)
    requires DocumentsOk(receipts, transactions) && TouchedOk(receipts, mutated, created)
             && ClaimsOk(receipts, claims, mutated, documents)
    requires DocumentOk(task, receipt, transactions) && Truthful(receipt, claim)
    requires receipt.phase.Prepared? || claim.untouched ==> task !in mutated
    requires claim.ready.Some? ==> claim.ready.value in documents
    ensures DocumentsOk(receipts[task := receipt], transactions)
            && TouchedOk(receipts[task := receipt], mutated, created)
    ensures ClaimsOk(receipts[task := receipt], claims[task := claim], mutated, documents)
  {
  }

  /** A receipt that lands before anything was touched may say from which reading on it is durable. */
  lemma DurableFrom(stops: seq<Stop>, mutated: set<TaskId>, readings: seq<Clock>, durable: map<TaskId, nat>,
                    vetted: set<Vetted>, task: TaskId, from: nat)
    requires StopsOk(stops, mutated, readings, durable, vetted) && task !in mutated
    ensures StopsOk(stops, mutated, readings, durable[task := from], vetted)
  {
  }

  /** A task that touched nothing created and started nothing. */
  lemma UntouchedIsNew(receipts: map<TaskId, Receipt>, mutated: set<TaskId>, created: map<TaskId, Id>,
                       launches: seq<Launch>, draws: set<Draw>, vetted: set<Vetted>, task: TaskId)
    requires TouchedOk(receipts, mutated, created) && LaunchesOk(launches, created, draws, vetted) && task !in mutated
    ensures task !in created && NotLaunched(launches, task)
  {
  }

  lemma NothingCreated(receipts: map<TaskId, Receipt>, mutated: set<TaskId>, created: map<TaskId, Id>, task: TaskId)
    requires TouchedOk(receipts, mutated, created) && task !in mutated
    ensures task !in created
  {
  }

  ghost predicate NotLaunched(launches: seq<Launch>, task: TaskId) {
    forall i :: 0 <= i < |launches| ==> launches[i].receipt.request.task != task
  }

  lemma LaunchJoins(launches: seq<Launch>, created: map<TaskId, Id>, draws: set<Draw>, vetted: set<Vetted>, l: Launch)
    requires LaunchesOk(launches, created, draws, vetted) && NotLaunched(launches, l.receipt.request.task)
    requires LaunchOk(l, created, draws, vetted)
    ensures LaunchesOk(launches + [l], created, draws, vetted)
  {
    hide LaunchOk;
  }

  /** Nothing that is so comes to be otherwise by another check passing or another nonce being drawn. */
  lemma KnowMore(stops: seq<Stop>, mutated: set<TaskId>, readings: seq<Clock>, durable: map<TaskId, nat>,
                 launches: seq<Launch>, created: map<TaskId, Id>, draws: set<Draw>, vetted: set<Vetted>,
                 drawn: set<Draw>, passed: set<Vetted>)
    requires StopsOk(stops, mutated, readings, durable, vetted) && LaunchesOk(launches, created, draws, vetted)
    ensures StopsOk(stops, mutated, readings, durable, vetted + passed)
    ensures LaunchesOk(launches, created, draws + drawn, vetted + passed)
  {
  }

  // ------------------------------------------------------------------------- requests

  lemma AskMore(asked: seq<Request>, receipts: map<TaskId, Receipt>, stops: seq<Stop>, request: Request)
    requires AskedOk(asked, receipts, stops)
    ensures AskedOk(asked + [request], receipts, stops)
  {
  }

  /** A receipt may be about another request that was read only as long as its task touched nothing. */
  lemma ReceiptIsAsked(asked: seq<Request>, receipts: map<TaskId, Receipt>, stops: seq<Stop>, mutated: set<TaskId>,
                       readings: seq<Clock>, durable: map<TaskId, nat>, vetted: set<Vetted>, task: TaskId,
                       receipt: Receipt)
    requires AskedOk(asked, receipts, stops) && StopsOk(stops, mutated, readings, durable, vetted)
    requires receipt.request.task == task && Heard(asked, receipt.request)
    requires task in mutated ==> task in receipts && receipts[task].request == receipt.request
    ensures AskedOk(asked, receipts[task := receipt], stops)
  {
  }

  lemma WasAsked(asked: seq<Request>, receipts: map<TaskId, Receipt>, stops: seq<Stop>, task: TaskId)
    requires AskedOk(asked, receipts, stops) && task in receipts
    ensures Heard(asked, receipts[task].request)
  {
  }

  /** Every stop was for a request that was read. */
  lemma StopsWereAsked(asked: seq<Request>, receipts: map<TaskId, Receipt>, stops: seq<Stop>, k: nat)
    requires AskedOk(asked, receipts, stops) && k < |stops|
    ensures Heard(asked, stops[k].request)
  {
  }

  lemma OccupiedByOld(boxes: map<Name, Box>, created: map<TaskId, Id>, task: TaskId, transaction: Transaction)
    requires HolderOf(boxes, TARGET) == Some(transaction.oldId) && transaction.newId == "" && task !in created
    ensures Occupied(boxes, transaction.oldId, created, task) && Retained(boxes, transaction, created, task)
  {
  }

  lemma ReceiptNamesTask(receipts: map<TaskId, Receipt>, transactions: map<TaskId, Transaction>, task: TaskId)
    requires DocumentsOk(receipts, transactions) && task in receipts
    ensures receipts[task].request.task == task
  {
  }

  /** Starting or stopping what holds a name changes no identity. */
  lemma SameHolder(boxes: map<Name, Box>, name: Name, transaction: Transaction, created: map<TaskId, Id>,
                   task: TaskId)
    requires Occupied(boxes, transaction.oldId, created, task) && Retained(boxes, transaction, created, task)
    ensures Occupied(Armed(boxes, name), transaction.oldId, created, task)
            && Occupied(Disarmed(boxes, name), transaction.oldId, created, task)
    ensures Retained(Armed(boxes, name), transaction, created, task)
            && Retained(Disarmed(boxes, name), transaction, created, task)
  {
  }

  /** The rename away, and the one back, move the container the task found. */
  lemma MovesOld(boxes: map<Name, Box>, transaction: Transaction, created: map<TaskId, Id>, task: TaskId)
    requires Occupied(boxes, transaction.oldId, created, task) && Retained(boxes, transaction, created, task)
    ensures Retained(Moved(boxes, TARGET, BackupName(task)), transaction, created, task)
    ensures Retained(Moved(boxes, BackupName(task), TARGET), transaction, created, task)
  {
    BackupIsNotTarget(task);
  }

  /** Removing what the task created leaves what it found. */
  lemma RemovesNew(boxes: map<Name, Box>, transaction: Transaction, created: map<TaskId, Id>, task: TaskId)
    requires Retained(boxes, transaction, created, task)
    requires TARGET in boxes ==> task in created && boxes[TARGET].id == created[task]
    ensures Retained(boxes - {TARGET}, transaction, created, task)
    ensures HolderOf(boxes, BackupName(task)) == Some(transaction.oldId)
  {
    BackupIsNotTarget(task);
  }

  /** What is created under the free target name is another than what the task found. */
  lemma CreatesNew(boxes: map<Name, Box>, used: set<Id>, transaction: Transaction, created: map<TaskId, Id>,
                   task: TaskId, id: Id, image: Id)
    requires forall n :: n in boxes ==> boxes[n].id in used
    requires Retained(boxes, transaction, created, task) && TARGET !in boxes && id !in used && task !in created
    ensures Retained(boxes[TARGET := Box(id, image, false)], transaction, created[task := id], task)
  {
    BackupIsNotTarget(task);
  }
}
