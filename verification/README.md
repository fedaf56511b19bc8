# Passwall Node: upgrades, handovers and release identity

A verification of the parts of Passwall Node that must not go wrong when a process dies half way: the handover of the
updater role between Docker containers, the agent upgrade as a swap of containers or of files, the authorization of a
start in time, and the release identities all of them rely on.

## What is modelled

- **The updater handover** (`HandoverJournal`, `HandoverModel` and the `Handover*` modules built on them). Updater
  processes share one kernel lock, one journal, one proof file and a Docker engine. One action is one access to something
  shared; between any two, any other process, an operator or the agent may act, and any process may die. `HandoverModel` is
  the transition system, `HandoverInvariant` what every state keeps, `Handover`, `HandoverHistory` and `HandoverReasons` what
  follows for every run, `HandoverWitness` runs that hand the role over, and `HandoverRecovery` what can be done, from any
  state in which it is due, about a handover that does not go through.
- **The updater guard** (`UpdaterGuard`): the one door through which the handover changes containers.
- **The agent upgrade under Docker** (`DockerSwap`, `DockerHelper`) and **under systemd** (`SystemdUpgrade`): classes whose
  methods may be killed before or after any single effect. A call that may be the last returns `Killed` or its answer, so
  what a method ensures holds at every point of every pass. What has happened is kept in ghost fields, each written by the
  one method that does or sees it: requests, clock readings and readiness documents by their readers, nonces by their
  draw, checks that passed by the check, stops, starts and removals by the methods that issue them. `DockerHistory` and
  `SystemdHistory` say what those histories satisfy. What goes wrong is counted as well (`Crashes.Troubles`), each kind by
  the calls that meet it: a document not read or written, a call not carried out, a check not passed, nothing running, a
  target that did not prove itself. So the contracts also say what must happen: if nothing of a kind was counted, which
  outcome there is.
- **The task clock** (`TaskClock` as a specification, `TaskClockAnswers` for exactly when it answers and how near,
  `TaskClockCode` as the 64-bit code, which keeps the calls made on it), the **boot counter** both sides read
  (`BootCounter`), the **deadline** handed from the agent to the root helper (`Deadline`), and the **task worker** with its
  journal (`TaskWorker`).
- **Release identity** (`Text`, `ReleaseId`, `VersionOrder`, `Allocation`, `Candidates`): parser and printer, order, and
  the allocation of numbers.

`dafny verify dfyconfig.toml` checks everything.

## What is taken as given

- The kernel lock is exclusive and dies with its holder. Either every process can use it, and then updaters nobody handed
  over to may appear, and anyone may start any container, at any time; or it may fail in some processes, and then a second
  updater comes only from a handover and an operator starts again only what was started before.
- A document is replaced atomically, but the replacement may land and still be reported as an error: the directory is synced
  after the rename (internal/upgrade/helper_files.go:59-67). The comment on the commit says that one which could not be
  recorded did not happen (internal/upgrade/docker_handover.go:311-313); the code allows that it did, and the model follows
  the code: the predecessor then removes the successor, the abort is refused, and it stays primary until it restarts.
  `HandoverHistory.FailedCommitMayHaveLanded` says exactly when it did, and `HandoverWitness.ACommitLandsUnreported` gives
  a run.
- A failed engine call took effect or did not, an answered inspect is truthful, container and handover identifiers are never
  reused, and during an agent swap nobody else moves the agent's containers.
- The agent never puts an unfinished request back into the slot once another replaced it. `DockerSwap.RestoreIsSafeExactly`
  says exactly what that protects.
- The journal is never corrupted or edited by hand.
- Within one boot the boot counter does not go back, a boot's identity is not used again, and a process does not outlive its
  boot.
- For soundness of the clock, and only there: the counter and the control-plane clock run at one rate, and each stamp is
  within the stated uncertainty of an instant inside its round trip.

One promise is false of the code as it stands. A backup's `metadata.json` is the last thing removed when old backups are
pruned, so after an interrupted pruning it can stand beside missing files. `SystemdHistory.InterruptedPruningLies` gives the
case. Over every run, all metadata has spoken true at every point exactly if no file was ever pruned, which is so as long as
no pass found more than two finished backups (`SystemdUpgrade.Helper.Serve`), and at any one moment exactly when every
removal begun has got as far as the metadata (`SystemdHistory.HonestNowExactly`). A task still in doubt, the only kind a
recovery reads, is never among the pruned.

## Model

| member | source | states |
|---|---|---|
| `Handover.AtMostOnePrimary` | internal/upgrade/docker_helper.go:225-306 | In every state of every run at most one updater acts as the primary, its heartbeat goroutine included, over crashes, restarts, commits, abandons and reclaims, whether the lock works for every process or fails in some. |
| `Handover.RetiredNeverActs` | internal/upgrade/docker_successor.go:198-209 | Once the journal has retired a container that knows itself, that container never acts as the primary in that state or any later one, whatever the journal moved on to and however free the lock is. |
| `Handover.RetiredIsIdle` | internal/upgrade/docker_handover_state.go:526-571 | In any state in order, a container that some record of the journal's history retired does not act. |
| `Handover.StandbyNeverActs` | internal/upgrade/docker_successor.go:55-111 | While the journal says created, the successor it names never acts as the primary. |
| `Handover.OnlyProvenSuccessors` | internal/upgrade/docker_handover.go:245-326 | Every committed, completed, reverted, superseded or abandoned record of every run holds a pass of that very handover for its successor, which runs its image and version; every record moves to a strictly newer version and another image than its predecessor's and was prepared on an idle request slot; an abandoned one's predecessor no longer exists. What the pass stands for is `HandoverHistory.ProofWasEarned`. |
| `HandoverHistory.ProofWasEarned` | internal/upgrade/docker_successor.go:120-168 | For every such record of every run there is an earlier standby check by that very successor, for a recorded handover of the same identity, made in a world where the successor was the build the handover is about and the agent ran as the container it is about. |
| `HandoverHistory.PassesAreEarned` | internal/upgrade/docker_successor.go:55-111 | Each pass a run ever notes is led back to the step that earned it and the state it was made in: every standby check held there. |
| `HandoverHistory.StandsForARecord` | internal/upgrade/docker_successor.go:55-111 | Whatever handover a successor in standby works for was a record of the journal at some point of the run. |
| `Handover.PassIsOfVersion` | internal/upgrade/docker_successor.go:120-168 | Whoever passed the standby checks of a handover runs the version the handover is about. |
| `Handover.CommitsReadTheSlotLast` | internal/upgrade/docker_handover.go:256-297 | Every commit carries a last reading of the request slot equal to the one the handover was prepared on. When it was read is `HandoverHistory.CommitsReadTheSlot`. |
| `HandoverHistory.CommitsReadTheSlot` | internal/upgrade/docker_handover.go:245-326 | Every commit of every run was written by a process that, at an earlier state of the run, read the request slot last while it was as the handover was prepared on, and that stood at the commit from then on until it wrote. |
| `HandoverHistory.CommittingHasRead` | internal/upgrade/docker_handover.go:277-297 | In every run, whoever is about to commit read the slot last, found it unchanged, and has done nothing since. |
| `HandoverReasons.CommitsSawTheirSuccessor` | internal/upgrade/docker_handover.go:256-297 | Every commit of every run was written by a process that had read the successor's own proof of that handover, and that in the very pass of its wait that led to the commit found the successor up and the agent to be the container and image the handover is about. |
| `HandoverReasons.UpWasFound` | internal/upgrade/docker_handover.go:262-278 | In every run, a process that remembers the successor up found it up in the pass it is still at. |
| `HandoverReasons.AgentWasFound` | internal/upgrade/docker_handover.go:279-287 | The same of the agent being the handover's. |
| `HandoverReasons.ProofWasRead` | internal/upgrade/docker_handover.go:288-291 | In every run, a process that remembers a proof read that handover's proof, of its successor, version and binary. |
| `HandoverHistory.EntriesAreWritten` | internal/upgrade/docker_handover_state.go:219-268 | Every entry of a run's log was written by one earlier step, whose write was not lost, as exactly the record that step writes. |
| `HandoverHistory.FailedCommitMayHaveLanded` | internal/upgrade/docker_handover.go:311-326 | A commit reported as failed is in the log, and is the journal, exactly if its write landed unreported. |
| `HandoverHistory.UnreportedCommitStands` | internal/upgrade/docker_handover.go:311-380 | After such a commit landed, in every later state of the run it is still in the log and no record of that handover is an abort, whatever the predecessor does believing it failed. |
| `Handover.StepExtends` | internal/upgrade/docker_handover_state.go:243-268 | A step adds to the log exactly what its writer writes, and exactly if that write is not lost; a pass is noted by a standby check and by nothing else. |
| `Handover.NeverRevisitsARelease` | internal/upgrade/docker_follow.go:124-131 | Along any chain of proven handovers, each from the successor of the one before, versions strictly rise, so no release is ever returned to. |
| `Handover.ChainClimbs` | internal/upgrade/docker_follow.go:365-377 | The last version of such a chain is newer than the version its first predecessor ran. |
| `Handover.RunIsAccepted` | internal/upgrade/docker_handover_state.go:219-268 | The records of a run, in the order they landed, are ones the journal writer accepts one over the other, and the journal is the last of them. |
| `Handover.HandoversOnlyMoveForward` | internal/upgrade/docker_handover_state.go:50-54 | In every run the records of one handover only move forward, are at most four, keep its identity and set its successor at most once. |
| `Handover.AttemptsAreBounded` | internal/upgrade/docker_handover_state.go:180-195 | In every run, for one predecessor and image with no other outcome between, at most three attempts fail other than by giving way to a request. Which aborts those are is `HandoverReasons.PreemptionsAreRequests`. |
| `Handover.RetriesWait` | internal/upgrade/docker_handover.go:344-376 | In every run the attempt after a failed one of the same pair starts at least ten minutes later after the first failure and an hour after a later one, under the next attempt number. |
| `HandoverReasons.PreemptionsAreRequests` | internal/upgrade/docker_handover.go:245-309 | Every abort of every run is recorded as a pre-emption exactly if the process that wrote it set out to abort by reading the request slot and finding it unreadable, or not as the handover was prepared on. |
| `HandoverReasons.AbortsSayWhy` | internal/upgrade/docker_handover.go:89-153 | Every abort of every run was written by a process that, at an earlier state, found what its reason says (the slot changed, the successor gone, the agent replaced, a create, record, start or commit that failed, a deadline, or an unfinished journal), and that stood at that abort from then on until it wrote. |
| `HandoverReasons.RequestsPreempt` | internal/upgrade/docker_handover.go:253-294 | The other way around: in every run, whoever finds the slot changed while it waits aborts that handover as pre-empted, and the abort it writes next, if it lives to, says so. |
| `HandoverReasons.AbortingHasGrounds` | internal/upgrade/docker_handover.go:344-376 | In every run, whoever is at an abort found grounds for it at an earlier state, those its reason gives, and has been at it since. |
| `HandoverReasons.GroundsOfPreemption` | internal/upgrade/docker_handover.go:253-309 | Of all grounds for an abort, exactly a changed or unreadable slot gives the reason that is not counted as a failure. |
| `Handover.NoUpdaterEndsItself` | internal/upgrade/docker_successor.go:263-283 | Whoever stops or removes a container in any run knows what it is, holds the lock, and acts on an updater's container that is neither its own nor the agent's; to abort a handover, never on its predecessor's; to tidy up, only on one that a finished handover names. |
| `HandoverHistory.HandoversFollowTheAgent` | internal/upgrade/docker_follow.go:87-205 | Every record of every run is of a handover that follows the agent: at an earlier state of the run the agent ran as exactly the container, image and version the handover is about, newer than what the predecessor was built as and of another image. |
| `HandoverHistory.EvaluatedWasJudged` | internal/upgrade/docker_follow.go:87-205 | In every run, whoever is about to prepare a handover found it eligible at an earlier state. |
| `HandoverHistory.StartingHasReadBack` | internal/upgrade/docker_handover.go:143-193 | In every run, whoever is about to start a successor read it back at an earlier state and found it to be what was asked for. |
| `HandoverHistory.OnlyReadBackIsStarted` | internal/upgrade/docker_handover.go:143-193 | Whatever any run starts as a successor was read back before by the process that starts it: under the handover's temporary name, of its image, and never started. |
| `HandoverHistory.AbortsEndOnlyTheirSuccessor` | internal/upgrade/docker_handover.go:328-376 | Whatever any run stops or removes to abort a handover is the successor its record names, or what that very process made for it and was told so, or what it found, looking by name, under the handover's temporary name, of its image and never started. |
| `HandoverHistory.EndingWasFound` | internal/upgrade/docker_handover.go:344-367 | In every run, whoever is about to end a container for an abort set out to by an earlier look for that handover's successor. |
| `HandoverHistory.KnownWasMade` | internal/upgrade/docker_handover.go:344-350 | In every run, a container a process knows for a handover is one it created for it and was told so. |
| `Handover.OnlyTheHolderMakes` | internal/upgrade/docker_handover.go:89-153 | Whoever creates, starts or renames a container in any run knows what it is and holds the lock; what it renames is itself or its predecessor, each to the name its side of a finished handover goes by. |
| `Handover.OnlyTheHolderWrites` | internal/upgrade/docker_handover_state.go:219-268 | The journal changes only by a process that knows what it is and holds the lock. |
| `Handover.RunExtends` | internal/upgrade/docker_handover_state.go:270-277 | No step of any run takes a landed record back. |
| `HandoverWitness.AHandoverCanComplete` | internal/upgrade/docker_handover.go:89-153 | Whenever the writer accepts the records a handover needs and the agent is eligible, some run carries it through: the successor acts, the predecessor is stopped, and the journal says completed. |
| `HandoverWitness.AHandoverCompletes` | internal/upgrade/docker_successor.go:217-283 | A concrete handover from one release to the next that fits, so the runs all other statements range over do hand the role over. |
| `HandoverWitness.ACommitCanLandUnreported` | internal/upgrade/docker_handover.go:311-326 | Whenever a handover fits, some run ends with the journal committed and its predecessor, told that the commit failed, setting out to abort. |
| `HandoverWitness.ACommitLandsUnreported` | internal/upgrade/docker_handover.go:311-326 | A concrete such run. |
| `HandoverRecovery.ARetiredPredecessorCanReclaim` | internal/upgrade/docker_successor.go:402-466 | From any state in which a predecessor retired by a commit watches and the lock is free, some steps lead to it being primary with the lock, the journal reverted and the successor gone. |
| `HandoverRecovery.ASuccessorLeftAloneCanTakeOver` | internal/upgrade/docker_successor.go:55-191 | From any state in which a proven successor found its predecessor gone twice in a row and the lock is free, some steps lead to it being primary with the lock and the journal abandoned. |
| `HandoverRecovery.APrimaryCanEndWhatItFinds` | internal/upgrade/docker_successor.go:217-297 | From any state in which a primary reconciles over an unfinished handover it may act on, some steps lead to the journal saying how it ended: aborted with its successor gone, completed with its predecessor down, or superseded. |
| `Handover.RunKeeps` | internal/upgrade/docker_helper.go:523-616 | Every state of every run satisfies the invariant on the shared world and on each process's memory. |
| `Handover.StepKeeps` | internal/upgrade/docker_helper.go:225-306 | One action of any process or of the environment keeps that invariant. |
| `HandoverRoles.ServeKeeps` | internal/upgrade/docker_helper.go:359-453 | Every step of the role loop, of competing for the lock, of fencing and of proving to be alone without a lock keeps the invariant. |
| `HandoverRoles.OneIsLeft` | internal/upgrade/docker_helper.go:412-444 | An updater that finds each container of the finished journal to be itself or gone is the only one ever started that is left. |
| `HandoverRoles.RetiredKeeps` | internal/upgrade/docker_successor.go:402-466 | Every step of a retired predecessor, up to reclaiming the role and removing the successor, keeps the invariant. |
| `HandoverRoles.StandbyKeeps` | internal/upgrade/docker_successor.go:55-191 | Every step of a standby, from its checks and its proof to abandoning the handover, keeps the invariant. |
| `HandoverRoles.EnvironmentKeeps` | internal/upgrade/docker_lock_unix.go:19-26 | Clock, request slot, agent, operators, strangers, crashes and restarts keep the invariant; where every process can use the lock this includes starting a successor that never ran. A process that dies loses its memory and the lock and nothing on disk. |
| `HandoverSteps.AbortKeeps` | internal/upgrade/docker_handover.go:344-393 | Every step of an abort keeps the invariant, whichever lock holder runs it and whichever calls and writes fail. |
| `HandoverPrimary.ReconcileKeeps` | internal/upgrade/docker_successor.go:217-297 | Every step of reconciling, finishing and superseding keeps the invariant. |
| `HandoverPrimary.ReconcileEnds` | internal/upgrade/docker_handover_state.go:526-571 | Whoever may act on an unfinished handover ends it, with a record the writer takes and under which it may still act: aborted exactly if it was not committed, completed exactly by its successor, superseded exactly by anyone else. |
| `HandoverPrimary.RoleRecordsAreTaken` | internal/upgrade/docker_handover_state.go:219-268 | Every well-formed record a role writes over the journal as it read it is one the writer takes. |
| `HandoverPrimary.TidyKeeps` | internal/upgrade/docker_successor.go:312-380 | Every step of tidying away a finished handover keeps the invariant. |
| `HandoverFollow.FollowKeeps` | internal/upgrade/docker_handover.go:89-165 | Every step from the idle slot through prepare, create, record, verify and start keeps the invariant. |
| `HandoverFollow.EligibleIsEvaluated` | internal/upgrade/docker_follow.go:87-205 | What the evaluation finds eligible is strictly newer, is another image than the predecessor's, and begins only when every other container the finished journal names is gone. |
| `HandoverWait.WaitKeeps` | internal/upgrade/docker_handover.go:245-326 | Every step of the wait for the successor, of the commit and of leaving the role keeps the invariant. |
| `HandoverWait.CommitLands` | internal/upgrade/docker_handover.go:318-326 | A commit that lands, reported or not, is of a proven successor and leaves the journal's history in order. |
| `HandoverWorld.MoveLands` | internal/upgrade/docker_handover_state.go:243-268 | A record of the handover in progress lands without reviving a retired container or losing what earlier records proved. |
| `HandoverWorld.BeginLands` | internal/upgrade/docker_handover_state.go:227-242 | A new handover lands only when no container an earlier one retired still exists. |
| `HandoverFrame.NobodyElseRelies` | internal/upgrade/docker_helper.go:412-444 | While the lock holder may write the journal, no other process relies on it as it is. |
| `HandoverJournal.JournalFile.WriteHandover` | internal/upgrade/docker_handover_state.go:219-268 | A refused record leaves the file and says why; an accepted one lands or leaves the file, and a landed one may still be reported as an error. |
| `HandoverJournal.MoveWithin` | internal/upgrade/docker_handover_state.go:50-54 | An accepted move within a handover goes to a later phase, keeps every identity field, and sets the successor only on created. |
| `HandoverJournal.ForwardOnly` | internal/upgrade/docker_handover_state.go:219-268 | Between any two records of one handover the phase advances by at least their distance, the identity is equal and a set successor stays. |
| `HandoverJournal.AtMostFourRecords` | internal/upgrade/docker_handover_state.go:50-54 | Two records of one handover are at most three apart. |
| `HandoverJournal.FailuresBoundedByAttempt` | internal/upgrade/docker_handover_state.go:180-195 | The failures of one predecessor and image never exceed the attempt number of its last record. |
| `HandoverJournal.AtMostThreeFailures` | internal/upgrade/docker_handover_state.go:180-195 | For one predecessor and image at most three attempts fail other than by pre-emption. |
| `HandoverJournal.AcceptedAttempt` | internal/upgrade/docker_handover_state.go:180-195 | An accepted record's attempt number is one more than the failed attempt before it, the same after a pre-empted one, and never above three. |
| `HandoverJournal.BackoffRespected` | internal/upgrade/docker_handover_state.go:180-208 | A new attempt after a failure of the same pair is written no earlier than the failure's record allows. |
| `HandoverJournal.NewHandoverAcceptedExactly` | internal/upgrade/docker_handover_state.go:219-242 | Over any accepted history, the writer takes a new handover exactly if nothing is unfinished, it is well formed and prepared, fewer than three attempts of its predecessor and image failed in the stretch the history ends with, the last failure of theirs is old enough, and it is numbered one above those failures. |
| `HandoverJournal.NextAttemptCountsFailures` | internal/upgrade/docker_handover_state.go:180-195 | The next attempt number, which looks at the last record only, is what counting the failures of the whole stretch gives: exhausted, too early, or one more than they are. |
| `HandoverJournal.NumberedByFailures` | internal/upgrade/docker_handover_state.go:180-195 | In any accepted history, a record of a stretch is numbered one above the failures before it there. |
| `HandoverJournal.RetiredIsTheTable` | internal/upgrade/docker_handover_state.go:526-571 | The role table makes a container retired exactly when the finished record retires it. |
| `HandoverJournal.OneSideOfACommit` | internal/upgrade/docker_handover_state.go:526-571 | From the commit on, no record makes candidates of both containers it names. |
| `UpdaterGuard.Host.MutateUpdater` | internal/upgrade/docker_updater_identity.go:212-260 | The agent is looked at first, and what the call is about next, unless it is to be made; no more. The call reaches the engine exactly if both were found, it is on neither the agent nor its name, gives nothing that name, is of a known kind, and is about an updater of that agent or clones one: then exactly once, as asked, by the identity looked at. Not found and not answered are told apart; a refusal reaches the engine with nothing. |
| `UpdaterGuard.IsUpdaterContainer` | internal/upgrade/docker_updater_identity.go:47-98 | The loops over both mount lists decide exactly what an updater of this agent is. |
| `UpdaterGuard.UpdaterIsNeverAnAgent` | internal/upgrade/docker_helper.go:815-819 | Nothing that passes as an updater would be accepted as the agent to upgrade. |
| `UpdaterGuard.OverlapIsContainment` | internal/upgrade/docker_updater_identity.go:102-111 | Two cleaned paths overlap exactly when one is the other or a directory on the way to it, by component. |
| `UpdaterGuard.JoinedPrefix` | internal/upgrade/docker_updater_identity.go:106-110 | One path's text followed by a separator begins another's exactly when its components properly begin the other's. |
| `DockerHelper.Helper.Serve` | internal/upgrade/docker_helper.go:622-741 | Over any number of passes, each killed anywhere: every receipt and every stop is about a request that was read from the slot and parses, with its boot and deadline; at most one agent container is kept running; the agent is stopped to begin a task at most once, as a container that passed as the agent at the version the request expects, on a reading that was really taken after its receipt was on disk and that permits it; a replacement is started at most once per task, from an image that passed as the release asked for, with its identity and a nonce drawn for that task on disk; every final receipt was true when it landed, success with a readiness document that was read and that names this task, digest, version, nonce and binary; a removal of the target name meets only a container this task created or none; a rollback starts what holds the target name, or the retained container while nothing does. |
| `DockerHelper.Helper.Process` | internal/upgrade/docker_helper.go:622-648 | One pass keeps all of that. A stop it adds, and the receipt of a task that had none, are about the very request given; for a task that already has a receipt nothing is pulled, created or activated and nothing is stopped forward. If every document was read and written the task ends, and a new one ends succeeded exactly if its replacement proved itself. If nothing else stood in the way, it succeeded, or failed with the old container back because the replacement did not prove itself in time or the backup's name was taken, or was refused because some reading came too late. Whatever fails, once the replacement proved itself nothing is started, removed or restored any more. |
| `DockerHelper.Helper.ProcessCurrent` | internal/upgrade/docker_helper.go:622-646 | A request that is in the slot is read and worked on: if every document is read and written, what it asks for ends as `Process` says. |
| `DockerHelper.Helper.ReadRequest` | internal/upgrade/docker_helper.go:622-630 | What is worked on is what was found in the slot; the history of requests is extended by exactly that, and by nothing else. |
| `DockerHistory.StopsWereAsked` | internal/upgrade/docker_helper.go:622-630 | Every stop was for a request that was read from the slot and parses. |
| `DockerHelper.Helper.Resume` | internal/upgrade/docker_helper.go:631-645 | A final receipt is only answered, a prepared one fails untouched, an active one is rolled back; if every document is written the task ends, and if every call is carried out besides, an active one ends failed with the old container back. |
| `DockerHelper.Helper.Prepare` | internal/upgrade/docker_helper.go:649-684 | Every refusal before the swap is recorded truthfully and of this request, and there is none unless some check, call or look failed or some reading came too late. A plan is returned only if nothing at all went wrong, with the agent and the image each passed for the versions the request names, on disk, and with a last clock reading, taken after that, which permits it. Nothing is pulled and nothing recorded unless the reading before it permits the request. |
| `DockerHelper.Helper.Vet` | internal/upgrade/docker_helper.go:743-890 | What passed a check counts as passed, with the version it was checked for, and nothing else does. |
| `DockerHelper.Helper.FindAgent` | internal/upgrade/docker_helper.go:652-662 | The container that holds the target name is given exactly if it could be looked at, runs, and passed as the agent at the version the request expects. |
| `DockerHelper.Helper.Pull` | internal/upgrade/docker_helper.go:663-675 | Only on a reading that permits the request; the image is given exactly if it was pulled and passed as the release the request asks for. |
| `DockerHelper.Helper.Record` | internal/upgrade/docker_helper.go:685-697 | The rollback identity is durable before the receipt that says containers may be touched; a plan is returned only if the clock was read after that receipt landed and permits it. |
| `DockerHelper.Helper.StopAgent` | internal/upgrade/docker_helper.go:695-700 | The one forward stop of a task is recorded with its request, the container stopped and the place of the last clock reading, which permits it; a confirmed stop leaves nothing running. |
| `DockerHelper.Helper.Swap` | internal/upgrade/docker_helper.go:698-707 | From the stop to the final receipt, at most one container is kept running whichever call fails or is cut short, and exactly one forward stop is added. Once the replacement proved itself, it holds the target name, nothing is started, removed or restored, and the receipt is the activated one or says succeeded, which it does if every document was written. Otherwise the task did not succeed; it ended if every document was written, and with the old container back if every call was carried out; and that it proved itself is certain unless a call failed, the wait ran out or the backup's name was taken. |
| `DockerHelper.Helper.Activate` | internal/upgrade/docker_helper.go:708-720 | At most one start of the replacement is issued, and only with the created container's identity in the transaction and a drawn nonce in an activated receipt on disk. What it comes to is as in `Swap`. |
| `DockerHelper.Helper.RandomNonce` | internal/upgrade/docker_helper.go:712-716 | A nonce is kept with the task it was drawn for. |
| `DockerHelper.Helper.Run` | internal/upgrade/docker_helper.go:717-725 | The replacement is started once, as what the receipt and transaction on disk say and on the image that passed. Proven, it stays, and the receipt is the activated one or says succeeded with the binary of the document it proved itself by, which it does if every document was written; unproven, it is rolled back, and it is unproven only if a call failed or the wait ran out. |
| `DockerHelper.Helper.Succeed` | internal/upgrade/docker_helper.go:725-731 | Success is recorded only on a readiness document that was read and answers this activation, with that document's binary, and with the recorded container and image running under the target name; it is recorded if the receipt can be written, and nothing is undone if it cannot. |
| `DockerHelper.Helper.WaitReady` | internal/upgrade/docker_helper.go:987-1009 | An answer is a document that was read, of this task, digest, version and nonce, with the very container and image running, after a start that was reported done. It gives up only after one look or more, each of which found no such document or not that container running. |
| `DockerHelper.Helper.Look` | internal/upgrade/docker_helper.go:993-1003 | One look proves the replacement exactly if the document found answers this activation and the container looked at is the recorded one, of the recorded image, running; the container is looked at exactly if the document answers. |
| `DockerHelper.Helper.Rollback` | internal/upgrade/docker_helper.go:1011-1080 | A rollback issues at most one start, and one that ends the task saw the old container running under the target name or issued exactly one; found running there with nothing in the way, the old container is not started again. If every document is written the task ends; if every call is carried out besides, it ends failed with the old container back and running under the target name. |
| `DockerHelper.Helper.RestoreBackup` | internal/upgrade/docker_helper.go:1046-1080 | At most one start is added; it is of the retained container under its own name exactly if a look at the target name, after the rename failed, found nothing there, and then nothing holds that name. If every call is carried out the old container is back and running. |
| `DockerHelper.Helper.RemoveReplacement` | internal/upgrade/docker_helper.go:1121-1137 | At most one plain and one forced removal are asked of the target name, once the receipt on disk says rolling back and while it holds the container this task created; the forced one only if the transaction records that container or none. |
| `DockerHelper.Helper.Recover` | internal/upgrade/docker_helper.go:1185-1193 | An interrupted task is rolled back from its recorded identity, with what a rollback gives, or left undetermined with no container touched; if every document is read and written and every call carried out, it ends failed with the old container back. |
| `DockerHelper.Helper.WriteReceipt` | internal/upgrade/docker_helper.go:1214-1228 | A receipt is replaced whole or not at all, never over a final one or another task's, and one that may be replaced is, unless the disk fails; a final one that lands is true of the containers, the transaction and the readiness document read; how many clock readings came before an activating one is kept. |
| `DockerHelper.Helper.Restored` | internal/upgrade/docker_helper.go:1174-1183 | A task is reported failed after a rollback only with its old container running under the target name. |
| `DockerHelper.Helper.Authorized` | internal/upgrade/docker_helper.go:978-985 | One fresh reading is appended to the history, and it authorizes exactly on the same boot, before the deadline and within ten minutes of it. |
| `BootCounter.Counter.Authorized` | internal/upgrade/docker_helper.go:978-985 | The helper's answer is exactly whether the reading it just took permits the request. |
| `BootCounter.Counter.Read` | internal/upgrade/clock_linux.go:11-25 | Every answer the counter ever gives is kept in order; within one boot it never goes back. |
| `DockerSwap.RestoreIsSafeExactly` | internal/upgrade/docker_helper.go:1056-1069 | Putting a retained container back under the free target name and starting it leaves one agent running exactly when no other container runs beside it. |
| `DockerSwap.ResumingAnOldTaskWouldRunTwo` | internal/upgrade/docker_helper.go:1056-1069 | A concrete host on which resuming an older unfinished task would run two agents. |
| `DockerSwap.RestoreKeeps` | internal/upgrade/docker_helper.go:1056-1057 | Renaming the task's own retained container back keeps at most one running. |
| `DockerSwap.StartBackupKeeps` | internal/upgrade/docker_helper.go:1062-1073 | Starting the retained container beside an empty target name keeps at most one running. |
| `DockerSwap.Engine.Rename` | internal/upgrade/docker_helper.go:701-703 | A rename takes effect or not when it fails, always when it succeeds, and never onto a name in use. |
| `SystemdUpgrade.Helper.Serve` | internal/upgrade/helper_linux.go:57-193 | Over any number of starts of the helper, each on whatever request it finds and killed anywhere: every receipt, stop and start is about a request that was read and parses, with its boot and deadline; every failed receipt left the task's files untouched or restored exactly what it found, with that binary started last and found running; every succeeded one has the target binary and version installed, started last for the task, found running, and a readiness document that was read and answers this activation, by a nonce drawn for the task; the service was started only on the binary its task found, which passed as the release the request expects, or on one that passed as the release it asks for; it was stopped to begin a task at most once, on a permitting reading taken after its receipt was on disk; every backup with metadata not being removed is complete; and all metadata spoke true at every point exactly if no file was ever pruned. |
| `SystemdUpgrade.Helper.Process` | internal/upgrade/helper_linux.go:81-98 | One request keeps all of that. A stop it adds, and the receipt of a task that had none, are about the very request given; for a task that has a receipt nothing is downloaded again and the service is not stopped forward again; an answer that it is done means the receipt is final. If every document was read and written the task ends, and a new one ends succeeded exactly if its target proved itself. If nothing else stood in the way, it succeeded, or failed with what it found back and running because the target did not prove itself in time, or was refused because some reading came too late or another release than expected is installed. |
| `SystemdUpgrade.Helper.Run` | internal/upgrade/helper_linux.go:57-98 | One start of the helper reads a request, unless it cannot be read, and what it asks for ends as `Process` says. |
| `SystemdUpgrade.Helper.ReadRequest` | internal/upgrade/helper_linux.go:75-82 | What is worked on is what was found; the history of requests is extended by exactly that, and by nothing else. |
| `SystemdHistory.StopsWereAsked` | internal/upgrade/helper_linux.go:75-82 | Every stop of the service was for a request that was read and parses. |
| `SystemdUpgrade.Helper.Prepare` | internal/upgrade/helper_linux.go:99-150 | No managed file changes; a plan is returned only for this request and only if nothing at all went wrong, with a complete backup, the activating receipt on disk, and a clock reading taken after it that permits the request. A refusal is on disk if it can be written, and there is none unless some step failed, some reading came too late, or another release than expected is installed. |
| `SystemdUpgrade.Helper.Admit` | internal/upgrade/helper_linux.go:99-123 | A request is admitted only on a permitting reading, with the version it expects recorded, the installed binary passed as that version, and that binary running; and it is not admitted only for want of one of these or because a file could not be read. |
| `SystemdUpgrade.Helper.Vet` | internal/upgrade/helper_linux.go:106-142 | What passed a check counts as passed, with the version it was checked for, and nothing else does. |
| `SystemdUpgrade.Helper.Fetch` | internal/upgrade/helper_linux.go:132-143 | Only on a reading that permits the request; a candidate is given exactly if the download gave all four files and a binary that passed as the release the request asks for. |
| `SystemdUpgrade.Helper.Record` | internal/upgrade/helper_linux.go:150-168 | What the task found installed, its two binaries and the request they are for are fixed before its first receipt: the installed one passed as the version expected, the other as the one asked for. Whatever receipt is left is about this request; it goes ahead if nothing failed and the last reading permits it. |
| `SystemdUpgrade.Helper.Decide` | internal/upgrade/helper_linux.go:159-168 | The clock is read after the activating receipt landed, and nothing goes ahead unless that reading permits it. |
| `SystemdUpgrade.Helper.StopService` | internal/upgrade/helper_linux.go:166-171 | The one forward stop of a task is recorded with its request and the place of the last clock reading, which permits it. |
| `SystemdUpgrade.Helper.PrepareBackup` | internal/upgrade/helper_linux.go:232-258 | A backup whose metadata was written is a complete copy of the four managed files; cut short, it has none. |
| `SystemdUpgrade.Helper.InstallCandidate` | internal/upgrade/helper_linux.go:270-302 | A reported installation left exactly the verified files with the target version; it is reported exactly if every step was carried out. |
| `SystemdUpgrade.Helper.StartService` | internal/upgrade/helper_linux.go:367-369 | A start is recorded with its task and the binary installed, which is one of the task's two. |
| `SystemdUpgrade.Helper.VerifyProcess` | internal/upgrade/helper_linux.go:596-637 | A confirmation is of the binary the service's process runs, after whatever systemd did meanwhile. |
| `SystemdUpgrade.Helper.WaitReady` | internal/upgrade/helper_linux.go:304-332 | Readiness is a document that was read and answers this activation, and a process confirmed to run the binary it names. It gives up only after one look or more, each of which found no such document or not that process. |
| `SystemdUpgrade.Helper.RestoreBackup` | internal/upgrade/helper_linux.go:406-435 | A reported restore left all four files exactly as the task had found them; it is reported exactly if every step was carried out. |
| `SystemdUpgrade.Helper.Rollback` | internal/upgrade/helper_linux.go:334-383 | At most one start is added. The task ends failed only with every file as it was found, that binary started last for the task and found running since, and only if every step was carried out; it never ends succeeded. If every document is written it ends, and then failed if every step was carried out. |
| `SystemdUpgrade.Helper.RestartAfterFailedRestore` | internal/upgrade/helper_linux.go:466-522 | At most one start is added, on the installed binary, and none if that binary is neither of the task's two; if it is, and the calls are carried out, it is started. |
| `SystemdUpgrade.Helper.Recover` | internal/upgrade/helper_linux.go:437-457 | Without metadata nothing is started, replaced or touched, and the task fails only untouched; with it, what a rollback gives. If every document is written it ends, and if every step is carried out it ends failed exactly if its backup speaks for the binary installed, or it was only being prepared and what it expects is installed. |
| `SystemdUpgrade.Helper.Swap` | internal/upgrade/helper_linux.go:169-180 | From the stop to the final receipt the invariants hold whichever step fails or is cut short, and exactly one forward stop is added. Once the target proved itself, exactly the candidate's files with the target version are installed, exactly one start was added, every step was carried out, and the receipt is the activated one or says succeeded. Otherwise what a rollback gives; and that it proved itself is certain unless a step failed, a document was not written or the wait ran out. |
| `SystemdUpgrade.Helper.RandomNonce` | internal/upgrade/helper_linux.go:172-176 | A nonce is kept with the task it was drawn for. |
| `SystemdUpgrade.Helper.Launch` | internal/upgrade/helper_linux.go:181-193 | The new binary is started only with the activated receipt, and the drawn nonce in it, on disk. Once it proved itself the files are unchanged, exactly one start was added, and the receipt is the activated one or says succeeded, which it does if every document was written; it is then installed, started last for the task, found running and answering this activation. Otherwise the task did not succeed, and failed only with what it found put back and running. |
| `SystemdUpgrade.Helper.Activate` | internal/upgrade/helper_linux.go:177-193 | With the service stopped: the candidate is installed and launched, or what was found is put back; what it comes to is as in `Swap`. |
| `SystemdUpgrade.Helper.WriteReceipt` | internal/upgrade/helper_linux.go:211-230 | A final receipt is never overwritten, one that may be replaced is, unless the disk fails, and one that lands is true of the files, the last start, the process found running and the readiness document read. |
| `SystemdUpgrade.Helper.Prune` | internal/upgrade/helper_linux.go:641-729 | Found two or fewer complete backups of finished tasks, nothing changes; else only all but the last two are touched, and a pass that reports success removed exactly those. It reports success exactly if every step was carried out, and then, if none looked odd, no other complete backup of a finished task is left than those last two. |
| `SystemdUpgrade.Helper.PruneOne` | internal/upgrade/helper_linux.go:703-722 | One backup goes file by file; no other changes, and one that lost a file counts as being removed from then on. |
| `SystemdHistory.HonestNowExactly` | internal/upgrade/helper_linux.go:703-722 | In any reachable state all metadata speaks for complete backups exactly when every removal begun has got as far as the metadata. |
| `SystemdHistory.PrunedIsHonestExactly` | internal/upgrade/helper_linux.go:705-721 | Part-way through a removal the metadata speaks for a complete backup exactly before the first file is gone and after the last. |
| `SystemdHistory.PruningIsHonestExactly` | internal/upgrade/helper_linux.go:703-722 | Metadata implies a complete backup at every point of pruning all but the last two of a list of complete backups exactly when the list has at most two. |
| `SystemdHistory.InterruptedPruningLies` | internal/upgrade/helper_linux.go:705-721 | A concrete backup whose metadata remains after its binary was pruned. |
| `TaskClock.BoundsAreSound` | internal/agent/task_clock.go:82-203 | In every call sequence with honest stamps, all bounds ever returned contain the control-plane time of their reading. |
| `TaskClock.JudgedRightly` | internal/agent/task_clock.go:136-203 | In every call sequence with honest stamps, a deadline that the last bounds leave time for is ahead in control-plane time, and one they prove over is over. |
| `TaskClock.ExpiryIsPermanent` | internal/agent/task_clock.go:82-208 | With no honesty assumed, once some bounds proved a deadline passed, every later bounds prove it too and none authorizes it. |
| `TaskClock.FailureLeavesNoAnchor` | internal/agent/task_clock.go:205-208 | A failed observation or query leaves no anchor. |
| `TaskClock.ReanchoringNarrows` | internal/agent/task_clock.go:113-130 | A new anchor lies within the bounds known at its reception. |
| `TaskClock.HonestIsNeverInconsistent` | internal/agent/task_clock.go:119-123 | An honest observation with a usable counter, stamp and round trip is never refused as inconsistent. |
| `TaskClock.ObservedKeeps` | internal/agent/task_clock.go:82-131 | An observation never lowers the floor, accepts no older stamp, and anchors at or above the floor. |
| `TaskClock.QueriedKeeps` | internal/agent/task_clock.go:136-147 | A query never lowers the floor, and its lower bound is at least everything proven before. |
| `TaskClock.SampleContains` | internal/agent/task_clock.go:99-118 | The interval of an honest stamp, intersected with what was known, contains the time of reception. |
| `TaskClockAnswers.AnsweredExactly` | internal/agent/task_clock.go:136-208 | In every sequence of calls, a query is answered exactly if some observation carries to it: accepted, the last one, every call since with a readable counter that does not go back and within the age the policy allows, and fresh by policy at the query. |
| `TaskClockAnswers.AnswersAreNear` | internal/agent/task_clock.go:82-203 | In every sequence of calls, whatever the counter and the stamps do, every answer rests on that observation and is near it: the upper bound less than two milliseconds beyond its stamp, uncertainty and the time since its request was sent, the lower less than one short of its stamp less the uncertainty and the time since its response. |
| `TaskClockAnswers.AcceptedExactly` | internal/agent/task_clock.go:82-131 | In every sequence of calls with honest stamps, an observation is accepted exactly if its reading is good, its stamp is not older than one accepted before, and stamp, start and round trip are usable by policy. |
| `TaskClockAnswers.BoundsExactly` | internal/agent/task_clock.go:174-203 | Bounds are given exactly while the anchor is fresh, and then are its own, moved on by the time since, down for the lower and up for the upper. |
| `TaskClockCode.ControlPlaneTaskClock.Observe` | internal/agent/task_clock.go:82-131 | The in-place 64-bit code computes the specified state and answer, nothing in it overflows, and its fields are always what the calls made so far give. |
| `TaskClockCode.ControlPlaneTaskClock.TaskTimeBounds` | internal/agent/task_clock.go:136-147 | The same for a query; its answer is the one the specification gives for the whole sequence of calls so far, so `TaskClockAnswers` says exactly when there is one and how near it lies. |
| `TaskClockCode.ControlPlaneTaskClock.CaptureLocked` | internal/agent/task_clock.go:149-172 | The same for a reading of the counter. |
| `TaskClockCode.ControlPlaneTaskClock.BoundsAtLocked` | internal/agent/task_clock.go:174-203 | The same for bounds at a reading, which are what `TaskClockAnswers.BoundsExactly` says. |
| `TaskClockCode.AddTaskClockMS` | internal/agent/task_clock.go:218-223 | The checked sum, or that it is negative or too large. |
| `TaskClockCode.CeilTaskClockMS` | internal/agent/task_clock.go:210-216 | Milliseconds rounded up. |
| `TaskClockCode.TaskElapsedTimespec` | internal/agent/task_clock.go:225-231 | A timespec becomes nanoseconds exactly when it is well formed and fits. |
| `TaskClockCode.NewControlPlaneTaskClock` | internal/agent/task_clock.go:48-64 | A clock is built exactly when the policy is positive and the counter can be read. |
| `Deadline.Authorize` | internal/upgrade/client.go:79-99 | The boot counter is read before the clock, on one counter, so the reading the deadline counts from is never later than the one the bounds are of; the deadline is what is left at the upper bound, and is refused exactly when nothing or more than ten minutes is left or it does not fit. |
| `Deadline.ActsBeforeDeadline` | internal/upgrade/client.go:79-99 | Under the clock's assumptions, acting on a reading before the converted deadline is acting strictly before the task's deadline in control-plane time. |
| `Deadline.InTimeExactly` | internal/upgrade/client.go:79-99 | That holds for every reading exactly when the client's counter reading lies at or before the upper bound. |
| `Deadline.ReadingTheCounterLastOverruns` | internal/upgrade/client.go:79-83 | Concrete samples showing that reading the counter after the bounds would let a task start late. |
| `Deadline.CapNeverRefuses` | internal/upgrade/docker_helper.go:978-985 | Of all readings taken on the request's boot since it was built, exactly those before its deadline permit it: the ten-minute cap never refuses one. |
| `Deadline.AgentIsStoppedInTime` | internal/upgrade/docker_helper.go:695-700 | Every forward stop of the agent container for a request the client built went on a counter reading taken after the receipt was on disk and, under the clock's assumptions, strictly before the task's deadline. |
| `Deadline.ServiceIsStoppedInTime` | internal/upgrade/helper_linux.go:163-171 | The same of every forward stop of the service. |
| `Deadline.UpgradeUnderDocker` | internal/upgrade/client.go:79-107 | Client and Docker helper on one counter: whatever the helper serves after the client built a request, killed and restarted at will, if all it read about the task is that request, each stop it ever made for the task was decided strictly before the task's deadline, under the clock's assumptions. |
| `Deadline.UpgradeUnderSystemd` | internal/upgrade/client.go:79-107 | The same for client and systemd helper. |
| `TaskWorker.Restart` | internal/agent/tasks.go:223-342 | Over any number of worker processes, each with a clock of its own and killed anywhere, no task is entered twice; each entry is made for the row in the journal under its claim, and if that row has a deadline, on an answer of the clock that was asked for after the claim landed and leaves time before that deadline; no row is lost or, once terminal, changed; and every terminal row ended as something seen of that task says: its deadline provably over by some clock, nothing that handles or can recover it, or what its handler returned for an entry or a recovery. |
| `TaskWorker.Worker.Run` | internal/agent/tasks.go:223-244 | One process keeps all of that, and enters nothing unless everything left running has ended; it drains as often as it is woken, and returns only if told to stop or after a read or write failed. |
| `TaskWorker.Worker.RecoverRunning` | internal/agent/tasks.go:246-280 | What was left running is never entered, and once the pass is through all of it has ended; it gets through unless told to stop or a read or write failed. |
| `TaskWorker.Worker.Drain` | internal/agent/tasks.go:282-342 | Tasks are claimed one after another: it stops only with no row left that has no deadline and waits, on a task put back for the clock, when told to, or after a read or write failed. |
| `TaskWorker.Worker.DrainOne` | internal/agent/tasks.go:282-342 | One claim enters at most one task, and none that was not received before it. Which of nothing to claim, a failed claim, a deadline over, nothing that handles it, and an attempt it was is told truthfully; an attempt is made only of a kind something is registered for and enters the task exactly if it is not put back. It is reported as failed exactly if a write failed. |
| `TaskWorker.Worker.Enter` | internal/agent/tasks.go:317-341 | Between claim and handler the clock is asked again. The task is passed over only if that answer leaves no time before its deadline, or there is none; then nothing is entered, and the claim is given back unless a write fails. Otherwise it is entered, and unless it is cut short or a write fails it ends in the state its handler's outcome gives. Heartbeats and new tasks may come between the answer and the entry. |
| `TaskWorker.Worker.Execute` | internal/agent/tasks.go:334-334 | The one place a task is entered: with the row that is in the journal, and, if it has a deadline, on an answer asked for since its claim that leaves time before it. |
| `TaskWorker.Worker.Finish` | internal/agent/tasks.go:344-392 | A finished task is succeeded exactly if its handler returned without error and with a valid result, indeterminate exactly if its error says so or, saying nothing of it, came of a recovery, and failed otherwise; a running row is finished unless a write fails. One that was cut short is not finished. |
| `TaskWorker.Worker.FinishError` | internal/agent/tasks.go:367-392 | A task without a result ends indeterminate or failed as told, for a cause that was seen; a running row does unless a write fails. |
| `TaskWorker.Store.ClaimNextTaskFenced` | internal/state/sqlite/tasks.go:115-222 | A row leaves received only for running, with time left by the bounds just asked for it, or for failed, with the deadline provably over by them; this holds of what landed even if the call failed. A claimed row was never entered. Nothing is claimed only if no row without a deadline waits, and every row of the page has one that the clock, asked since, decided neither way; a page short of its size holds every claimable row. It fails exactly if a write did. |
| `TaskWorker.Store.Candidates` | internal/state/sqlite/tasks.go:124-166 | A page holds received rows only, those with a deadline only if there is a clock, all of them if it is not full, and a row without a deadline whenever there is one. |
| `TaskWorker.Store.ClaimOne` | internal/state/sqlite/tasks.go:167-220 | A received row becomes running or failed, as the bounds just asked for it warrant, and is passed over only if they show neither that time is left nor that none is. |
| `TaskWorker.Store.ReleaseTaskClaim` | internal/state/sqlite/tasks.go:227-248 | A release undoes exactly the caller's own claim and nothing else, and undoes it unless a write fails. |
| `TaskWorker.Store.CompleteTask` | internal/state/sqlite/tasks.go:286-340 | A completion ends a running row, unless a write fails, and never changes a terminal one; repeating it is answered as done. It ends it only as something seen of that task says. |
| `TaskWorker.Store.RunningTasks` | internal/state/sqlite/tasks.go:91-109 | Every running row is listed once, and nothing else. |
| `TaskWorker.Store.Accept` | internal/state/sqlite/tasks.go:24-82 | A task is inserted at most once, as received, and with a deadline only if the bounds just asked leave time for it; it is refused only for another identity under its name, or a deadline the bounds leave no time for, unless a write fails. |
| `TaskWorker.EnteredInTime` | internal/agent/tasks.go:317-333 | Under the clock's assumptions, the reading that let a task with a deadline be entered was taken strictly before the deadline of its row in the journal. |
| `ReleaseId.ParseProductVersion` | releaseid/releaseid.go:119-147 | The loops and early returns compute the specified parser. |
| `ReleaseId.ParsesExactlySpellings` | releaseid/releaseid.go:119-177 | A text parses to a version exactly when the version is well formed and the text spells it. |
| `ReleaseId.ParseUndoesRender` | releaseid/releaseid.go:107-147 | Parsing a well-formed version's text gives it back. |
| `ReleaseId.RenderInjective` | releaseid/releaseid.go:107-116 | Two well-formed versions with the same text are the same. |
| `ReleaseId.ValidVersion` | releaseid/releaseid.go:223-229 | Decides the version strings. |
| `ReleaseId.ValidVersionsAreRenderings` | releaseid/releaseid.go:223-229 | A string is a version exactly when it is the text of a well-formed version with positive major, so each release has one string. |
| `ReleaseId.ParseReleaseTag` | releaseid/releaseid.go:293-310 | Computes the reading of a tag that `TagsAreAddresses` characterises. |
| `ReleaseId.TagsAreAddresses` | releaseid/releaseid.go:293-321 | A text is read as a tag of a version exactly when the version is well formed with positive major and the text is its current or its historical address. |
| `ReleaseId.TagForVersion` | releaseid/releaseid.go:250-261 | The current tag of a version, which reads back to it, or a refusal of what is not one. |
| `ReleaseId.HistoricalTagFor` | releaseid/releaseid.go:271-277 | The historical tag of a version, which reads back to it, or a refusal. |
| `ReleaseId.NamespacesAgree` | releaseid/releaseid.go:250-321 | Both namespaces' tags of a version parse back to the same version. |
| `VersionOrder.CompareProductVersion` | releaseid/releaseid.go:180-209 | The loop computes the specified comparison. |
| `VersionOrder.CompareIsTotalOrder` | releaseid/releaseid.go:180-209 | On well-formed versions the comparison is antisymmetric, transitive and zero only on equality. |
| `VersionOrder.CompareByKey` | releaseid/releaseid.go:180-209 | It is the lexicographic order of an explicit key. |
| `VersionOrder.CompareIsSemVerPrecedence` | releaseid/releaseid.go:180-209 | On three segments it is the precedence of section 11 of Semantic Versioning 2.0.0. |
| `VersionOrder.IllFormedCountersAreNotOrdered` | releaseid/releaseid.go:180-209 | Outside well-formed versions two different ones can each compare above the other. |
| `VersionOrder.NotAntisymmetricExactly` | releaseid/releaseid.go:180-209 | On any two versions whatever, turning the comparison round changes its sign, except exactly on two different spellings of one stage and counter. |
| `VersionOrder.ProductVersionNewer` | internal/upgrade/docker_follow.go:365-377 | Newer means both parse and the first compares above. |
| `VersionOrder.NewerIsTransitive` | internal/upgrade/docker_follow.go:365-377 | Newer is transitive. |
| `VersionOrder.NewerIsIrreflexive` | internal/upgrade/docker_follow.go:365-377 | No version is newer than itself. |
| `Allocation.AllocatePatch` | releaseid/allocate.go:85-122 | The result is on the line and strictly above every readable tag of it in either namespace, and is the least patch build that is; it refuses exactly a line with no release, or exhaustion. |
| `Allocation.NextBuildIsAbove` | releaseid/allocate.go:85-122 | The next build after the highest of a line is above everything taken on it. |
| `Allocation.NextBuildIsLeast` | releaseid/allocate.go:85-122 | No patch build above everything taken on the line comes before the next build after the highest; after a final release, nothing at all does. |
| `Allocation.ResumeTag` | releaseid/allocate.go:156-179 | The one tag of the line on the commit, or which of none and several it is. |
| `Candidates.AllocateCandidate` | releaseid/candidate.go:25-92 | Every result is a fresh version of its stage on its line above all readable tags; with no target the answer is determined by the highest tag and refuses only bad arguments, beta after rc, or exhaustion. |
| `Candidates.CandidateOnBase` | releaseid/candidate.go:60-92 | The candidate on a base continues its stage's count over both namespaces, or refuses. |
| `Candidates.CountCandidates` | releaseid/candidate.go:60-83 | The count of a base's candidates of a stage, or that the base is final or further on. |
| `Candidates.FindHighest` | releaseid/candidate.go:32-39 | The highest readable version of the line. |
| `Candidates.ChooseBase` | releaseid/candidate.go:40-59 | The base that follows the highest version of the line. |
| `Candidates.BaseIsLeast` | releaseid/candidate.go:40-59 | The base an allocation with no target works on is the least three-segment release above everything taken on the line: such a release is above all of it exactly if it is at or above that base. |
| `Candidates.AdvanceRelease` | releaseid/release_stage.go:46-74 | Exactly when each stage is allowed and what it gives; the result is above its source, and an rc result is absent from the tags. |

## Left out

- The steps of docker_successor.go and docker_handover.go are transitions of a state machine on values rather than methods of an object, because other processes act between any two of them; the controller's own fields (`finishAt`, `tidyNote`, `announced`, the follow schedule) are not modelled.
- When a step is taken: tickers, settle times, the stability window, the reclaim age and heartbeat staleness only ever forbid steps the model allows.
- Restart counts, pauses and start times seen while waiting for the successor: the model lets the wait end for them, with the reasons the source gives, without saying when they are so.
- Moving a journal that does not decode aside (docker_handover_state.go:299-321).
- The successor's clone: its environment, security fields and mounts (docker_handover.go:175-226, docker_updater_identity.go:113-177).
- Evidence lookup and the opt-out of following (docker_follow.go:215-232, 273-363): the model takes an eligible agent as given.
- Which containers, images and binaries the upgrade accepts (docker_helper.go:743-960, helper_linux.go:101-140): what a check looks at is not modelled, only which container, image or binary it passed, and for which version.
- The age by which finished backups are ordered before pruning (helper_linux.go:694-700): the model prunes in any order.
- Anyone else starting or stopping the service under systemd; systemd itself may restart or lose the process at any time.
- Downloads, signatures, file modes and ownership, JSON documents, the Docker HTTP client, mountinfo.
- The agent's wait for a receipt and its readiness document (client.go:110-219).
- The result outbox, delivery and re-arming of task results (internal/state/sqlite/tasks.go:369-431), and the order in which candidates are claimed: the model takes a page in any order.
- UpdaterGuard.Overlapping: paths are taken as already cleaned.
- ReleaseStage, ReleaseAliases, ResolveChannel and ParseReleaseLine: case analyses that would only add easy members.
- Message text, quoting and logging.
