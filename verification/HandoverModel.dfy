/**
  * The updater handover as a transition system: several updater processes, one
  * kernel lock, one durable journal, one proof file and a Docker engine
  * (internal/upgrade/docker_helper.go serve, compete, aloneWithoutLock, run;
  * docker_successor.go; docker_handover.go; docker_follow.go followTarget).
  *
  * One action is one access to something shared. Between any two actions of a
  * process, any other process or the environment may act, and any process may die:
  * that loses its memory and the lock, and keeps everything on disk.
  */
module HandoverModel {
  import opened Wrappers
  import opened VersionOrder
  import opened HandoverJournal

  type Cid = string

  /**
    * What the runs range over. Either the lock can be used by every process, and
    * then updaters nobody handed over to may appear; or it may fail in some
    * processes, and then a second updater comes only from a handover. The root is
    * the updater the node was installed with.
    */
  datatype Config = Config(flockWorks: bool, root: Cid)

  /** What an updater container was built from; it never changes. */
  datatype Build = Build(image: string, version: string)

  /** An existing updater container. Up means the engine keeps a process running in it. */
  datatype Box = Box(name: string, started: bool, up: bool)

  datatype Proof = Proof(handover: string, successor: Cid, version: string, binary: string)

  datatype Agent = Agent(id: string, image: string, version: string, running: bool)

  /** A process: whether it proved its own container, where it is, and whether its heartbeat goroutine is alive. */
  datatype Proc = Proc(resolved: bool, pc: Pc, heart: bool)

  datatype Pc =
    | Boot                                            // serve has begun
    | AloneReading                                    // without a lock: about to read the journal
    | AlonePredecessor(j: Handover)                   // about to inspect the predecessor it names
    | AloneSuccessor(j: Handover)                     // about to inspect the successor it names
    | Unlocked                                        // primary without a lock
    | Choosing                                        // about to derive its role
    | RetiredForGood
    | Watching(h: Handover)                           // retired predecessor of a commit
    | Reclaiming(h: Handover)                         // holds the lock, about to read again
    | ReclaimWriting(h: Handover)
    | ReclaimStopping(h: Handover)
    | ReclaimRemoving(h: Handover)
    | Standing(h: Handover, proven: bool, missing: nat)  // successor in standby
    | Proving(h: Handover, missing: nat)              // checks passed, about to write the proof
    | Abandoning(h: Handover, missing: nat)           // holds the lock, about to read again
    | AbandonWriting(h: Handover, missing: nat)
    | Competing
    | Fencing                                         // holds the lock, about to read again
    | Primary(stage: Stage)

  datatype Stage =
    | Starting                                        // before the heartbeat
    | Reconciling
    | AbortFinding(h: Handover, known: Cid, byName: bool, reason: string)
    | AbortStopping(h: Handover, target: Cid, reason: string)
    | AbortRemoving(h: Handover, target: Cid, reason: string)
    | AbortWriting(h: Handover, reason: string)
    | FinishChecking(h: Handover)
    | FinishStopping(h: Handover)
    | FinishConfirming(h: Handover)
    | FinishWriting(h: Handover)
    | SupersedeWriting(h: Handover)
    | Tidying(j: Handover, todo: seq<Cid>)
    | TidyStopping(j: Handover, target: Cid, rest: seq<Cid>)
    | TidyRemoving(j: Handover, target: Cid, rest: seq<Cid>)
    | Idle
    | SlotFoundIdle(digest: string)
    | Evaluated(h: Handover)
    | CreatingSuccessor(h: Handover)
    | RecordingSuccessor(h: Handover, successor: Cid)
    | Verifying(h: Handover)
    | StartingSuccessor(h: Handover)
    | WaitSlotFirst(h: Handover, proven: bool)
    | WaitSuccessor(h: Handover, proven: bool)
    | WaitAgent(h: Handover, proven: bool, up: bool)
    | WaitProof(h: Handover, proven: bool, up: bool, same: bool)
    | WaitSlotLast(h: Handover, proven: bool, up: bool, same: bool)
    | Committing(h: Handover, read: string)
    | Leaving                                         // committed; the heartbeat is being joined
    | Joined                                          // run has returned; the lock is about to go

  /** A successor that passed every standby check of a handover. */
  datatype Pass = Pass(handover: string, successor: Cid, version: string)

  /** What the processes share, and what has happened so far. */
  datatype World = World(
    journal: Option<Handover>,
    lock: Option<Cid>,
    boxes: map<Cid, Box>,
    proof: Option<Proof>,
    slot: string,            // digest of the agent's request, "" when there is none
    done: set<string>,       // digests of requests whose receipt is terminal
    agent: Agent,
    now: int,
    ever: map<Cid, Build>,   // every updater container there has been
    ids: set<string>,        // every handover the journal has recorded
    passed: set<Pass>,
    log: seq<Entry>)         // every record the journal has held

  datatype State = State(w: World, procs: map<Cid, Proc>)

  // ------------------------------------------------------------------ vocabulary

  /** What a process knows itself as: "" when it could not prove its own container. */
  function SelfOf(s: State, p: Cid): Cid {
    if p in s.procs && s.procs[p].resolved then p else ""
  }

  predicate HoldsLock(pc: Pc) {
    || pc.Fencing? || pc.Reclaiming? || pc.ReclaimWriting? || pc.ReclaimStopping? || pc.ReclaimRemoving?
    || pc.Abandoning? || pc.AbandonWriting? || pc.Primary?
  }

  /** Acting as the primary, its heartbeat goroutine included. */
  predicate Acts(s: State, p: Cid) {
    p in s.procs && (s.procs[p].pc.Primary? || s.procs[p].pc.Unlocked? || s.procs[p].heart)
  }

  predicate SlotIsIdle(slot: string, done: set<string>) {
    slot == "" || slot in done
  }

  predicate At(s: State, p: Cid, pc: Pc) {
    p in s.procs && s.procs[p].pc == pc
  }

  predicate AtStage(s: State, p: Cid, stage: Stage) {
    At(s, p, Primary(stage))
  }

  // ------------------------------------------------------------------- effects

  function Go(s: State, p: Cid, pc: Pc): State {
    if p in s.procs then s.(procs := s.procs[p := s.procs[p].(pc := pc)]) else s
  }

  function Enter(s: State, p: Cid, stage: Stage): State {
    Go(s, p, Primary(stage))
  }

  /** The process moves on, having changed what is shared. */
  function Turn(s: State, w: World, p: Cid, pc: Pc): State {
    Go(s.(w := w), p, pc)
  }

  function Beating(s: State, p: Cid, beating: bool): State {
    if p in s.procs then s.(procs := s.procs[p := s.procs[p].(heart := beating)]) else s
  }

  function Locked(w: World, p: Cid): World {
    w.(lock := Some(p))
  }

  function Released(w: World): World {
    w.(lock := None)
  }

  /** A record lands in the journal. */
  function Landed(w: World, next: Handover, read: string): World {
    w.(journal := Some(next), log := w.log + [Entry(next, w.now, read)], ids := w.ids + {next.id})
  }

  /** How a write ends: what is on disk afterwards, and what the writer is told. */
  datatype Write = Reported | Unreported | Lost

  /**
    * The outcomes the journal writer can have: only an accepted record lands, and only a landed one
    * is reported stored.
    */
  predicate CanWrite(w: World, next: Handover, write: Write) {
    write.Lost? || Accepted(w.journal, next, w.now)
  }

  function AfterWrite(w: World, next: Handover, write: Write): World {
    if write.Lost? then w else Landed(w, next, "")
  }

  /** A process has ended; the kernel dropped its lock with its last descriptor. */
  function Freed(w: World, c: Cid): World {
    if w.lock == Some(c) then Released(w) else w
  }

  function WithBox(w: World, c: Cid, box: Box): World {
    w.(boxes := w.boxes[c := box])
  }

  function WithoutBox(w: World, c: Cid): World {
    w.(boxes := w.boxes - {c})
  }

  function Killed(s: State, c: Cid): State {
    State(Freed(s.w, c), s.procs - {c})
  }

  /** The engine stops a container. */
  function Stopped(s: State, c: Cid): State {
    if c in s.w.boxes then State(WithBox(Freed(s.w, c), c, s.w.boxes[c].(up := false)), s.procs - {c}) else s
  }

  function Removed(s: State, c: Cid): State {
    State(WithoutBox(Freed(s.w, c), c), s.procs - {c})
  }

  /** The engine starts a container that exists. */
  function Started(w: World, c: Cid): World {
    if c in w.boxes then WithBox(w, c, w.boxes[c].(started := true, up := true)) else w
  }

  function Renamed(w: World, c: Cid, name: string): World {
    if c in w.boxes then WithBox(w, c, w.boxes[c].(name := name)) else w
  }

  /** The engine creates a container. */
  function Made(w: World, c: Cid, build: Build, box: Box): World {
    WithBox(w, c, box).(ever := w.ever[c := build])
  }

  predicate UpIn(w: World, c: Cid) {
    c in w.boxes && w.boxes[c].up
  }

  // -------------------------------------------------------------------- actions

  /** Each action names the process that makes it and what that process remembers. */
  datatype Action =
    // the environment
    | Tick(now: int)
    | SlotChange(slot: string)
    | SlotDone
    | AgentChange(agent: Agent)
    | Stranger(c: Cid, build: Build, name: string)
    | OperatorRemove(c: Cid)
    | OperatorStop(c: Cid)
    | OperatorStart(c: Cid)
    | Crash(p: Cid)
    | Launch(p: Cid, resolved: bool)
    // serve
    | OpenLock(p: Cid, usable: bool)
    | AloneRead(p: Cid, readable: bool)
    | AloneInspectPredecessor(p: Cid, h: Handover, answered: bool)
    | AloneInspectSuccessor(p: Cid, h: Handover, answered: bool)
    | Choose(p: Cid, readable: bool)
    | TryLock(p: Cid)
    | LockUnusable(p: Cid)
    | StopCompeting(p: Cid)
    | Fence(p: Cid, readable: bool)
    // a retired predecessor
    | StopWatching(p: Cid, h: Handover)
    | ReclaimLock(p: Cid, h: Handover)
    | ReclaimRead(p: Cid, h: Handover, readable: bool)
    | ReclaimWrite(p: Cid, h: Handover, write: Write)
    | ReclaimStop(p: Cid, h: Handover, effect: bool)
    | ReclaimRemove(p: Cid, h: Handover, effect: bool)
    // a successor in standby
    | StopStanding(p: Cid, h: Handover, proven: bool, missing: nat)
    | StandbyCheck(p: Cid, h: Handover, missing: nat)
    | WriteProof(p: Cid, h: Handover, missing: nat, write: Write)
    | LookForPredecessor(p: Cid, h: Handover, proven: bool, missing: nat, answered: bool)
    | AbandonLock(p: Cid, h: Handover, missing: nat)
    | AbandonRead(p: Cid, h: Handover, missing: nat, readable: bool)
    | AbandonWrite(p: Cid, h: Handover, missing: nat, write: Write)
    // the primary reconciling
    | BeginRun(p: Cid)
    | BeginReconcile(p: Cid)
    | ReconcileRead(p: Cid, readable: bool)
    | AbortFind(p: Cid, h: Handover, known: Cid, byName: bool, reason: string, found: Cid)
    | AbortStop(p: Cid, h: Handover, target: Cid, reason: string, effect: bool)
    | AbortRemove(p: Cid, h: Handover, target: Cid, reason: string, effect: bool)
    | AbortWrite(p: Cid, h: Handover, reason: string, write: Write)
    | FinishCheck(p: Cid, h: Handover, answered: bool)
    | FinishStop(p: Cid, h: Handover, effect: bool, confirmed: bool)
    | FinishConfirm(p: Cid, h: Handover, answered: bool)
    | FinishWrite(p: Cid, h: Handover, write: Write)
    | SupersedeWrite(p: Cid, h: Handover, write: Write)
    // the primary tidying
    | BeginTidy(p: Cid, j: Handover)
    | TidyNext(p: Cid, j: Handover, target: Cid, rest: seq<Cid>, act: bool)
    | TidyStop(p: Cid, j: Handover, target: Cid, rest: seq<Cid>, effect: bool)
    | TidyRemove(p: Cid, j: Handover, target: Cid, rest: seq<Cid>, effect: bool)
    | TidyRename(p: Cid, j: Handover, target: Cid, name: string, effect: bool)
    | EndTidy(p: Cid, j: Handover, rest: seq<Cid>)
    // the primary following the agent
    | ReadSlot(p: Cid)
    | Evaluate(p: Cid, digest: string, h: Handover)
    | Refuse(p: Cid, digest: string)
    | WritePrepared(p: Cid, h: Handover, write: Write)
    | CreateSuccessor(p: Cid, h: Handover, c: Cid, build: Build, effect: bool, confirmed: bool)
    | WriteCreated(p: Cid, h: Handover, c: Cid, write: Write)
    | VerifySuccessor(p: Cid, h: Handover)
    | StartSuccessor(p: Cid, h: Handover, effect: bool, confirmed: bool)
    | GiveUp(p: Cid, h: Handover, stage: Stage, reason: string)
    // the predecessor waiting for its successor
    | ReadSlotFirst(p: Cid, h: Handover, proven: bool, readable: bool)
    | InspectSuccessor(p: Cid, h: Handover, proven: bool, answered: bool)
    | InspectAgent(p: Cid, h: Handover, proven: bool, up: bool, answered: bool)
    | ReadProof(p: Cid, h: Handover, proven: bool, up: bool, same: bool)
    | ReadSlotLast(p: Cid, h: Handover, proven: bool, up: bool, same: bool, stable: bool, readable: bool)
    | WriteCommitted(p: Cid, h: Handover, read: string, write: Write)
    | JoinHeartbeat(p: Cid)
    | ReleaseLock(p: Cid)

  /** A reading of the journal: nothing when it could not be read. */
  function Reading(w: World, readable: bool): Option<Handover> {
    if readable then w.journal else None
  }

  // --------------------------------------------------- the records a role writes

  function RevertedRecord(h: Handover, now: int): Handover {
    var reason := "successor never took over";
    h.(phase := Reverted, reason := reason, notBefore := NotBefore(h.attempt, reason, now))
  }

  function AbandonedRecord(h: Handover): Handover {
    h.(phase := Abandoned, reason := "predecessor removed")
  }

  function AbortedRecord(h: Handover, reason: string, now: int): Handover {
    h.(phase := Aborted, reason := reason, notBefore := NotBefore(h.attempt, reason, now))
  }

  function CompletedRecord(h: Handover): Handover {
    h.(phase := Completed)
  }

  function SupersededRecord(h: Handover): Handover {
    h.(phase := Superseded, reason := "another updater holds the lock")
  }

  function CreatedRecord(h: Handover, c: Cid): Handover {
    h.(phase := Created, successor := c)
  }

  function CommittedRecord(h: Handover): Handover {
    h.(phase := Committed)
  }

  // ------------------------------------------------------------------ conditions

  /** The journal is still the handover this process set out with, at the phase that lets it act. */
  predicate StillReclaimable(journal: Option<Handover>, h: Handover, self: Cid) {
    journal.Some? && journal.value.id == h.id && journal.value.phase.Committed? && journal.value.predecessor == self
  }

  predicate StillAbandonable(journal: Option<Handover>, h: Handover, self: Cid) {
    journal.Some? && journal.value.id == h.id && journal.value.phase.Created? && journal.value.successor == self
  }

  /** Every check of standbyChecks that depends on the modelled state. */
  predicate PassesStandbyChecks(w: World, p: Cid, h: Handover) {
    && p in w.ever && w.ever[p] == Build(h.image, h.version)
    && w.agent.running && w.agent.id == h.agentContainer
  }

  /** The container a cleanup may take for this handover's successor, found by name alone. */
  predicate UnmistakablySuccessor(w: World, h: Handover, c: Cid) {
    c in w.boxes && w.boxes[c].name == h.successorName && !w.boxes[c].started && c in w.ever
    && w.ever[c].image == h.image
  }

  /** The created container, read back before anything starts it. */
  predicate IsWhatWasCreated(w: World, h: Handover) {
    var c := h.successor;
    && c in w.boxes && w.boxes[c].name == h.successorName && !w.boxes[c].started
    && c in w.ever && w.ever[c].image == h.image
  }

  function AbortTarget(h: Handover, known: Cid, found: Cid): Cid {
    if h.successor != "" then h.successor else if known != "" then known else found
  }

  /** Every container the finished journal names, other than this updater, is gone. */
  predicate NamedAreGone(w: World, p: Cid) {
    w.journal.Some? ==>
      && Terminal(w.journal.value.phase)
      && forall c :: c in Named(w.journal.value) && c != p ==> c !in w.boxes
  }

  /** What followTarget found eligible, written down as the handover it begins. */
  predicate Eligible(w: World, p: Cid, digest: string, h: Handover) {
    && NamedAreGone(w, p)
    && p in w.ever && w.agent.running
    && Newer(w.agent.version, w.ever[p].version)
    && w.ever[p].image != w.agent.image
    && h.phase.Prepared? && h.predecessor == p && h.successor == ""
    && h.predecessorImage == w.ever[p].image && h.predecessorVersion == w.ever[p].version
    && h.image == w.agent.image && h.version == w.agent.version && h.agentContainer == w.agent.id
    && h.requestDigest == digest
    && NextAttempt(w.journal, p, h.image, w.now) == Success(h.attempt)
    && h.notBefore == 0 && h.reason == ""
  }

  /** The leftovers of a finished handover, other than this updater. */
  function Leftovers(j: Handover, p: Cid): seq<Cid> {
    (if j.predecessor == "" || j.predecessor == p then [] else [j.predecessor])
    + (if j.successor == "" || j.successor == p then [] else [j.successor])
  }

  // ------------------------------------------------------------------ transitions

  predicate EnvironmentEnabled(cfg: Config, s: State, a: Action) {
    match a
    case Tick(_) => true
    case SlotChange(_) => true
    case SlotDone => true
    case AgentChange(agent) => agent.id !in s.w.ever
    case Stranger(c, _, _) => cfg.flockWorks && c != "" && c !in s.w.ever && c != s.w.agent.id
    case OperatorRemove(c) => c in s.w.boxes
    case OperatorStop(c) => c in s.w.boxes
    case OperatorStart(c) => c in s.w.boxes && (s.w.boxes[c].started || cfg.flockWorks)
    case Crash(p) => p in s.procs
    case Launch(p, _) => p in s.w.boxes && s.w.boxes[p].started && s.w.boxes[p].up && p !in s.procs
    case _ => false
  }

  /** The clock, the request slot and the agent change as they will. */
  function Outdoors(w: World, a: Action): World {
    match a
    case Tick(now) => w.(now := now)
    case SlotChange(slot) => w.(slot := slot)
    case SlotDone => w.(done := w.done + {w.slot})
    case AgentChange(agent) => w.(agent := agent)
    case _ => w
  }

  function EnvironmentStep(s: State, a: Action): State {
    match a
    case Tick(_) => s.(w := Outdoors(s.w, a))
    case SlotChange(_) => s.(w := Outdoors(s.w, a))
    case SlotDone => s.(w := Outdoors(s.w, a))
    case AgentChange(_) => s.(w := Outdoors(s.w, a))
    case Stranger(c, build, name) => s.(w := Made(s.w, c, build, Box(name, true, true)))
    case OperatorRemove(c) => Removed(s, c)
    case OperatorStop(c) => Stopped(s, c)
    case OperatorStart(c) => s.(w := Started(s.w, c))
    case Crash(p) => Killed(s, p)
    case Launch(p, resolved) => s.(procs := s.procs[p := Proc(resolved, Boot, false)])
    case _ => s
  }

  predicate ServeEnabled(cfg: Config, s: State, a: Action) {
    match a
    case OpenLock(p, usable) => At(s, p, Boot) && (usable || !cfg.flockWorks)
    case AloneRead(p, _) => At(s, p, AloneReading)
    case AloneInspectPredecessor(p, h, _) => At(s, p, AlonePredecessor(h))
    case AloneInspectSuccessor(p, h, _) => At(s, p, AloneSuccessor(h))
    case Choose(p, _) => At(s, p, Choosing)
    case TryLock(p) => At(s, p, Competing) && s.w.lock.None?
    case LockUnusable(p) => At(s, p, Competing) && !cfg.flockWorks
    case StopCompeting(p) => At(s, p, Competing)
    case Fence(p, _) => At(s, p, Fencing)
    case _ => false
  }

  /** Where a process goes once it has read the journal and knows its role. */
  function RolePc(journal: Option<Handover>, self: Cid): Pc {
    if journal.None? then Competing else
      match RoleOf(journal, self)
      case Candidate => Competing
      case Retired => RetiredForGood
      case RetiredWatch => Watching(journal.value)
      case Standby => Standing(journal.value, false, 0)
  }

  /** What a process without a lock makes of the journal. */
  function AlonePc(journal: Option<Handover>, self: Cid): Pc {
    if journal.None? then Unlocked
    else if Terminal(journal.value.phase) && RoleOf(journal, self).Candidate? then AlonePredecessor(journal.value)
    else Choosing
  }

  /** It goes on only if each container the journal names is itself or gone. */
  function AfterPredecessor(w: World, h: Handover, self: Cid, answered: bool): Pc {
    if h.predecessor == self || (answered && h.predecessor !in w.boxes) then AloneSuccessor(h) else Choosing
  }

  function AfterSuccessor(w: World, h: Handover, self: Cid, answered: bool): Pc {
    if h.successor == "" || h.successor == self || (answered && h.successor !in w.boxes) then Unlocked else Choosing
  }

  function ServeStep(s: State, a: Action): State {
    match a
    case OpenLock(p, usable) => Go(s, p, if usable then Choosing else AloneReading)
    case AloneRead(p, readable) => Go(s, p, if readable then AlonePc(s.w.journal, SelfOf(s, p)) else Choosing)
    case AloneInspectPredecessor(p, h, answered) =>
      Go(s, p, AfterPredecessor(s.w, h, SelfOf(s, p), answered))
    case AloneInspectSuccessor(p, h, answered) =>
      Go(s, p, AfterSuccessor(s.w, h, SelfOf(s, p), answered))
    case Choose(p, readable) => Go(s, p, RolePc(Reading(s.w, readable), SelfOf(s, p)))
    case TryLock(p) => Turn(s, Locked(s.w, p), p, Fencing)
    case LockUnusable(p) => Go(s, p, AloneReading)
    case StopCompeting(p) => Go(s, p, Choosing)
    case Fence(p, readable) =>
      if readable && RoleOf(s.w.journal, SelfOf(s, p)).Candidate? then Enter(s, p, Starting)
      else Turn(s, Released(s.w), p, Choosing)
    case _ => s
  }

  predicate RetiredEnabled(s: State, a: Action) {
    match a
    case StopWatching(p, h) => At(s, p, Watching(h))
    case ReclaimLock(p, h) => At(s, p, Watching(h)) && s.w.lock.None?
    case ReclaimRead(p, h, _) => At(s, p, Reclaiming(h))
    case ReclaimWrite(p, h, write) => At(s, p, ReclaimWriting(h)) && CanWrite(s.w, RevertedRecord(h, s.w.now), write)
    case ReclaimStop(p, h, _) => At(s, p, ReclaimStopping(h))
    case ReclaimRemove(p, h, _) => At(s, p, ReclaimRemoving(h))
    case _ => false
  }

  function RetiredStep(s: State, a: Action): State {
    match a
    case StopWatching(p, _) => Go(s, p, Choosing)
    case ReclaimLock(p, h) => Turn(s, Locked(s.w, p), p, Reclaiming(h))
    case ReclaimRead(p, h, readable) =>
      if readable && StillReclaimable(s.w.journal, h, SelfOf(s, p)) then Go(s, p, ReclaimWriting(s.w.journal.value))
      else Turn(s, Released(s.w), p, Watching(h))
    case ReclaimWrite(p, h, write) =>
      var after := AfterWrite(s.w, RevertedRecord(h, s.w.now), write);
      if write.Reported? then Turn(s, after, p, ReclaimStopping(h)) else Turn(s, Released(after), p, Watching(h))
    case ReclaimStop(p, h, effect) => Go(if effect then Stopped(s, h.successor) else s, p, ReclaimRemoving(h))
    case ReclaimRemove(p, h, effect) => Enter(if effect then Removed(s, h.successor) else s, p, Starting)
    case _ => s
  }

  predicate StandbyEnabled(s: State, a: Action) {
    match a
    case StopStanding(p, h, proven, missing) => At(s, p, Standing(h, proven, missing))
    case StandbyCheck(p, h, missing) => At(s, p, Standing(h, false, missing)) && PassesStandbyChecks(s.w, p, h)
    case WriteProof(p, h, missing, _) => At(s, p, Proving(h, missing))
    case LookForPredecessor(p, h, proven, missing, _) => At(s, p, Standing(h, proven, missing))
    case AbandonLock(p, h, missing) => At(s, p, Standing(h, true, missing)) && missing >= 2 && s.w.lock.None?
    case AbandonRead(p, h, missing, _) => At(s, p, Abandoning(h, missing))
    case AbandonWrite(p, h, missing, write) =>
      At(s, p, AbandonWriting(h, missing)) && CanWrite(s.w, AbandonedRecord(h), write)
    case _ => false
  }

  /** Looks in a row at which the predecessor did not exist. */
  function Misses(w: World, h: Handover, missing: nat, answered: bool): nat {
    if answered && h.predecessor !in w.boxes then missing + 1 else 0
  }

  function StandbyStep(s: State, a: Action): State {
    match a
    case StopStanding(p, _, _, _) => Go(s, p, Choosing)
    case StandbyCheck(p, h, missing) =>
      Turn(s, s.w.(passed := s.w.passed + {Pass(h.id, p, h.version)}), p, Proving(h, missing))
    case WriteProof(p, h, missing, write) =>
      var proof := Proof(h.id, p, h.version, h.agentBinary);
      Turn(s, if write.Lost? then s.w else s.w.(proof := Some(proof)), p, Standing(h, write.Reported?, missing))
    case LookForPredecessor(p, h, proven, missing, answered) =>
      Go(s, p, Standing(h, proven, Misses(s.w, h, missing, answered)))
    case AbandonLock(p, h, missing) => Turn(s, Locked(s.w, p), p, Abandoning(h, missing))
    case AbandonRead(p, h, missing, readable) =>
      if readable && StillAbandonable(s.w.journal, h, SelfOf(s, p))
      then Go(s, p, AbandonWriting(s.w.journal.value, missing))
      else Turn(s, Released(s.w), p, Standing(h, true, missing))
    case AbandonWrite(p, h, missing, write) =>
      var after := AfterWrite(s.w, AbandonedRecord(h), write);
      if write.Reported? then Turn(s, after, p, Primary(Starting))
      else Turn(s, Released(after), p, Standing(h, true, missing))
    case _ => s
  }

  predicate AbortEnabled(s: State, a: Action) {
    match a
    case AbortFind(p, h, known, byName, reason, found) =>
      AtStage(s, p, AbortFinding(h, known, byName, reason))
      && (found != "" ==> byName && UnmistakablySuccessor(s.w, h, found))
    case AbortStop(p, h, target, reason, _) => AtStage(s, p, AbortStopping(h, target, reason))
    case AbortRemove(p, h, target, reason, _) => AtStage(s, p, AbortRemoving(h, target, reason))
    case AbortWrite(p, h, reason, write) =>
      AtStage(s, p, AbortWriting(h, reason)) && CanWrite(s.w, AbortedRecord(h, reason, s.w.now), write)
    case _ => false
  }

  function AbortNext(h: Handover, target: Cid, reason: string): Stage {
    if target == "" then AbortWriting(h, reason) else AbortStopping(h, target, reason)
  }

  function AbortStep(s: State, a: Action): State {
    match a
    case AbortFind(p, h, known, _, reason, found) => Enter(s, p, AbortNext(h, AbortTarget(h, known, found), reason))
    case AbortStop(p, h, target, reason, effect) =>
      Enter(if effect then Stopped(s, target) else s, p, AbortRemoving(h, target, reason))
    case AbortRemove(p, h, target, reason, effect) =>
      Enter(if effect then Removed(s, target) else s, p, AbortWriting(h, reason))
    case AbortWrite(p, h, reason, write) =>
      Turn(s, AfterWrite(s.w, AbortedRecord(h, reason, s.w.now), write), p, Primary(Idle))
    case _ => s
  }

  predicate ReconcileEnabled(s: State, a: Action) {
    match a
    case BeginRun(p) => AtStage(s, p, Starting)
    case BeginReconcile(p) => AtStage(s, p, Idle)
    case ReconcileRead(p, _) => AtStage(s, p, Reconciling)
    case FinishCheck(p, h, _) => AtStage(s, p, FinishChecking(h))
    case FinishStop(p, h, _, _) => AtStage(s, p, FinishStopping(h))
    case FinishConfirm(p, h, _) => AtStage(s, p, FinishConfirming(h))
    case FinishWrite(p, h, write) => AtStage(s, p, FinishWriting(h)) && CanWrite(s.w, CompletedRecord(h), write)
    case SupersedeWrite(p, h, write) => AtStage(s, p, SupersedeWriting(h)) && CanWrite(s.w, SupersededRecord(h), write)
    case _ => false
  }

  /** What a primary does about the journal it finds. */
  function ReconcileStage(journal: Option<Handover>, self: Cid): Stage {
    if journal.None? then Idle else
      var j := journal.value;
      match ClassifyRole(journal, self).1
      case DoAbort =>
        AbortFinding(j, "", true, if j.predecessor == self then "interrupted" else "another updater holds the lock")
      case DoFinish => FinishChecking(j)
      case DoSupersede => SupersedeWriting(j)
      case _ => Idle
  }

  function ReconcileStep(s: State, a: Action): State {
    match a
    case BeginRun(p) => Enter(Beating(s, p, true), p, Reconciling)
    case BeginReconcile(p) => Enter(s, p, Reconciling)
    case ReconcileRead(p, readable) => Enter(s, p, ReconcileStage(Reading(s.w, readable), SelfOf(s, p)))
    case FinishCheck(p, h, answered) =>
      Enter(s, p, if !answered then Idle else if h.predecessor in s.w.boxes then FinishStopping(h)
                  else FinishWriting(h))
    case FinishStop(p, h, effect, confirmed) =>
      Enter(if effect then Stopped(s, h.predecessor) else s, p, if confirmed then FinishConfirming(h) else Idle)
    case FinishConfirm(p, h, answered) =>
      Enter(s, p, if answered && !UpIn(s.w, h.predecessor) then FinishWriting(h) else Idle)
    case FinishWrite(p, h, write) => Turn(s, AfterWrite(s.w, CompletedRecord(h), write), p, Primary(Idle))
    case SupersedeWrite(p, h, write) => Turn(s, AfterWrite(s.w, SupersededRecord(h), write), p, Primary(Idle))
    case _ => s
  }

  predicate TidyEnabled(s: State, a: Action) {
    match a
    case BeginTidy(p, j) => AtStage(s, p, Idle) && s.procs[p].resolved && s.w.journal == Some(j) && Terminal(j.phase)
    case TidyNext(p, j, target, rest, _) => AtStage(s, p, Tidying(j, [target] + rest))
    case TidyStop(p, j, target, rest, _) => AtStage(s, p, TidyStopping(j, target, rest))
    case TidyRemove(p, j, target, rest, _) => AtStage(s, p, TidyRemoving(j, target, rest))
    case TidyRename(p, j, target, name, _) =>
      && AtStage(s, p, Tidying(j, []))
      && (p == j.predecessor || p == j.successor)
      && ((target == p && name == j.canonicalName) || (target == j.predecessor && target != p && name == j.retiredName))
    case EndTidy(p, j, rest) => AtStage(s, p, Tidying(j, rest))
    case _ => false
  }

  function TidyStep(s: State, a: Action): State {
    match a
    case BeginTidy(p, j) => Enter(s, p, Tidying(j, Leftovers(j, p)))
    case TidyNext(p, j, target, rest, act) =>
      Enter(s, p, if act && target in s.w.boxes then TidyStopping(j, target, rest) else Tidying(j, rest))
    case TidyStop(p, j, target, rest, effect) =>
      Enter(if effect then Stopped(s, target) else s, p, TidyRemoving(j, target, rest))
    case TidyRemove(p, j, target, rest, effect) => Enter(if effect then Removed(s, target) else s, p, Tidying(j, rest))
    case TidyRename(p, _, target, name, effect) => s.(w := if effect then Renamed(s.w, target, name) else s.w)
    case EndTidy(p, _, _) => Enter(s, p, Idle)
    case _ => s
  }

  const DIFFERS := "successor differs from this updater: "

  /** Where creating the successor, or waiting for it, may be given up, and what is then said. */
  predicate MayGiveUp(stage: Stage, h: Handover, reason: string) {
    match stage
    case CreatingSuccessor(g) =>
      g == h && (reason == "successor name could not be checked" || reason == "successor name occupied"
                 || reason == "successor configuration could not be derived")
    case Verifying(g) => g == h && DIFFERS <= reason
    case WaitSlotFirst(g, proven) =>
      g == h && reason == if proven then "successor not stable by the deadline" else "no proof by the deadline"
    case WaitSuccessor(g, _) =>
      g == h && (reason == "successor restarted" || reason == "successor paused" || reason == "successor stopped")
    case WaitAgent(g, _, _) => g == h && reason == "the agent was replaced"
    case _ => false
  }

  predicate FollowEnabled(s: State, a: Action) {
    match a
    case ReadSlot(p) => AtStage(s, p, Idle) && s.procs[p].resolved && SlotIsIdle(s.w.slot, s.w.done)
    case Evaluate(p, digest, h) => AtStage(s, p, SlotFoundIdle(digest)) && Eligible(s.w, p, digest, h)
    case Refuse(p, digest) => AtStage(s, p, SlotFoundIdle(digest))
    case WritePrepared(p, h, write) =>
      AtStage(s, p, Evaluated(h)) && CanWrite(s.w, h, write) && (write.Lost? || h.id !in s.w.ids)
    case CreateSuccessor(p, h, c, _, effect, confirmed) =>
      AtStage(s, p, CreatingSuccessor(h)) && c != "" && c !in s.w.ever && c != s.w.agent.id && (confirmed ==> effect)
    case WriteCreated(p, h, c, write) =>
      AtStage(s, p, RecordingSuccessor(h, c)) && CanWrite(s.w, CreatedRecord(h, c), write)
    case VerifySuccessor(p, h) => AtStage(s, p, Verifying(h)) && IsWhatWasCreated(s.w, h)
    case StartSuccessor(p, h, _, _) => AtStage(s, p, StartingSuccessor(h))
    case GiveUp(p, h, stage, reason) => AtStage(s, p, stage) && MayGiveUp(stage, h, reason)
    case _ => false
  }

  function AfterCreating(h: Handover, c: Cid, confirmed: bool): Stage {
    if confirmed then RecordingSuccessor(h, c) else AbortFinding(h, "", true, "successor could not be created")
  }

  function AfterRecording(h: Handover, c: Cid, write: Write): Stage {
    if write.Reported? then Verifying(CreatedRecord(h, c))
    else AbortFinding(h, c, true, "successor could not be recorded")
  }

  function AfterStarting(h: Handover, confirmed: bool): Stage {
    if confirmed then WaitSlotFirst(h, false) else AbortFinding(h, "", false, "successor could not be started")
  }

  function FollowStep(s: State, a: Action): State {
    match a
    case ReadSlot(p) => Enter(s, p, SlotFoundIdle(s.w.slot))
    case Evaluate(p, _, h) => Enter(s, p, Evaluated(h))
    case Refuse(p, _) => Enter(s, p, Idle)
    case WritePrepared(p, h, write) =>
      Turn(s, AfterWrite(s.w, h, write), p, Primary(if write.Reported? then CreatingSuccessor(h) else Idle))
    case CreateSuccessor(p, h, c, build, effect, confirmed) =>
      Turn(s, if effect then Made(s.w, c, build, Box(h.successorName, false, false)) else s.w, p,
           Primary(AfterCreating(h, c, confirmed)))
    case WriteCreated(p, h, c, write) =>
      Turn(s, AfterWrite(s.w, CreatedRecord(h, c), write), p,
           Primary(AfterRecording(h, c, write)))
    case VerifySuccessor(p, h) => Enter(s, p, StartingSuccessor(h))
    case StartSuccessor(p, h, effect, confirmed) =>
      Turn(s, if effect then Started(s.w, h.successor) else s.w, p,
           Primary(AfterStarting(h, confirmed)))
    case GiveUp(p, h, _, reason) => Enter(s, p, AbortFinding(h, "", false, reason))
    case _ => s
  }

  predicate WaitEnabled(s: State, a: Action) {
    match a
    case ReadSlotFirst(p, h, proven, _) => AtStage(s, p, WaitSlotFirst(h, proven))
    case InspectSuccessor(p, h, proven, _) => AtStage(s, p, WaitSuccessor(h, proven))
    case InspectAgent(p, h, proven, up, _) => AtStage(s, p, WaitAgent(h, proven, up))
    case ReadProof(p, h, proven, up, same) => AtStage(s, p, WaitProof(h, proven, up, same))
    case ReadSlotLast(p, h, proven, up, same, _, _) => AtStage(s, p, WaitSlotLast(h, proven, up, same))
    case WriteCommitted(p, h, read, write) =>
      AtStage(s, p, Committing(h, read)) && CanWrite(s.w, CommittedRecord(h), write)
    case JoinHeartbeat(p) => AtStage(s, p, Leaving)
    case ReleaseLock(p) => AtStage(s, p, Joined)
    case _ => false
  }

  /** The request slot is not provably what the handover was prepared on. */
  predicate RequestChanged(w: World, h: Handover, readable: bool) {
    !readable || w.slot != h.requestDigest
  }

  function ProofFor(h: Handover): Proof {
    Proof(h.id, h.successor, h.version, h.agentBinary)
  }

  /** The world once the commit landed. */
  function AfterCommit(w: World, h: Handover, read: string, write: Write): World {
    if write.Lost? then w else Landed(w, CommittedRecord(h), read)
  }

  /** A predecessor whose commit was not reported stored takes it for lost. */
  function AfterCommitting(h: Handover, write: Write): Stage {
    if write.Reported? then Leaving else AbortFinding(h, "", false, "the commit could not be recorded")
  }

  function WaitStep(s: State, a: Action): State {
    match a
    case ReadSlotFirst(p, h, proven, readable) =>
      Enter(s, p, if RequestChanged(s.w, h, readable) then AbortFinding(h, "", false, PREEMPTED)
                  else WaitSuccessor(h, proven))
    case InspectSuccessor(p, h, proven, answered) =>
      Enter(s, p, if answered && h.successor !in s.w.boxes then AbortFinding(h, "", false, "successor disappeared")
                  else WaitAgent(h, proven, answered && UpIn(s.w, h.successor)))
    case InspectAgent(p, h, proven, up, answered) =>
      Enter(s, p, if answered && (s.w.agent.id != h.agentContainer || s.w.agent.image != h.image)
                  then AbortFinding(h, "", false, "the agent was replaced") else WaitProof(h, proven, up, answered))
    case ReadProof(p, h, proven, up, same) =>
      Enter(s, p, WaitSlotLast(h, proven || s.w.proof == Some(ProofFor(h)), up, same))
    case ReadSlotLast(p, h, proven, up, same, stable, readable) =>
      Enter(s, p, if RequestChanged(s.w, h, readable) then AbortFinding(h, "", false, PREEMPTED)
                  else if proven && up && same && stable then Committing(h, s.w.slot)
                  else WaitSlotFirst(h, proven))
    case WriteCommitted(p, h, read, write) =>
      Turn(s, AfterCommit(s.w, h, read, write), p,
           Primary(AfterCommitting(h, write)))
    case JoinHeartbeat(p) => Enter(Beating(s, p, false), p, Joined)
    case ReleaseLock(p) => Turn(s, Released(s.w), p, Choosing)
    case _ => s
  }

  /** One action of a process or of the environment. */
  ghost predicate Follows(cfg: Config, s: State, t: State, a: Action) {
    || (EnvironmentEnabled(cfg, s, a) && t == EnvironmentStep(s, a))
    || (ServeEnabled(cfg, s, a) && t == ServeStep(s, a))
    || (RetiredEnabled(s, a) && t == RetiredStep(s, a))
    || (StandbyEnabled(s, a) && t == StandbyStep(s, a))
    || (AbortEnabled(s, a) && t == AbortStep(s, a))
    || (ReconcileEnabled(s, a) && t == ReconcileStep(s, a))
    || (TidyEnabled(s, a) && t == TidyStep(s, a))
    || (FollowEnabled(s, a) && t == FollowStep(s, a))
    || (WaitEnabled(s, a) && t == WaitStep(s, a))
  }

  /** One updater container, started, and nothing recorded yet. */
  predicate Init(cfg: Config, s: State) {
    && s.procs == map[] && NothingYet(s.w)
    && cfg.root != "" && cfg.root != s.w.agent.id
    && s.w.boxes.Keys == {cfg.root} && s.w.ever.Keys == {cfg.root} && s.w.boxes[cfg.root].started
  }

  predicate NothingYet(w: World) {
    && w.journal.None? && w.lock.None? && w.proof.None?
    && w.ids == {} && w.passed == {} && w.log == []
  }

  /** A run: a first state, and each later one following by one action from the one before. */
  ghost predicate Run(cfg: Config, states: seq<State>, actions: seq<Action>) {
    && |states| == |actions| + 1 && Init(cfg, states[0])
    && forall i {:trigger actions[i]} :: 0 <= i < |actions| ==> Follows(cfg, states[i], states[i + 1], actions[i])
  }
}
