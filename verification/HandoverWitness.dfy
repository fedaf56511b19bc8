/**
  * The transition system is not idle: an updater that finds a newer agent hands its
  * role over, and the successor ends up acting with the handover completed.
  */
module HandoverWitness {
  import opened Wrappers
  import opened ReleaseId
  import opened VersionOrder
  import opened HandoverJournal
  import opened HandoverModel

  ghost predicate Reachable(cfg: Config, s: State) {
    exists states, actions :: Run(cfg, states, actions) && states[|states| - 1] == s
  }

  lemma Begins(cfg: Config, s: State)
    requires Init(cfg, s)
    ensures Reachable(cfg, s)
  {
    assert Run(cfg, [s], []);
  }

  lemma Goes(cfg: Config, s: State, t: State, a: Action)
    requires Reachable(cfg, s) && Follows(cfg, s, t, a)
    ensures Reachable(cfg, t)
  {
    hide Follows, Init;
    var states, actions :| Run(cfg, states, actions) && states[|states| - 1] == s;
    var longer, more := states + [t], actions + [a];
    forall i | 0 <= i < |more| ensures Follows(cfg, longer[i], longer[i + 1], more[i]) {
      if i < |actions| {
        assert actions[i] == more[i];
      }
    }
    assert Run(cfg, longer, more);
  }

  /** A handover that can go through: every record it needs is one the writer accepts. */
  ghost predicate Fits(cfg: Config, w: World, h: Handover, c: Cid) {
    && Init(cfg, State(w, map[])) && w.boxes[cfg.root].up && w.slot == "" && h.requestDigest == ""
    && Eligible(w, cfg.root, "", h) && w.agent.image == h.image && w.agent.id == h.agentContainer
    && c != "" && c != cfg.root && c != w.agent.id
    && Accepted(None, h, w.now) && Accepted(Some(h), CreatedRecord(h, c), w.now)
    && Accepted(Some(CreatedRecord(h, c)), CommittedRecord(CreatedRecord(h, c)), w.now)
    && Accepted(Some(CommittedRecord(CreatedRecord(h, c))), CompletedRecord(CommittedRecord(CreatedRecord(h, c))),
                w.now)
  }

  // ------------------------------------------------------------------- single steps

  function Put(procs: map<Cid, Proc>, p: Cid, pc: Pc, heart: bool): map<Cid, Proc> {
    procs[p := Proc(true, pc, heart)]
  }

  ghost predicate Here(cfg: Config, w: World, procs: map<Cid, Proc>) {
    Reachable(cfg, State(w, procs))
  }

  predicate Is(procs: map<Cid, Proc>, p: Cid, pc: Pc, heart: bool) {
    p in procs && procs[p] == Proc(true, pc, heart)
  }

  lemma Served(cfg: Config, s: State, t: State, a: Action)
    requires Reachable(cfg, s) && ServeEnabled(cfg, s, a) && ServeStep(s, a) == t
    ensures Reachable(cfg, t)
  {
    hide ServeEnabled, ServeStep, Reachable, EnvironmentEnabled, RetiredEnabled, StandbyEnabled, AbortEnabled,
         ReconcileEnabled, TidyEnabled, FollowEnabled, WaitEnabled;
    Goes(cfg, s, t, a);
  }

  lemma Stood(cfg: Config, s: State, t: State, a: Action)
    requires Reachable(cfg, s) && StandbyEnabled(s, a) && StandbyStep(s, a) == t
    ensures Reachable(cfg, t)
  {
    hide ServeEnabled, StandbyStep, Reachable, EnvironmentEnabled, RetiredEnabled, StandbyEnabled, AbortEnabled,
         ReconcileEnabled, TidyEnabled, FollowEnabled, WaitEnabled;
    Goes(cfg, s, t, a);
  }

  lemma Reconciled(cfg: Config, s: State, t: State, a: Action)
    requires Reachable(cfg, s) && ReconcileEnabled(s, a) && ReconcileStep(s, a) == t
    ensures Reachable(cfg, t)
  {
    hide ServeEnabled, ReconcileStep, Reachable, EnvironmentEnabled, RetiredEnabled, StandbyEnabled, AbortEnabled,
         ReconcileEnabled, TidyEnabled, FollowEnabled, WaitEnabled;
    Goes(cfg, s, t, a);
  }

  lemma Followed(cfg: Config, s: State, t: State, a: Action)
    requires Reachable(cfg, s) && FollowEnabled(s, a) && FollowStep(s, a) == t
    ensures Reachable(cfg, t)
  {
    hide ServeEnabled, FollowStep, Reachable, EnvironmentEnabled, RetiredEnabled, StandbyEnabled, AbortEnabled,
         ReconcileEnabled, TidyEnabled, FollowEnabled, WaitEnabled;
    Goes(cfg, s, t, a);
  }

  lemma Waited(cfg: Config, s: State, t: State, a: Action)
    requires Reachable(cfg, s) && WaitEnabled(s, a) && WaitStep(s, a) == t
    ensures Reachable(cfg, t)
  {
    hide ServeEnabled, WaitStep, Reachable, EnvironmentEnabled, RetiredEnabled, StandbyEnabled, AbortEnabled,
         ReconcileEnabled, TidyEnabled, FollowEnabled, WaitEnabled;
    Goes(cfg, s, t, a);
  }

  lemma Launches(cfg: Config, w: World, procs: map<Cid, Proc>, p: Cid)
    requires Here(cfg, w, procs) && p !in procs && p in w.boxes && w.boxes[p].started && w.boxes[p].up
    ensures Here(cfg, w, Put(procs, p, Boot, false))
  {
    hide Reachable;
    Goes(cfg, State(w, procs), State(w, Put(procs, p, Boot, false)), Launch(p, true));
  }

  lemma OpensLock(cfg: Config, w: World, procs: map<Cid, Proc>, p: Cid)
    requires Here(cfg, w, procs) && Is(procs, p, Boot, false)
    ensures Here(cfg, w, Put(procs, p, Choosing, false))
  {
    hide Reachable;
    Served(cfg, State(w, procs), State(w, Put(procs, p, Choosing, false)), OpenLock(p, true));
  }

  lemma Chooses(cfg: Config, w: World, procs: map<Cid, Proc>, p: Cid)
    requires Here(cfg, w, procs) && Is(procs, p, Choosing, false)
    ensures Here(cfg, w, Put(procs, p, RolePc(w.journal, p), false))
  {
    hide Reachable, RoleOf;
    Served(cfg, State(w, procs), State(w, Put(procs, p, RolePc(w.journal, p), false)), Choose(p, true));
  }

  lemma TakesLock(cfg: Config, w: World, procs: map<Cid, Proc>, p: Cid)
    requires Here(cfg, w, procs) && Is(procs, p, Competing, false) && w.lock.None?
    ensures Here(cfg, Locked(w, p), Put(procs, p, Fencing, false))
  {
    hide Reachable;
    Served(cfg, State(w, procs), State(Locked(w, p), Put(procs, p, Fencing, false)), TryLock(p));
  }

  lemma Fences(cfg: Config, w: World, procs: map<Cid, Proc>, p: Cid)
    requires Here(cfg, w, procs) && Is(procs, p, Fencing, false) && RoleOf(w.journal, p).Candidate?
    ensures Here(cfg, w, Put(procs, p, Primary(Starting), false))
  {
    hide Reachable, RoleOf;
    Served(cfg, State(w, procs), State(w, Put(procs, p, Primary(Starting), false)), Fence(p, true));
  }

  lemma BeginsRun(cfg: Config, w: World, procs: map<Cid, Proc>, p: Cid)
    requires Here(cfg, w, procs) && Is(procs, p, Primary(Starting), false)
    ensures Here(cfg, w, Put(procs, p, Primary(Reconciling), true))
  {
    hide Reachable;
    var t := State(w, Put(procs, p, Primary(Reconciling), true));
    assert ReconcileStep(State(w, procs), BeginRun(p)).procs == t.procs;
    Reconciled(cfg, State(w, procs), t, BeginRun(p));
  }

  lemma ReadsJournal(cfg: Config, w: World, procs: map<Cid, Proc>, p: Cid)
    requires Here(cfg, w, procs) && Is(procs, p, Primary(Reconciling), true)
    ensures Here(cfg, w, Put(procs, p, Primary(ReconcileStage(w.journal, p)), true))
  {
    hide Reachable, ReconcileStage;
    Reconciled(cfg, State(w, procs), State(w, Put(procs, p, Primary(ReconcileStage(w.journal, p)), true)),
               ReconcileRead(p, true));
  }

  // -------------------------------------------------------------------- following

  lemma FindsSlotIdle(cfg: Config, w: World, procs: map<Cid, Proc>, p: Cid)
    requires Here(cfg, w, procs) && Is(procs, p, Primary(Idle), true) && w.slot == ""
    ensures Here(cfg, w, Put(procs, p, Primary(SlotFoundIdle("")), true))
  {
    hide Reachable;
    Followed(cfg, State(w, procs), State(w, Put(procs, p, Primary(SlotFoundIdle("")), true)), ReadSlot(p));
  }

  lemma Evaluates(cfg: Config, w: World, procs: map<Cid, Proc>, p: Cid, h: Handover)
    requires Here(cfg, w, procs) && Is(procs, p, Primary(SlotFoundIdle("")), true) && Eligible(w, p, "", h)
    ensures Here(cfg, w, Put(procs, p, Primary(Evaluated(h)), true))
  {
    hide Reachable, Eligible;
    Followed(cfg, State(w, procs), State(w, Put(procs, p, Primary(Evaluated(h)), true)), Evaluate(p, "", h));
  }

  lemma Prepares(cfg: Config, w: World, procs: map<Cid, Proc>, p: Cid, h: Handover)
    requires Here(cfg, w, procs) && Is(procs, p, Primary(Evaluated(h)), true) && Accepted(w.journal, h, w.now)
             && h.id !in w.ids
    ensures Here(cfg, Landed(w, h, ""), Put(procs, p, Primary(CreatingSuccessor(h)), true))
  {
    hide Reachable, Accepted;
    Followed(cfg, State(w, procs), State(Landed(w, h, ""), Put(procs, p, Primary(CreatingSuccessor(h)), true)),
             WritePrepared(p, h, Reported));
  }

  lemma Creates(cfg: Config, w: World, procs: map<Cid, Proc>, p: Cid, h: Handover, c: Cid)
    requires Here(cfg, w, procs) && Is(procs, p, Primary(CreatingSuccessor(h)), true) && c != "" && c !in w.ever
             && c != w.agent.id
    ensures Here(cfg, Made(w, c, Build(h.image, h.version), Box(h.successorName, false, false)),
                 Put(procs, p, Primary(RecordingSuccessor(h, c)), true))
  {
    hide Reachable;
    Followed(cfg, State(w, procs),
             State(Made(w, c, Build(h.image, h.version), Box(h.successorName, false, false)),
                   Put(procs, p, Primary(RecordingSuccessor(h, c)), true)),
             CreateSuccessor(p, h, c, Build(h.image, h.version), true, true));
  }

  lemma Records(cfg: Config, w: World, procs: map<Cid, Proc>, p: Cid, h: Handover, c: Cid)
    requires Here(cfg, w, procs) && Is(procs, p, Primary(RecordingSuccessor(h, c)), true)
             && Accepted(w.journal, CreatedRecord(h, c), w.now)
    ensures Here(cfg, Landed(w, CreatedRecord(h, c), ""), Put(procs, p, Primary(Verifying(CreatedRecord(h, c))), true))
  {
    hide Reachable, Accepted, CreatedRecord;
    Followed(cfg, State(w, procs),
             State(Landed(w, CreatedRecord(h, c), ""), Put(procs, p, Primary(Verifying(CreatedRecord(h, c))), true)),
             WriteCreated(p, h, c, Reported));
  }

  lemma Verifies(cfg: Config, w: World, procs: map<Cid, Proc>, p: Cid, h: Handover)
    requires Here(cfg, w, procs) && Is(procs, p, Primary(Verifying(h)), true) && IsWhatWasCreated(w, h)
    ensures Here(cfg, w, Put(procs, p, Primary(StartingSuccessor(h)), true))
  {
    hide Reachable, IsWhatWasCreated;
    Followed(cfg, State(w, procs), State(w, Put(procs, p, Primary(StartingSuccessor(h)), true)), VerifySuccessor(p, h));
  }

  lemma Starts(cfg: Config, w: World, procs: map<Cid, Proc>, p: Cid, h: Handover)
    requires Here(cfg, w, procs) && Is(procs, p, Primary(StartingSuccessor(h)), true)
    ensures Here(cfg, Started(w, h.successor), Put(procs, p, Primary(WaitSlotFirst(h, false)), true))
  {
    hide Reachable;
    Followed(cfg, State(w, procs),
             State(Started(w, h.successor), Put(procs, p, Primary(WaitSlotFirst(h, false)), true)),
             StartSuccessor(p, h, true, true));
  }

  // ---------------------------------------------------------------------- standing by

  lemma Passes(cfg: Config, w: World, procs: map<Cid, Proc>, p: Cid, h: Handover)
    requires Here(cfg, w, procs) && Is(procs, p, Standing(h, false, 0), false) && PassesStandbyChecks(w, p, h)
    ensures Here(cfg, w.(passed := w.passed + {Pass(h.id, p, h.version)}), Put(procs, p, Proving(h, 0), false))
  {
    hide Reachable, PassesStandbyChecks;
    Stood(cfg, State(w, procs),
          State(w.(passed := w.passed + {Pass(h.id, p, h.version)}), Put(procs, p, Proving(h, 0), false)),
          StandbyCheck(p, h, 0));
  }

  lemma Proves(cfg: Config, w: World, procs: map<Cid, Proc>, p: Cid, h: Handover)
    requires Here(cfg, w, procs) && Is(procs, p, Proving(h, 0), false)
    ensures Here(cfg, w.(proof := Some(Proof(h.id, p, h.version, h.agentBinary))),
                 Put(procs, p, Standing(h, true, 0), false))
  {
    hide Reachable;
    Stood(cfg, State(w, procs),
          State(w.(proof := Some(Proof(h.id, p, h.version, h.agentBinary))),
                Put(procs, p, Standing(h, true, 0), false)), WriteProof(p, h, 0, Reported));
  }

  lemma StopsStanding(cfg: Config, w: World, procs: map<Cid, Proc>, p: Cid, h: Handover)
    requires Here(cfg, w, procs) && Is(procs, p, Standing(h, true, 0), false)
    ensures Here(cfg, w, Put(procs, p, Choosing, false))
  {
    hide Reachable;
    Stood(cfg, State(w, procs), State(w, Put(procs, p, Choosing, false)), StopStanding(p, h, true, 0));
  }

  // -------------------------------------------------------------------------- waiting

  lemma SeesSlot(cfg: Config, w: World, procs: map<Cid, Proc>, p: Cid, h: Handover)
    requires Here(cfg, w, procs) && Is(procs, p, Primary(WaitSlotFirst(h, false)), true) && w.slot == h.requestDigest
    ensures Here(cfg, w, Put(procs, p, Primary(WaitSuccessor(h, false)), true))
  {
    hide Reachable;
    Waited(cfg, State(w, procs), State(w, Put(procs, p, Primary(WaitSuccessor(h, false)), true)),
           ReadSlotFirst(p, h, false, true));
  }

  lemma SeesSuccessor(cfg: Config, w: World, procs: map<Cid, Proc>, p: Cid, h: Handover)
    requires Here(cfg, w, procs) && Is(procs, p, Primary(WaitSuccessor(h, false)), true) && UpIn(w, h.successor)
    ensures Here(cfg, w, Put(procs, p, Primary(WaitAgent(h, false, true)), true))
  {
    hide Reachable;
    Waited(cfg, State(w, procs), State(w, Put(procs, p, Primary(WaitAgent(h, false, true)), true)),
           InspectSuccessor(p, h, false, true));
  }

  lemma SeesAgent(cfg: Config, w: World, procs: map<Cid, Proc>, p: Cid, h: Handover)
    requires Here(cfg, w, procs) && Is(procs, p, Primary(WaitAgent(h, false, true)), true)
             && w.agent.id == h.agentContainer && w.agent.image == h.image
    ensures Here(cfg, w, Put(procs, p, Primary(WaitProof(h, false, true, true)), true))
  {
    hide Reachable;
    Waited(cfg, State(w, procs), State(w, Put(procs, p, Primary(WaitProof(h, false, true, true)), true)),
           InspectAgent(p, h, false, true, true));
  }

  lemma SeesProof(cfg: Config, w: World, procs: map<Cid, Proc>, p: Cid, h: Handover)
    requires Here(cfg, w, procs) && Is(procs, p, Primary(WaitProof(h, false, true, true)), true)
             && w.proof == Some(ProofFor(h))
    ensures Here(cfg, w, Put(procs, p, Primary(WaitSlotLast(h, true, true, true)), true))
  {
    hide Reachable, ProofFor;
    Waited(cfg, State(w, procs), State(w, Put(procs, p, Primary(WaitSlotLast(h, true, true, true)), true)),
           ReadProof(p, h, false, true, true));
  }

  lemma SeesSlotAgain(cfg: Config, w: World, procs: map<Cid, Proc>, p: Cid, h: Handover)
    requires Here(cfg, w, procs) && Is(procs, p, Primary(WaitSlotLast(h, true, true, true)), true)
             && w.slot == h.requestDigest
    ensures Here(cfg, w, Put(procs, p, Primary(Committing(h, h.requestDigest)), true))
  {
    hide Reachable;
    Waited(cfg, State(w, procs), State(w, Put(procs, p, Primary(Committing(h, h.requestDigest)), true)),
           ReadSlotLast(p, h, true, true, true, true, true));
  }

  lemma Commits(cfg: Config, w: World, procs: map<Cid, Proc>, p: Cid, h: Handover)
    requires Here(cfg, w, procs) && Is(procs, p, Primary(Committing(h, h.requestDigest)), true)
             && Accepted(w.journal, CommittedRecord(h), w.now)
    ensures Here(cfg, Landed(w, CommittedRecord(h), h.requestDigest), Put(procs, p, Primary(Leaving), true))
  {
    hide Reachable, Accepted, CommittedRecord;
    Waited(cfg, State(w, procs),
           State(Landed(w, CommittedRecord(h), h.requestDigest), Put(procs, p, Primary(Leaving), true)),
           WriteCommitted(p, h, h.requestDigest, Reported));
  }

  /** What a predecessor that could not record its commit sets out to do. */
  function Disowned(h: Handover): Stage {
    AbortFinding(h, "", false, "the commit could not be recorded")
  }

  lemma CommitsUnreported(cfg: Config, w: World, procs: map<Cid, Proc>, p: Cid, h: Handover)
    requires Here(cfg, w, procs) && Is(procs, p, Primary(Committing(h, h.requestDigest)), true)
    requires Accepted(w.journal, CommittedRecord(h), w.now)
    ensures Here(cfg, Landed(w, CommittedRecord(h), h.requestDigest), Put(procs, p, Primary(Disowned(h)), true))
  {
    hide Accepted, CommittedRecord, Reachable;
    Waited(cfg, State(w, procs),
           State(Landed(w, CommittedRecord(h), h.requestDigest), Put(procs, p, Primary(Disowned(h)), true)),
           WriteCommitted(p, h, h.requestDigest, Unreported));
  }

  lemma Joins(cfg: Config, w: World, procs: map<Cid, Proc>, p: Cid)
    requires Here(cfg, w, procs) && Is(procs, p, Primary(Leaving), true)
    ensures Here(cfg, w, Put(procs, p, Primary(Joined), false))
  {
    hide Reachable;
    var t := State(w, Put(procs, p, Primary(Joined), false));
    assert WaitStep(State(w, procs), JoinHeartbeat(p)).procs == t.procs;
    Waited(cfg, State(w, procs), t, JoinHeartbeat(p));
  }

  lemma LetsGo(cfg: Config, w: World, procs: map<Cid, Proc>, p: Cid)
    requires Here(cfg, w, procs) && Is(procs, p, Primary(Joined), false)
    ensures Here(cfg, Released(w), Put(procs, p, Choosing, false))
  {
    hide Reachable;
    Waited(cfg, State(w, procs), State(Released(w), Put(procs, p, Choosing, false)), ReleaseLock(p));
  }

  // ------------------------------------------------------------------------- finishing

  lemma FindsPredecessor(cfg: Config, w: World, procs: map<Cid, Proc>, p: Cid, h: Handover)
    requires Here(cfg, w, procs) && Is(procs, p, Primary(FinishChecking(h)), true) && h.predecessor in w.boxes
    ensures Here(cfg, w, Put(procs, p, Primary(FinishStopping(h)), true))
  {
    hide Reachable;
    Reconciled(cfg, State(w, procs), State(w, Put(procs, p, Primary(FinishStopping(h)), true)),
               FinishCheck(p, h, true));
  }

  lemma StopsPredecessor(cfg: Config, w: World, procs: map<Cid, Proc>, p: Cid, h: Handover)
    requires Here(cfg, w, procs) && Is(procs, p, Primary(FinishStopping(h)), true) && h.predecessor in w.boxes
             && h.predecessor != p && w.lock == Some(p)
    ensures Here(cfg, WithBox(w, h.predecessor, w.boxes[h.predecessor].(up := false)),
                 Put(procs - {h.predecessor}, p, Primary(FinishConfirming(h)), true))
  {
    hide Reachable;
    Reconciled(cfg, State(w, procs),
               State(WithBox(w, h.predecessor, w.boxes[h.predecessor].(up := false)),
                     Put(procs - {h.predecessor}, p, Primary(FinishConfirming(h)), true)),
               FinishStop(p, h, true, true));
  }

  lemma Confirms(cfg: Config, w: World, procs: map<Cid, Proc>, p: Cid, h: Handover)
    requires Here(cfg, w, procs) && Is(procs, p, Primary(FinishConfirming(h)), true) && !UpIn(w, h.predecessor)
    ensures Here(cfg, w, Put(procs, p, Primary(FinishWriting(h)), true))
  {
    hide Reachable, UpIn;
    Reconciled(cfg, State(w, procs), State(w, Put(procs, p, Primary(FinishWriting(h)), true)),
               FinishConfirm(p, h, true));
  }

  lemma Completes(cfg: Config, w: World, procs: map<Cid, Proc>, p: Cid, h: Handover)
    requires Here(cfg, w, procs) && Is(procs, p, Primary(FinishWriting(h)), true)
             && Accepted(w.journal, CompletedRecord(h), w.now)
    ensures Here(cfg, Landed(w, CompletedRecord(h), ""), Put(procs, p, Primary(Idle), true))
  {
    hide Reachable, Accepted, CompletedRecord;
    Reconciled(cfg, State(w, procs), State(Landed(w, CompletedRecord(h), ""), Put(procs, p, Primary(Idle), true)),
               FinishWrite(p, h, Reported));
  }

  // ---------------------------------------------------------------------------- the run

  lemma OldTakesRole(cfg: Config, w: World, h: Handover, c: Cid)
    requires Fits(cfg, w, h, c)
    ensures Here(cfg, Locked(w, cfg.root), Put(map[], cfg.root, Primary(Idle), true))
  {
    hide Reachable, Here, Accepted, Eligible;
    var root := cfg.root;
    var none: map<Cid, Proc> := map[];
    BeginsHere(cfg, w);
    Launches(cfg, w, none, root);
    OpensLock(cfg, w, Put(none, root, Boot, false), root);
    var choosing := Put(Put(none, root, Boot, false), root, Choosing, false);
    Chooses(cfg, w, choosing, root);
    var competing := Put(choosing, root, Competing, false);
    TakesLock(cfg, w, competing, root);
    var held := Locked(w, root);
    var fencing := Put(competing, root, Fencing, false);
    Fences(cfg, held, fencing, root);
    var starting := Put(fencing, root, Primary(Starting), false);
    BeginsRun(cfg, held, starting, root);
    var reconciling := Put(starting, root, Primary(Reconciling), true);
    ReadsJournal(cfg, held, reconciling, root);
    assert Put(reconciling, root, Primary(Idle), true) == Put(none, root, Primary(Idle), true);
  }

  lemma BeginsHere(cfg: Config, w: World)
    requires Init(cfg, State(w, map[]))
    ensures Here(cfg, w, map[])
  {
    hide Reachable, Init;
    Begins(cfg, State(w, map[]));
  }

  /** The world once the successor was created, recorded and started. */
  function WithSuccessor(w: World, h: Handover, c: Cid): World {
    Started(Landed(Made(Landed(w, h, ""), c, Build(h.image, h.version), Box(h.successorName, false, false)),
                   CreatedRecord(h, c), ""), c)
  }

  lemma OldCreatesNew(cfg: Config, w: World, procs: map<Cid, Proc>, root: Cid, h: Handover, c: Cid)
    requires Here(cfg, w, procs) && Is(procs, root, Primary(Idle), true) && w.slot == "" && Eligible(w, root, "", h)
             && h.id !in w.ids
    requires Accepted(w.journal, h, w.now) && Accepted(Some(h), CreatedRecord(h, c), w.now)
    requires c != "" && c !in w.ever && c != w.agent.id
    ensures Here(cfg, WithSuccessor(w, h, c),
                 Put(procs, root, Primary(WaitSlotFirst(CreatedRecord(h, c), false)), true))
  {
    hide Reachable, Here, Accepted, Eligible;
    var made := CreatedRecord(h, c);
    FindsSlotIdle(cfg, w, procs, root);
    var p1 := Put(procs, root, Primary(SlotFoundIdle("")), true);
    Evaluates(cfg, w, p1, root, h);
    var p2 := Put(p1, root, Primary(Evaluated(h)), true);
    Prepares(cfg, w, p2, root, h);
    var wa, p3 := Landed(w, h, ""), Put(p2, root, Primary(CreatingSuccessor(h)), true);
    Creates(cfg, wa, p3, root, h, c);
    var p4 := Put(p3, root, Primary(RecordingSuccessor(h, c)), true);
    OldStartsNew(cfg, wa, p4, root, h, c);
    assert Put(p4, root, Primary(WaitSlotFirst(made, false)), true) == Put(procs, root,
                                                                           Primary(WaitSlotFirst(made, false)), true);
  }

  /** The created container is recorded, read back and started. */
  lemma OldStartsNew(cfg: Config, w: World, procs: map<Cid, Proc>, root: Cid, h: Handover, c: Cid)
    requires Here(cfg, Made(w, c, Build(h.image, h.version), Box(h.successorName, false, false)), procs)
    requires Is(procs, root, Primary(RecordingSuccessor(h, c)), true) && w.journal == Some(h)
    requires Accepted(Some(h), CreatedRecord(h, c), w.now)
    ensures Here(cfg, Started(Landed(Made(w, c, Build(h.image, h.version), Box(h.successorName, false, false)),
                                     CreatedRecord(h, c), ""), c),
                 Put(procs, root, Primary(WaitSlotFirst(CreatedRecord(h, c), false)), true))
  {
    hide Reachable, Here, Accepted;
    var made := CreatedRecord(h, c);
    var wb := Made(w, c, Build(h.image, h.version), Box(h.successorName, false, false));
    Records(cfg, wb, procs, root, h, c);
    var wc, p5 := Landed(wb, made, ""), Put(procs, root, Primary(Verifying(made)), true);
    Verifies(cfg, wc, p5, root, made);
    var p6 := Put(p5, root, Primary(StartingSuccessor(made)), true);
    Starts(cfg, wc, p6, root, made);
    assert Put(p6, root, Primary(WaitSlotFirst(made, false)), true) == Put(procs, root,
                                                                           Primary(WaitSlotFirst(made, false)), true);
  }

  /** The world once the successor has passed its checks and written its proof. */
  function WithProof(w: World, h: Handover, c: Cid): World {
    w.(passed := w.passed + {Pass(h.id, c, h.version)}, proof := Some(Proof(h.id, c, h.version, h.agentBinary)))
  }

  lemma NewProvesItself(cfg: Config, w: World, procs: map<Cid, Proc>, h: Handover, c: Cid)
    requires Here(cfg, w, procs) && c !in procs && c in w.boxes && w.boxes[c].started && w.boxes[c].up && c != ""
    requires w.journal == Some(h) && h.phase.Created? && h.successor == c && PassesStandbyChecks(w, c, h)
    ensures Here(cfg, WithProof(w, h, c), Put(procs, c, Standing(h, true, 0), false))
  {
    hide Reachable, Here;
    Launches(cfg, w, procs, c);
    var p1 := Put(procs, c, Boot, false);
    OpensLock(cfg, w, p1, c);
    var p2 := Put(p1, c, Choosing, false);
    Chooses(cfg, w, p2, c);
    var p3 := Put(p2, c, Standing(h, false, 0), false);
    Passes(cfg, w, p3, c, h);
    var wa, p4 := w.(passed := w.passed + {Pass(h.id, c, h.version)}), Put(p3, c, Proving(h, 0), false);
    Proves(cfg, wa, p4, c, h);
    assert Put(p4, c, Standing(h, true, 0), false) == Put(procs, c, Standing(h, true, 0), false);
  }

  lemma OldDecides(cfg: Config, w: World, procs: map<Cid, Proc>, root: Cid, h: Handover)
    requires Here(cfg, w, procs) && Is(procs, root, Primary(WaitSlotFirst(h, false)), true)
    requires w.slot == h.requestDigest && UpIn(w, h.successor)
    requires w.agent.id == h.agentContainer && w.agent.image == h.image && w.proof == Some(ProofFor(h))
    ensures Here(cfg, w, Put(procs, root, Primary(Committing(h, h.requestDigest)), true))
  {
    hide Reachable, Here, UpIn, ProofFor;
    SeesSlot(cfg, w, procs, root, h);
    var p1 := Put(procs, root, Primary(WaitSuccessor(h, false)), true);
    SeesSuccessor(cfg, w, p1, root, h);
    var p2 := Put(p1, root, Primary(WaitAgent(h, false, true)), true);
    SeesAgent(cfg, w, p2, root, h);
    var p3 := Put(p2, root, Primary(WaitProof(h, false, true, true)), true);
    SeesProof(cfg, w, p3, root, h);
    var p4 := Put(p3, root, Primary(WaitSlotLast(h, true, true, true)), true);
    SeesSlotAgain(cfg, w, p4, root, h);
    assert Put(p4, root, Primary(Committing(h, h.requestDigest)),
               true) == Put(procs, root, Primary(Committing(h, h.requestDigest)), true);
  }

  lemma OldCommits(cfg: Config, w: World, procs: map<Cid, Proc>, root: Cid, h: Handover)
    requires Here(cfg, w, procs) && Is(procs, root, Primary(WaitSlotFirst(h, false)), true)
    requires w.slot == h.requestDigest && UpIn(w, h.successor)
    requires w.agent.id == h.agentContainer && w.agent.image == h.image && w.proof == Some(ProofFor(h))
    requires Accepted(w.journal, CommittedRecord(h), w.now)
    ensures Here(cfg, Released(Landed(w, CommittedRecord(h), h.requestDigest)), Put(procs, root, Choosing, false))
  {
    hide Reachable, Here, Accepted, CommittedRecord, UpIn, ProofFor;
    OldDecides(cfg, w, procs, root, h);
    var p5 := Put(procs, root, Primary(Committing(h, h.requestDigest)), true);
    Commits(cfg, w, p5, root, h);
    var wa, p6 := Landed(w, CommittedRecord(h), h.requestDigest), Put(p5, root, Primary(Leaving), true);
    Joins(cfg, wa, p6, root);
    var p7 := Put(p6, root, Primary(Joined), false);
    LetsGo(cfg, wa, p7, root);
    assert Put(p7, root, Choosing, false) == Put(procs, root, Choosing, false);
  }

  lemma NewTakesRole(cfg: Config, w: World, procs: map<Cid, Proc>, h: Handover, standing: Handover, c: Cid)
    requires Here(cfg, w, procs) && Is(procs, c, Standing(standing, true, 0), false) && c != "" && w.lock.None?
    requires w.journal == Some(h) && h.phase.Committed? && h.successor == c && h.predecessor != c
    ensures Here(cfg, Locked(w, c), Put(procs, c, Primary(FinishChecking(h)), true))
  {
    hide Reachable, Here;
    StopsStanding(cfg, w, procs, c, standing);
    var p1 := Put(procs, c, Choosing, false);
    Chooses(cfg, w, p1, c);
    var p2 := Put(p1, c, Competing, false);
    TakesLock(cfg, w, p2, c);
    var held, p3 := Locked(w, c), Put(p2, c, Fencing, false);
    Fences(cfg, held, p3, c);
    var p4 := Put(p3, c, Primary(Starting), false);
    BeginsRun(cfg, held, p4, c);
    var p5 := Put(p4, c, Primary(Reconciling), true);
    ReadsJournal(cfg, held, p5, c);
    assert Put(p5, c, Primary(FinishChecking(h)), true) == Put(procs, c, Primary(FinishChecking(h)), true);
  }

  lemma NewFinishes(cfg: Config, w: World, procs: map<Cid, Proc>, h: Handover, c: Cid)
    requires Here(cfg, w, procs) && Is(procs, c, Primary(FinishChecking(h)), true) && w.lock == Some(c)
    requires h.predecessor in w.boxes && h.predecessor != c && Accepted(w.journal, CompletedRecord(h), w.now)
    ensures exists v, ps :: Here(cfg, v, ps) && v.journal == Some(CompletedRecord(h)) && Is(ps, c, Primary(Idle), true)
                            && h.predecessor !in ps && !UpIn(v, h.predecessor)
  {
    hide Reachable, Here, Accepted, CompletedRecord;
    FindsPredecessor(cfg, w, procs, c, h);
    var p1 := Put(procs, c, Primary(FinishStopping(h)), true);
    StopsPredecessor(cfg, w, p1, c, h);
    var wa, p2 := WithBox(w, h.predecessor, w.boxes[h.predecessor].(up := false)),
                  Put(p1 - {h.predecessor}, c, Primary(FinishConfirming(h)), true);
    Confirms(cfg, wa, p2, c, h);
    var p3 := Put(p2, c, Primary(FinishWriting(h)), true);
    Completes(cfg, wa, p3, c, h);
    assert Here(cfg, Landed(wa, CompletedRecord(h), ""), Put(p3, c, Primary(Idle), true));
  }

  /** The world and the processes once the successor has proven itself to its predecessor. */
  function ProvenWorld(cfg: Config, w: World, h: Handover, c: Cid): World {
    WithProof(WithSuccessor(Locked(w, cfg.root), h, c), CreatedRecord(h, c), c)
  }

  function ProvenProcs(cfg: Config, h: Handover, c: Cid): map<Cid, Proc> {
    Put(Put(Put(map[], cfg.root, Primary(Idle), true), cfg.root, Primary(WaitSlotFirst(CreatedRecord(h, c), false)),
            true), c,
        Standing(CreatedRecord(h, c), true, 0), false)
  }

  lemma NewIsProven(cfg: Config, w: World, h: Handover, c: Cid)
    requires Fits(cfg, w, h, c)
    ensures Here(cfg, ProvenWorld(cfg, w, h, c), ProvenProcs(cfg, h, c))
  {
    hide Reachable, Here, Accepted;
    var root, made := cfg.root, CreatedRecord(h, c);
    OldTakesRole(cfg, w, h, c);
    var w1, p1 := Locked(w, root), Put(map[], root, Primary(Idle), true);
    LockedIsEligible(w, root, h);
    OldCreatesNew(cfg, w1, p1, root, h, c);
    NewProvesItself(cfg, WithSuccessor(w1, h, c), Put(p1, root, Primary(WaitSlotFirst(made, false)), true), made, c);
  }

  /** What the predecessor waits for is so. */
  lemma ProvenIsComplete(cfg: Config, w: World, h: Handover, c: Cid)
    requires Fits(cfg, w, h, c)
    ensures var v, ps, made := ProvenWorld(cfg, w, h, c), ProvenProcs(cfg, h, c), CreatedRecord(h, c);
            && Is(ps, cfg.root, Primary(WaitSlotFirst(made, false)), true) && Is(ps, c, Standing(made, true, 0), false)
            && v.slot == made.requestDigest && UpIn(v, made.successor) && v.proof == Some(ProofFor(made))
            && v.agent.id == made.agentContainer && v.agent.image == made.image
            && Accepted(v.journal, CommittedRecord(made), v.now) && v.now == w.now && cfg.root in v.boxes
  {
    hide Accepted, Init, Eligible;
    FitsMeans(cfg, w, h, c);
  }

  lemma FitsMeans(cfg: Config, w: World, h: Handover, c: Cid)
    requires Fits(cfg, w, h, c)
    ensures cfg.root in w.boxes && c != cfg.root && h.predecessor == cfg.root && h.phase.Prepared? && w.lock.None?
  {
    hide Accepted;
  }

  /**
    * Whenever a handover fits, its commit can be recorded and reported as failed: the
    * journal says committed, and the predecessor sets out to abort.
    */
  lemma ACommitCanLandUnreported(cfg: Config, w: World, h: Handover, c: Cid)
    requires Fits(cfg, w, h, c)
    ensures exists v, ps ::
              && Here(cfg, v, ps) && v.journal == Some(CommittedRecord(CreatedRecord(h, c)))
              && Is(ps, cfg.root, Primary(Disowned(CreatedRecord(h, c))), true)
  {
    hide Reachable, Here, Accepted, Disowned, Fits, ProvenWorld, ProvenProcs, UpIn, ProofFor, CommittedRecord;
    var root, made := cfg.root, CreatedRecord(h, c);
    NewIsProven(cfg, w, h, c);
    ProvenIsComplete(cfg, w, h, c);
    var w3, p3 := ProvenWorld(cfg, w, h, c), ProvenProcs(cfg, h, c);
    OldDecides(cfg, w3, p3, root, made);
    var p4 := Put(p3, root, Primary(Committing(made, made.requestDigest)), true);
    CommitsUnreported(cfg, w3, p4, root, made);
    assert Here(cfg, Landed(w3, CommittedRecord(made), made.requestDigest),
                Put(p4, root, Primary(Disowned(made)), true));
  }

  /**
    * Whenever a handover fits, some run carries it through: its successor acts, its predecessor is
    * stopped, and the journal says completed.
    */
  lemma AHandoverCanComplete(cfg: Config, w: World, h: Handover, c: Cid)
    requires Fits(cfg, w, h, c)
    ensures exists v, ps ::
              && Here(cfg, v, ps) && v.journal == Some(CompletedRecord(CommittedRecord(CreatedRecord(h, c))))
              && Is(ps, c, Primary(Idle), true) && cfg.root !in ps && !UpIn(v, cfg.root)
  {
    hide Reachable, Here, Fits, ProvenWorld, ProvenProcs, ProofFor, Accepted;
    var root, made := cfg.root, CreatedRecord(h, c);
    var given := CommittedRecord(made);
    NewIsProven(cfg, w, h, c);
    ProvenIsComplete(cfg, w, h, c);
    FitsMeans(cfg, w, h, c);
    CompletionIsAccepted(cfg, w, h, c);
    var w3, p3 := ProvenWorld(cfg, w, h, c), ProvenProcs(cfg, h, c);
    OldCommits(cfg, w3, p3, root, made);
    var w4, p4 := Released(Landed(w3, given, made.requestDigest)), Put(p3, root, Choosing, false);
    NewTakesRole(cfg, w4, p4, given, made, c);
    NewFinishes(cfg, Locked(w4, c), Put(p4, c, Primary(FinishChecking(given)), true), given, c);
  }

  lemma CompletionIsAccepted(cfg: Config, w: World, h: Handover, c: Cid)
    requires Fits(cfg, w, h, c)
    ensures var given := CommittedRecord(CreatedRecord(h, c));
            Accepted(Some(given), CompletedRecord(given), w.now) && c != ""
  {
    hide Accepted, Init, Eligible;
  }

  lemma LockedIsEligible(w: World, root: Cid, h: Handover)
    requires Eligible(w, root, "", h)
    ensures Eligible(Locked(w, root), root, "", h)
  {
    hide Newer, NextAttempt;
  }

  // ------------------------------------------------------------------------ an example

  function Digest(digit: char): string {
    seq(64, i => digit)
  }

  const OLD_VERSION: Version := Version(1, 0, 0, 0, "")
  const NEW_VERSION: Version := Version(1, 0, 1, 0, "")

  function Nonce(): string { seq(32, i => '0') }
  function OldUpdater(): Cid { Digest('a') }
  function NewUpdater(): Cid { Digest('b') }
  function TheAgent(): string { Digest('c') }

  /** A first handover, from one release to the next. */
  function Example(phase: Phase, successor: string): Handover {
    Handover(Nonce(), phase, 1, 0, "u", "u-next-" + Nonce()[..8], "u-retired-" + Nonce()[..8],
             OldUpdater(), "sha256:" + Digest('1'), Render(OLD_VERSION),
             successor, "sha256:" + Digest('2'), REPOSITORY + ":" + Render(NEW_VERSION), Render(NEW_VERSION),
             TheAgent(), Digest('3'), "t", "", "")
  }

  lemma DigestIsHex(digit: char)
    requires HexDigit(digit)
    ensures LowerHex(Digest(digit), 64) && Digest(digit) != "" && ImageId("sha256:" + Digest(digit))
  {
    assert ("sha256:" + Digest(digit))[7..] == Digest(digit);
  }

  lemma VersionsAreValid()
    ensures IsVersion(Render(OLD_VERSION)) && IsVersion(Render(NEW_VERSION))
            && Newer(Render(NEW_VERSION), Render(OLD_VERSION))
  {
    hide Parse, Render;
    ValidVersionsAreRenderings(Render(OLD_VERSION));
    ValidVersionsAreRenderings(Render(NEW_VERSION));
    ParseUndoesRender(OLD_VERSION);
    ParseUndoesRender(NEW_VERSION);
    LaterPatch();
  }

  lemma LaterPatch()
    ensures Compare(NEW_VERSION, OLD_VERSION) > 0
  {
    assert Segments(NEW_VERSION)[1..] == [0, 1, 0] && Segments(OLD_VERSION)[1..] == [0, 0, 0];
    assert Segments(NEW_VERSION)[1..][1..] == [1, 0] && Segments(OLD_VERSION)[1..][1..] == [0, 0];
  }

  lemma NamesAreValid()
    ensures LowerHex(Nonce(), 32) && ObjectName("u") && ObjectName("u-next-" + Nonce()[..8])
            && ObjectName("u-retired-" + Nonce()[..8])
    ensures "u-next-" + Nonce()[..8] == "u" + "-next-" + Nonce()[..8]
            && "u-retired-" + Nonce()[..8] == "u" + "-retired-" + Nonce()[..8]
  {
    assert "u-next-" == "u" + "-next-" && "u-retired-" == "u" + "-retired-";
    assert forall i :: 0 <= i < 8 ==> Nonce()[..8][i] == '0';
  }

  lemma ExampleTextIsValid(phase: Phase, successor: string)
    requires successor == "" || successor == NewUpdater()
    ensures ValidText(Example(phase, successor))
  {
    hide LowerHex, ImageId, ObjectName, IsVersion, Render;
    DigestIsHex('a');
    DigestIsHex('b');
    DigestIsHex('c');
    DigestIsHex('1');
    DigestIsHex('2');
    DigestIsHex('3');
    VersionsAreValid();
    NamesAreValid();
  }

  lemma Apart()
    ensures OldUpdater() != NewUpdater() && OldUpdater() != TheAgent() && NewUpdater() != TheAgent()
            && OldUpdater() != "" && NewUpdater() != "" && "sha256:" + Digest('1') != "sha256:" + Digest('2')
  {
    assert OldUpdater()[0] == 'a' && NewUpdater()[0] == 'b' && TheAgent()[0] == 'c';
    assert ("sha256:" + Digest('1'))[7] == '1' && ("sha256:" + Digest('2'))[7] == '2';
  }

  lemma ExampleIsValid(phase: Phase)
    requires phase.Created? || phase.Committed? || phase.Completed?
    ensures Valid(Example(phase, NewUpdater())) && Valid(Example(Prepared, ""))
  {
    hide ValidText;
    ExampleTextIsValid(phase, NewUpdater());
    ExampleTextIsValid(Prepared, "");
    Apart();
    assert !Preemption("");
  }

  lemma ExampleIsAccepted()
    ensures Accepted(None, Example(Prepared, ""), 0)
    ensures Accepted(Some(Example(Prepared, "")), Example(Created, NewUpdater()), 0)
    ensures Accepted(Some(Example(Created, NewUpdater())), Example(Committed, NewUpdater()), 0)
    ensures Accepted(Some(Example(Committed, NewUpdater())), Example(Completed, NewUpdater()), 0)
  {
    hide Valid, Render, Digest;
    ExampleIsValid(Created);
    ExampleIsValid(Committed);
    ExampleIsValid(Completed);
  }

  function ExampleWorld(): World {
    World(None, None, map[OldUpdater() := Box("u", true, true)], None, "", {},
          Agent(TheAgent(), "sha256:" + Digest('2'), Render(NEW_VERSION), true), 0,
          map[OldUpdater() := Build("sha256:" + Digest('1'), Render(OLD_VERSION))], {}, {}, [])
  }

  lemma ExampleIsEligible()
    ensures Eligible(ExampleWorld(), OldUpdater(), "", Example(Prepared, ""))
  {
    hide Render, Newer, Digest, OldUpdater, NewUpdater, TheAgent, Nonce;
    Apart();
    VersionsAreValid();
  }

  lemma ExampleBegins(flockWorks: bool)
    ensures Init(Config(flockWorks, OldUpdater()), State(ExampleWorld(), map[]))
  {
    hide Render, Digest, OldUpdater, NewUpdater, TheAgent, Nonce;
    Apart();
  }

  lemma ExampleFits(flockWorks: bool)
    ensures Fits(Config(flockWorks, OldUpdater()), ExampleWorld(), Example(Prepared, ""), NewUpdater())
  {
    hide Accepted, Eligible, Init, Render, Digest, OldUpdater, NewUpdater, TheAgent, Nonce;
    ExampleIsAccepted();
    ExampleIsEligible();
    ExampleBegins(flockWorks);
    Apart();
  }

  /** A handover that fits exists, whether or not the lock can fail, and some run of the model completes it. */
  lemma AHandoverCompletes(flockWorks: bool)
    ensures exists v, ps ::
              && Here(Config(flockWorks, OldUpdater()), v, ps) && v.journal == Some(Example(Completed, NewUpdater()))
              && Is(ps, NewUpdater(), Primary(Idle), true) && OldUpdater() !in ps
  {
    hide Fits, Here, Is, UpIn, OldUpdater, NewUpdater, Digest, Render, TheAgent, Nonce;
    var cfg, h := Config(flockWorks, OldUpdater()), Example(Prepared, "");
    ExampleFits(flockWorks);
    AHandoverCanComplete(cfg, ExampleWorld(), h, NewUpdater());
    var v, ps :| Here(cfg, v, ps) && v.journal == Some(CompletedRecord(CommittedRecord(CreatedRecord(h, NewUpdater()))))
                 && Is(ps, NewUpdater(), Primary(Idle), true) && OldUpdater() !in ps && !UpIn(v, OldUpdater());
  }

  /**
    * Such a commit exists: a run ends with the journal committed and the predecessor, told
    * otherwise, about to abort.
    */
  lemma ACommitLandsUnreported(flockWorks: bool)
    ensures exists v, ps ::
              && Here(Config(flockWorks, OldUpdater()), v, ps) && v.journal == Some(Example(Committed, NewUpdater()))
              && Is(ps, OldUpdater(), Primary(Disowned(Example(Created, NewUpdater()))), true)
  {
    hide Fits, Here, Is, OldUpdater, NewUpdater, Digest, Render, TheAgent, Nonce, Disowned;
    var cfg, h := Config(flockWorks, OldUpdater()), Example(Prepared, "");
    ExampleFits(flockWorks);
    ACommitCanLandUnreported(cfg, ExampleWorld(), h, NewUpdater());
    var v, ps :| Here(cfg, v, ps) && v.journal == Some(CommittedRecord(CreatedRecord(h, NewUpdater())))
                 && Is(ps, OldUpdater(), Primary(Disowned(CreatedRecord(h, NewUpdater()))), true);
  }
}
