/**
  * Every action outside the primary's role keeps the invariant: the role loop, a retired
  * predecessor, a standby, the environment.
  */
module HandoverRoles {
  import opened Wrappers
  import opened VersionOrder
  import opened HandoverJournal
  import opened HandoverModel
  import opened HandoverInvariant
  import opened HandoverWorld
  import opened HandoverFrame
  import opened HandoverSteps
  import opened HandoverPrimary

  /** The process's memory at a step that does not make it primary. */
  lemma RoleKeeps(cfg: Config, s: State, p: Cid, pc: Pc)
    requires Inv(cfg, s) && p in s.procs && !s.procs[p].pc.Primary? && HoldsLock(pc) == HoldsLock(s.procs[p].pc)
    requires Remembers(cfg, s.w, p, s.procs[p].(pc := pc))
             && (pc.Unlocked? && s.procs[p].resolved ==> Rightful(s.w.journal, p))
    ensures Inv(cfg, Go(s, p, pc))
  {
    hide Inv, WorldOk, Rightful, HoldsLock, Remembers;
    Ready(cfg, s, p);
    GoKeeps(cfg, s, p, pc);
  }

  /** The same when the step takes or lets go of the lock. */
  lemma RoleLocks(cfg: Config, s: State, p: Cid, lock: Option<Cid>, pc: Pc)
    requires Inv(cfg, s) && p in s.procs && !s.procs[p].pc.Primary? && !pc.Primary? && !pc.Unlocked?
    requires if HoldsLock(pc) then s.w.lock == None && lock == Some(p) else lock == None && HoldsLock(s.procs[p].pc)
    requires Remembers(cfg, s.w.(lock := lock), p, s.procs[p].(pc := pc))
    ensures Inv(cfg, Turn(s, s.w.(lock := lock), p, pc))
  {
    hide Inv, WorldOk, Rightful, HoldsLock, Remembers;
    Ready(cfg, s, p);
    LockKeeps(cfg, s, p, lock, pc);
  }

  /** What the process at pc remembers. */
  lemma Recalls(cfg: Config, s: State, p: Cid)
    requires Inv(cfg, s) && p in s.procs
    ensures Remembers(cfg, s.w, p, s.procs[p]) && WorldOk(cfg, s.w) && IsStarted(s.w, p)
  {
    hide WorldOk, Remembers, Rightful, HoldsLock;
    assert ProcOk(cfg, s.w, p, s.procs[p]);
  }

  // ------------------------------------------------------------------ the role loop

  /** A process without the lock starts over. */
  lemma StartsOver(cfg: Config, s: State, p: Cid, from: Pc, pc: Pc)
    requires Inv(cfg, s) && At(s, p, from) && (from.Boot? || from.Competing? || from.Watching? || from.Standing?)
    requires pc == Choosing || (pc == AloneReading && !cfg.flockWorks)
    ensures Inv(cfg, Go(s, p, pc))
  {
    hide Inv, WorldOk;
    RoleKeeps(cfg, s, p, pc);
  }

  lemma AloneReadKeeps(cfg: Config, s: State, p: Cid, readable: bool)
    requires Inv(cfg, s) && At(s, p, AloneReading)
    ensures Inv(cfg, Go(s, p, if readable then AlonePc(s.w.journal, SelfOf(s, p)) else Choosing))
  {
    hide Inv, WorldOk, RoleOf;
    Recalls(cfg, s, p);
    if readable && s.w.journal.None? {
      RootOnly(cfg, s, p);
    }
    RoleKeeps(cfg, s, p, if readable then AlonePc(s.w.journal, SelfOf(s, p)) else Choosing);
  }

  lemma RootOnly(cfg: Config, s: State, p: Cid)
    requires Inv(cfg, s) && !cfg.flockWorks && s.w.journal.None? && IsStarted(s.w, p)
    ensures OnlyStarted(s.w, p)
  {
    hide LogOk, RetiredOk, PassesOk, ProcsOk, IsStarted;
  }

  lemma AlonePredecessorKeeps(cfg: Config, s: State, p: Cid, h: Handover, answered: bool)
    requires Inv(cfg, s) && At(s, p, AlonePredecessor(h))
    ensures Inv(cfg, Go(s, p, AfterPredecessor(s.w, h, SelfOf(s, p), answered)))
  {
    hide Inv, WorldOk, AloneOk, Builds, RecordOk;
    Recalls(cfg, s, p);
    AloneJournal(cfg, s.w, p, s.procs[p].resolved, h);
    JournalNames(cfg, s.w);
    RoleKeeps(cfg, s, p, AfterPredecessor(s.w, h, SelfOf(s, p), answered));
  }

  lemma AloneJournal(cfg: Config, w: World, p: Cid, resolved: bool, h: Handover)
    requires AloneOk(cfg, w, p, resolved, h)
    ensures w.journal == Some(h) && !cfg.flockWorks && (resolved ==> Rightful(w.journal, p))
  {
  }

  lemma AloneSuccessorKeeps(cfg: Config, s: State, p: Cid, h: Handover, answered: bool)
    requires Inv(cfg, s) && At(s, p, AloneSuccessor(h))
    ensures Inv(cfg, Go(s, p, AfterSuccessor(s.w, h, SelfOf(s, p), answered)))
  {
    hide Inv, WorldOk, AloneOk, Rightful, OnlyStarted;
    Recalls(cfg, s, p);
    AloneJournal(cfg, s.w, p, s.procs[p].resolved, h);
    if h.successor == "" || h.successor == SelfOf(s, p) || (answered && h.successor !in s.w.boxes) {
      OneIsLeft(cfg, s, p, h);
      RoleKeeps(cfg, s, p, Unlocked);
    } else {
      RoleKeeps(cfg, s, p, Choosing);
    }
  }

  /** Both containers the journal names are this one or gone, so nothing else was ever started. */
  lemma OneIsLeft(cfg: Config, s: State, p: Cid, h: Handover)
    requires Inv(cfg, s) && !cfg.flockWorks && s.w.journal == Some(h)
    requires h.predecessor == p || h.predecessor !in s.w.boxes
    requires h.successor == "" || h.successor == p || h.successor !in s.w.boxes || h.successor == SelfOf(s, p)
    ensures OnlyStarted(s.w, p)
  {
    hide LogOk, RetiredOk, PassesOk, ProcsOk;
  }

  lemma ChooseKeeps(cfg: Config, s: State, p: Cid, readable: bool)
    requires Inv(cfg, s) && At(s, p, Choosing)
    ensures Inv(cfg, Go(s, p, RolePc(Reading(s.w, readable), SelfOf(s, p))))
  {
    hide Inv, WorldOk, RecordOk, Known;
    Recalls(cfg, s, p);
    JournalNames(cfg, s.w);
    if s.w.journal.Some? {
      JournalIsKnown(s.w);
    }
    RoleKeeps(cfg, s, p, RolePc(Reading(s.w, readable), SelfOf(s, p)));
  }

  lemma JournalIsKnown(w: World)
    requires w.journal.Some? && RecordOk(w, w.journal.value)
    ensures Known(w, w.journal.value)
  {
    hide Newer, SlotIsIdle, Identity;
  }

  lemma TryLockKeeps(cfg: Config, s: State, p: Cid)
    requires Inv(cfg, s) && At(s, p, Competing) && s.w.lock.None?
    ensures Inv(cfg, Turn(s, Locked(s.w, p), p, Fencing))
  {
    hide Inv, WorldOk;
    RoleLocks(cfg, s, p, Some(p), Fencing);
  }

  lemma FenceKeeps(cfg: Config, s: State, p: Cid, readable: bool)
    requires Inv(cfg, s) && At(s, p, Fencing)
    ensures Inv(cfg, if readable && RoleOf(s.w.journal, SelfOf(s, p)).Candidate? then Enter(s, p, Starting)
                     else Turn(s, Released(s.w), p, Choosing))
  {
    hide Inv, WorldOk, RoleOf;
    if readable && RoleOf(s.w.journal, SelfOf(s, p)).Candidate? {
      RoleKeeps(cfg, s, p, Primary(Starting));
    } else {
      RoleLocks(cfg, s, p, None, Choosing);
    }
  }

  lemma AloneKeeps(cfg: Config, s: State, a: Action)
    requires Inv(cfg, s) && ServeEnabled(cfg, s, a)
             && (a.AloneRead? || a.AloneInspectPredecessor? || a.AloneInspectSuccessor?)
    ensures Inv(cfg, ServeStep(s, a))
  {
    hide Inv, At, Go, AlonePc, SelfOf, AfterPredecessor, AfterSuccessor;
    match a
    case AloneRead(p, readable) => AloneReadKeeps(cfg, s, p, readable);
    case AloneInspectPredecessor(p, h, answered) => AlonePredecessorKeeps(cfg, s, p, h, answered);
    case AloneInspectSuccessor(p, h, answered) => AloneSuccessorKeeps(cfg, s, p, h, answered);
  }

  lemma CompeteKeeps(cfg: Config, s: State, a: Action)
    requires Inv(cfg, s) && ServeEnabled(cfg, s, a) && !a.AloneRead? && !a.AloneInspectPredecessor?
             && !a.AloneInspectSuccessor?
    ensures Inv(cfg, ServeStep(s, a))
  {
    hide Inv, At, Go, Turn, Enter, RolePc, SelfOf, RoleOf, Reading, HoldsLock, Locked, Released;
    if a.OpenLock? {
      StartsOver(cfg, s, a.p, Boot, if a.usable then Choosing else AloneReading);
    } else if a.Choose? {
      ChooseKeeps(cfg, s, a.p, a.readable);
    } else if a.TryLock? {
      TryLockKeeps(cfg, s, a.p);
    } else if a.LockUnusable? {
      StartsOver(cfg, s, a.p, Competing, AloneReading);
    } else if a.StopCompeting? {
      StartsOver(cfg, s, a.p, Competing, Choosing);
    } else {
      FenceKeeps(cfg, s, a.p, a.readable);
    }
  }

  lemma ServeKeeps(cfg: Config, s: State, a: Action)
    requires Inv(cfg, s) && ServeEnabled(cfg, s, a)
    ensures Inv(cfg, ServeStep(s, a))
  {
    hide Inv, ServeStep, ServeEnabled;
    if a.AloneRead? || a.AloneInspectPredecessor? || a.AloneInspectSuccessor? {
      AloneKeeps(cfg, s, a);
    } else {
      CompeteKeeps(cfg, s, a);
    }
  }

  // --------------------------------------------------------- a retired predecessor

  lemma ReclaimLockKeeps(cfg: Config, s: State, p: Cid, h: Handover)
    requires Inv(cfg, s) && At(s, p, Watching(h)) && s.w.lock.None?
    ensures Inv(cfg, Turn(s, Locked(s.w, p), p, Reclaiming(h)))
  {
    hide Inv, WorldOk;
    RoleLocks(cfg, s, p, Some(p), Reclaiming(h));
  }

  lemma ReclaimReadKeeps(cfg: Config, s: State, p: Cid, h: Handover, readable: bool)
    requires Inv(cfg, s) && At(s, p, Reclaiming(h))
    ensures Inv(cfg, if readable
                && StillReclaimable(s.w.journal, h, SelfOf(s, p)) then Go(s, p, ReclaimWriting(s.w.journal.value))
                     else Turn(s, Released(s.w), p, Watching(h)))
  {
    hide Inv, WorldOk, RecordOk, Builds;
    if readable && StillReclaimable(s.w.journal, h, SelfOf(s, p)) {
      Recalls(cfg, s, p);
      JournalNames(cfg, s.w);
      RoleKeeps(cfg, s, p, ReclaimWriting(s.w.journal.value));
    } else {
      RoleLocks(cfg, s, p, None, Watching(h));
    }
  }

  lemma RevertLands(cfg: Config, s: State, p: Cid, h: Handover)
    requires Inv(cfg, s) && At(s, p, ReclaimWriting(h)) && Accepted(s.w.journal, RevertedRecord(h, s.w.now), s.w.now)
    ensures var next := RevertedRecord(h, s.w.now);
            && WorldOk(cfg, Landed(s.w, next, "")) && Rightful(Some(next), p)
            && h.successor != p && h.successor in s.w.ever
            && Identity(next) == Identity(h) && s.w.journal == Some(h) && !Terminal(h.phase) && s.procs[p].resolved
            && s.w.lock == Some(p)
  {
    hide Inv, WorldOk, RecordOk, Builds, Accepted, Landed, Rightful, ProvenBy, NotBefore;
    Recalls(cfg, s, p);
    JournalNames(cfg, s.w);
    StartedIsNamed(cfg, s, p);
    var next := RevertedRecord(h, s.w.now);
    CommitWasProven(cfg, s.w, h, next);
    SuccessorKept(s.w, h);
    MoveLands(cfg, s.w, next, "");
    KeepsRoleIsRightful(next, p);
    Ready(cfg, s, p);
  }

  lemma SuccessorKept(w: World, h: Handover)
    requires NamesOk(w, h)
    ensures h.successor != "" ==> h.successor in w.ever
  {
  }

  lemma ReclaimWriteKeeps(cfg: Config, s: State, p: Cid, h: Handover, write: Write)
    requires Inv(cfg, s) && At(s, p, ReclaimWriting(h)) && CanWrite(s.w, RevertedRecord(h, s.w.now), write)
    ensures var after := AfterWrite(s.w, RevertedRecord(h, s.w.now), write);
            Inv(cfg, if write.Reported? then Turn(s, after, p, ReclaimStopping(h))
                     else Turn(s, Released(after), p, Watching(h)))
  {
    hide Inv, WorldOk, Accepted, NotBefore, Landed, RevertedRecord;
    if write.Lost? {
      RoleLocks(cfg, s, p, None, Watching(h));
    } else if write.Reported? {
      RevertLandsAt(cfg, s, p, h, Some(p), ReclaimStopping(h));
    } else {
      RevertLandsAt(cfg, s, p, h, None, Watching(h));
    }
  }

  lemma RevertLandsAt(cfg: Config, s: State, p: Cid, h: Handover, lock: Option<Cid>, pc: Pc)
    requires Inv(cfg, s) && At(s, p, ReclaimWriting(h)) && Accepted(s.w.journal, RevertedRecord(h, s.w.now), s.w.now)
    requires (lock == Some(p) && pc == ReclaimStopping(h)) || (lock == None && pc == Watching(h))
    ensures Inv(cfg, Turn(s, Landed(s.w, RevertedRecord(h, s.w.now), "").(lock := lock), p, pc))
    ensures Landed(s.w, RevertedRecord(h, s.w.now), "").lock == Some(p)
  {
    hide Inv, WorldOk, Accepted, NotBefore, Rightful, Identity, NamedAreGone, RevertedRecord, RetiredBy;
    var next := RevertedRecord(h, s.w.now);
    RevertLands(cfg, s, p, h);
    Ready(cfg, s, p);
    var v := Landed(s.w, next, "").(lock := lock);
    FewerKeeps(cfg, Landed(s.w, next, ""), v);
    LandKeeps(cfg, s, v, next, p, pc);
  }

  lemma ReclaimStopKeeps(cfg: Config, s: State, p: Cid, h: Handover, effect: bool)
    requires Inv(cfg, s) && At(s, p, ReclaimStopping(h))
    ensures Inv(cfg, Go(if effect then Stopped(s, h.successor) else s, p, ReclaimRemoving(h)))
  {
    hide Inv, WorldOk, Rightful;
    Recalls(cfg, s, p);
    if effect {
      StoppedKeeps(cfg, s, h.successor);
      RoleKeeps(cfg, Stopped(s, h.successor), p, ReclaimRemoving(h));
    } else {
      RoleKeeps(cfg, s, p, ReclaimRemoving(h));
    }
  }

  lemma ReclaimRemoveKeeps(cfg: Config, s: State, p: Cid, h: Handover, effect: bool)
    requires Inv(cfg, s) && At(s, p, ReclaimRemoving(h))
    ensures Inv(cfg, Enter(if effect then Removed(s, h.successor) else s, p, Starting))
  {
    hide Inv, WorldOk, Rightful;
    Recalls(cfg, s, p);
    if effect {
      RemovedKeeps(cfg, s, h.successor);
      RoleKeeps(cfg, Removed(s, h.successor), p, Primary(Starting));
    } else {
      RoleKeeps(cfg, s, p, Primary(Starting));
    }
  }

  lemma RetiredKeeps(cfg: Config, s: State, a: Action)
    requires Inv(cfg, s) && RetiredEnabled(s, a)
    ensures Inv(cfg, RetiredStep(s, a))
  {
    hide Inv, At, Go, Turn, Enter, CanWrite, StillReclaimable, RevertedRecord, Stopped, Removed, SelfOf, AfterWrite,
         HoldsLock, Released, Locked;
    if a.StopWatching? {
      StartsOver(cfg, s, a.p, Watching(a.h), Choosing);
    } else if a.ReclaimLock? {
      ReclaimLockKeeps(cfg, s, a.p, a.h);
    } else if a.ReclaimRead? {
      ReclaimReadKeeps(cfg, s, a.p, a.h, a.readable);
    } else if a.ReclaimWrite? {
      ReclaimWriteKeeps(cfg, s, a.p, a.h, a.write);
    } else if a.ReclaimStop? {
      ReclaimStopKeeps(cfg, s, a.p, a.h, a.effect);
    } else if a.ReclaimRemove? {
      ReclaimRemoveKeeps(cfg, s, a.p, a.h, a.effect);
    }
  }

  // ----------------------------------------------------------- a successor in standby

  lemma StandbyCheckKeeps(cfg: Config, s: State, p: Cid, h: Handover, missing: nat)
    requires Inv(cfg, s) && At(s, p, Standing(h, false, missing)) && PassesStandbyChecks(s.w, p, h)
    ensures Inv(cfg, Turn(s, s.w.(passed := s.w.passed + {Pass(h.id, p, h.version)}), p, Proving(h, missing)))
  {
    hide Inv, WorldOk, Known, Grows;
    var v := s.w.(passed := s.w.passed + {Pass(h.id, p, h.version)});
    Recalls(cfg, s, p);
    PassKeeps(cfg, s.w, p, h);
    QuietKeeps(cfg, s, v);
    KnownStays(s.w, v, h);
    RoleKeeps(cfg, s.(w := v), p, Proving(h, missing));
  }

  lemma PassKeeps(cfg: Config, w: World, p: Cid, h: Handover)
    requires WorldOk(cfg, w) && PassesStandbyChecks(w, p, h)
    ensures var v := w.(passed := w.passed + {Pass(h.id, p, h.version)}); WorldOk(cfg, v) && Grows(w, v)
  {
    hide LogOk, SoloOk, RetiredOk;
    CalmKeeps(cfg, w, w.(passed := w.passed + {Pass(h.id, p, h.version)}));
  }

  /** A change that leaves containers, journal and lock alone. */
  lemma QuietKeeps(cfg: Config, s: State, v: World)
    requires Inv(cfg, s) && WorldOk(cfg, v) && Grows(s.w, v)
    requires v.journal == s.w.journal && v.lock == s.w.lock && v.boxes == s.w.boxes
    ensures Inv(cfg, s.(w := v))
  {
    hide Inv, WorldOk, Grows, Bears, ProcOk;
    forall q | q in s.procs ensures Bears(cfg, s.w, v, q, s.procs[q]) {
      QuietBears(cfg, s.w, v, q, s.procs[q]);
    }
    ChangeKeeps(cfg, s, v);
  }

  lemma WriteProofKeeps(cfg: Config, s: State, p: Cid, h: Handover, missing: nat, write: Write)
    requires Inv(cfg, s) && At(s, p, Proving(h, missing))
    ensures Inv(cfg, Turn(s, if write.Lost? then s.w else s.w.(proof := Some(Proof(h.id, p, h.version, h.agentBinary))),
                          p, Standing(h, write.Reported?, missing)))
  {
    hide Inv, WorldOk, Known, Grows;
    Recalls(cfg, s, p);
    if write.Lost? {
      RoleKeeps(cfg, s, p, Standing(h, false, missing));
    } else {
      var v := s.w.(proof := Some(Proof(h.id, p, h.version, h.agentBinary)));
      ProofKeeps(cfg, s.w, p, h);
      QuietKeeps(cfg, s, v);
      KnownStays(s.w, v, h);
      RoleKeeps(cfg, s.(w := v), p, Standing(h, write.Reported?, missing));
    }
  }

  lemma ProofKeeps(cfg: Config, w: World, p: Cid, h: Handover)
    requires WorldOk(cfg, w) && ProvenStandby(w, p, h)
    ensures var v := w.(proof := Some(Proof(h.id, p, h.version, h.agentBinary))); WorldOk(cfg, v) && Grows(w, v)
  {
    hide LogOk, SoloOk, RetiredOk;
    CalmKeeps(cfg, w, w.(proof := Some(Proof(h.id, p, h.version, h.agentBinary))));
  }

  lemma LookKeeps(cfg: Config, s: State, p: Cid, h: Handover, proven: bool, missing: nat, answered: bool)
    requires Inv(cfg, s) && At(s, p, Standing(h, proven, missing))
    ensures Inv(cfg, Go(s, p, Standing(h, proven, Misses(s.w, h, missing, answered))))
  {
    hide Inv, WorldOk, Known;
    Recalls(cfg, s, p);
    RoleKeeps(cfg, s, p, Standing(h, proven, Misses(s.w, h, missing, answered)));
  }

  lemma AbandonLockKeeps(cfg: Config, s: State, p: Cid, h: Handover, missing: nat)
    requires Inv(cfg, s) && At(s, p, Standing(h, true, missing)) && missing >= 2 && s.w.lock.None?
    ensures Inv(cfg, Turn(s, Locked(s.w, p), p, Abandoning(h, missing)))
  {
    hide Inv, WorldOk;
    Recalls(cfg, s, p);
    RoleLocks(cfg, s, p, Some(p), Abandoning(h, missing));
  }

  lemma AbandonReadKeeps(cfg: Config, s: State, p: Cid, h: Handover, missing: nat, readable: bool)
    requires Inv(cfg, s) && At(s, p, Abandoning(h, missing))
    ensures Inv(cfg, if readable
                && StillAbandonable(s.w.journal, h, SelfOf(s, p))
                then Go(s, p, AbandonWriting(s.w.journal.value, missing))
                     else Turn(s, Released(s.w), p, Standing(h, true, missing)))
  {
    hide Inv, WorldOk;
    Recalls(cfg, s, p);
    if readable && StillAbandonable(s.w.journal, h, SelfOf(s, p)) {
      KnownNow(s.w, h);
      RoleKeeps(cfg, s, p, AbandonWriting(s.w.journal.value, missing));
    } else {
      RoleLocks(cfg, s, p, None, Standing(h, true, missing));
    }
  }

  /** The journal read again under the lock is about the handover this standby knows. */
  lemma KnownNow(w: World, h: Handover)
    requires Known(w, h) && w.journal.Some? && w.journal.value.id == h.id
    ensures Known(w, w.journal.value)
    ensures var j := w.journal.value; j.predecessor == h.predecessor && j.version == h.version && j.image == h.image
  {
  }

  lemma AbandonLandsAt(cfg: Config, s: State, p: Cid, h: Handover, missing: nat, lock: Option<Cid>, pc: Pc)
    requires Inv(cfg, s) && At(s, p, AbandonWriting(h, missing)) && Accepted(s.w.journal, AbandonedRecord(h), s.w.now)
    requires (lock == Some(p) && pc == Primary(Starting)) || (lock == None && pc == Standing(h, true, missing))
    ensures Inv(cfg, Turn(s, Landed(s.w, AbandonedRecord(h), "").(lock := lock), p, pc))
    ensures Landed(s.w, AbandonedRecord(h), "").lock == Some(p)
  {
    hide Inv, WorldOk, Accepted, Rightful, NamedAreGone, RetiredBy, AbandonedRecord;
    var next := AbandonedRecord(h);
    Recalls(cfg, s, p);
    StartedIsNamed(cfg, s, p);
    AbandonLands(cfg, s.w, p, h);
    Ready(cfg, s, p);
    var v := Landed(s.w, next, "").(lock := lock);
    FewerKeeps(cfg, Landed(s.w, next, ""), v);
    LandKeeps(cfg, s, v, next, p, pc);
  }

  lemma AbandonLands(cfg: Config, w: World, p: Cid, h: Handover)
    requires WorldOk(cfg, w) && Accepted(w.journal, AbandonedRecord(h), w.now) && p != ""
    requires w.journal == Some(h) && h.phase.Created? && h.successor == p && ProvenStandby(w, p, h)
             && h.predecessor !in w.boxes
    ensures var next := AbandonedRecord(h);
            && WorldOk(cfg, Landed(w, next, "")) && Rightful(Some(next), p) && Identity(next) == Identity(h)
            && next.id == h.id
  {
    hide WorldOk, Accepted, Landed, Rightful;
    var next := AbandonedRecord(h);
    MoveLands(cfg, w, next, "");
    MoveFollows(cfg, w, next);
    KeepsRoleIsRightful(next, p);
  }

  lemma AbandonLost(cfg: Config, s: State, p: Cid, h: Handover, missing: nat)
    requires Inv(cfg, s) && At(s, p, AbandonWriting(h, missing))
    ensures Inv(cfg, Turn(s, Released(s.w), p, Standing(h, true, missing)))
  {
    hide Inv, WorldOk, Known;
    Recalls(cfg, s, p);
    KnownUnlocked(s.w, h);
    RoleLocks(cfg, s, p, None, Standing(h, true, missing));
  }

  lemma AbandonWriteKeeps(cfg: Config, s: State, p: Cid, h: Handover, missing: nat, write: Write)
    requires Inv(cfg, s) && At(s, p, AbandonWriting(h, missing)) && CanWrite(s.w, AbandonedRecord(h), write)
    ensures var after := AfterWrite(s.w, AbandonedRecord(h), write);
            Inv(cfg, if write.Reported? then Turn(s, after, p, Primary(Starting))
                     else Turn(s, Released(after), p, Standing(h, true, missing)))
  {
    hide Inv, WorldOk, Accepted, Landed, AbandonedRecord, Known, Go, At;
    if write.Lost? {
      AbandonLost(cfg, s, p, h, missing);
    } else if write.Reported? {
      AbandonLandsAt(cfg, s, p, h, missing, Some(p), Primary(Starting));
    } else {
      AbandonLandsAt(cfg, s, p, h, missing, None, Standing(h, true, missing));
    }
  }

  lemma KnownUnlocked(w: World, h: Handover)
    requires Known(w, h)
    ensures Known(Released(w), h)
  {
  }

  lemma StandbyKeeps(cfg: Config, s: State, a: Action)
    requires Inv(cfg, s) && StandbyEnabled(s, a)
    ensures Inv(cfg, StandbyStep(s, a))
  {
    hide Inv, At, Go, Turn, Enter, CanWrite, StillAbandonable, AbandonedRecord, SelfOf, AfterWrite, Released, Locked,
         PassesStandbyChecks, Misses;
    if a.StopStanding? {
      StartsOver(cfg, s, a.p, Standing(a.h, a.proven, a.missing), Choosing);
    } else if a.StandbyCheck? {
      StandbyCheckKeeps(cfg, s, a.p, a.h, a.missing);
    } else if a.WriteProof? {
      WriteProofKeeps(cfg, s, a.p, a.h, a.missing, a.write);
    } else if a.LookForPredecessor? {
      LookKeeps(cfg, s, a.p, a.h, a.proven, a.missing, a.answered);
    } else if a.AbandonLock? {
      AbandonLockKeeps(cfg, s, a.p, a.h, a.missing);
    } else if a.AbandonRead? {
      AbandonReadKeeps(cfg, s, a.p, a.h, a.missing, a.readable);
    } else if a.AbandonWrite? {
      AbandonWriteKeeps(cfg, s, a.p, a.h, a.missing, a.write);
    }
  }

  // ------------------------------------------------------------------ the environment

  /** A change of the clock, the request slot, the finished requests or the agent. */
  predicate Outside(w: World, v: World) {
    && v == w.(now := v.now, slot := v.slot, done := v.done, agent := v.agent) && w.done <= v.done
    && (v.agent == w.agent || v.agent.id !in w.ever)
  }

  lemma OutsideKeeps(cfg: Config, s: State, v: World)
    requires Inv(cfg, s) && Outside(s.w, v)
    ensures Inv(cfg, s.(w := v))
  {
    hide LogOk, SoloOk, RetiredOk, ProcsOk;
    CalmKeeps(cfg, s.w, v);
    hide Inv, WorldOk;
    QuietKeeps(cfg, s, v);
  }

  lemma LaunchKeeps(cfg: Config, s: State, p: Cid, resolved: bool)
    requires Inv(cfg, s) && p !in s.procs && IsStarted(s.w, p)
    ensures Inv(cfg, s.(procs := s.procs[p := Proc(resolved, Boot, false)]))
  {
    hide WorldOk, Rightful;
    assert ProcOk(cfg, s.w, p, Proc(resolved, Boot, false));
    hide ProcOk;
  }

  lemma RestartedKeeps(cfg: Config, s: State, c: Cid)
    requires Inv(cfg, s) && IsStarted(s.w, c)
    ensures Inv(cfg, s.(w := Started(s.w, c)))
  {
    hide Inv;
    RestartKeeps(cfg, s, c, s.w.boxes[c].(started := true, up := true));
  }

  /** Where every process can use the lock, anyone may start a container that never ran. */
  lemma FirstStartKeeps(cfg: Config, s: State, c: Cid)
    requires Inv(cfg, s) && cfg.flockWorks && c in s.w.boxes
    ensures Inv(cfg, s.(w := Started(s.w, c)))
  {
    hide LogOk, SoloOk, RetiredOk, Bears, Calm;
    var v := Started(s.w, c);
    FirstStartGrows(cfg, s.w, c);
    CalmKeeps(cfg, s.w, v);
    forall q | q in s.procs ensures Bears(cfg, s.w, v, q, s.procs[q]) {
      assert ProcOk(cfg, s.w, q, s.procs[q]);
      UnlockedMeansNoLock(cfg, s.w, q, s.procs[q]);
      StartedBears(cfg, s.w, c, q, s.procs[q]);
    }
    hide WorldOk, ProcOk;
    ChangeKeeps(cfg, s, v);
  }

  lemma FirstStartGrows(cfg: Config, w: World, c: Cid)
    requires BoxesOk(w) && PassesOk(w) && cfg.flockWorks && c in w.boxes
    ensures var v := Started(w, c);
            Grows(w, v) && Calm(w, v) && StartsOk(cfg, w, v) && BoxesOk(v) && PassesOk(v)
  {
  }

  predicate IsOutside(a: Action) {
    a.Tick? || a.SlotChange? || a.SlotDone? || a.AgentChange?
  }

  lemma OutsideStepKeeps(cfg: Config, s: State, a: Action)
    requires Inv(cfg, s) && EnvironmentEnabled(cfg, s, a) && IsOutside(a)
    ensures Inv(cfg, EnvironmentStep(s, a))
  {
    hide Inv, Outdoors, Outside;
    OutdoorsIsOutside(s.w, a);
    OutsideKeeps(cfg, s, Outdoors(s.w, a));
  }

  lemma OutdoorsIsOutside(w: World, a: Action)
    requires a.AgentChange? ==> a.agent.id !in w.ever
    ensures Outside(w, Outdoors(w, a))
  {
  }

  predicate IsEnding(a: Action) {
    a.OperatorRemove? || a.OperatorStop? || a.Crash?
  }

  lemma EndingStepKeeps(cfg: Config, s: State, a: Action)
    requires Inv(cfg, s) && IsEnding(a)
    ensures Inv(cfg, EnvironmentStep(s, a))
  {
    hide Inv, Removed, Stopped, Killed;
    if a.OperatorRemove? {
      RemovedKeeps(cfg, s, a.c);
    } else if a.OperatorStop? {
      StoppedKeeps(cfg, s, a.c);
    } else if a.Crash? {
      KilledKeeps(cfg, s, a.p);
    }
  }

  lemma BeginningStepKeeps(cfg: Config, s: State, a: Action)
    requires Inv(cfg, s) && EnvironmentEnabled(cfg, s, a) && !IsOutside(a) && !IsEnding(a)
    ensures Inv(cfg, EnvironmentStep(s, a))
  {
    hide Inv, Removed, Stopped, Killed, Started, Made;
    match a
    case Stranger(c, build, name) => MadeKeeps(cfg, s, c, build, Box(name, true, true));
    case OperatorStart(c) => if cfg.flockWorks { FirstStartKeeps(cfg, s, c); } else { RestartedKeeps(cfg, s, c); }
    case Launch(p, resolved) => LaunchKeeps(cfg, s, p, resolved);
    case _ =>
  }

  lemma EnvironmentKeeps(cfg: Config, s: State, a: Action)
    requires Inv(cfg, s) && EnvironmentEnabled(cfg, s, a)
    ensures Inv(cfg, EnvironmentStep(s, a))
  {
    hide Inv, EnvironmentStep, EnvironmentEnabled, IsOutside, IsEnding;
    if IsOutside(a) {
      OutsideStepKeeps(cfg, s, a);
    } else if IsEnding(a) {
      EndingStepKeeps(cfg, s, a);
    } else {
      BeginningStepKeeps(cfg, s, a);
    }
  }
}
