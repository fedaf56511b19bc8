/**
  * How a process can have come to where it stands, step by step: in standby, about to prepare a
  * handover, to start its successor or to commit to it, or about to end a container for an abort;
  * what it saw while it waited, and why it aborts.
  */
module HandoverOrigins {
  import opened Wrappers
  import opened HandoverJournal
  import opened HandoverModel

  /** The handover a successor in standby set out with, or last read. */
  function StandsFor(pc: Pc): Option<Handover> {
    match pc
    case Standing(h, _, _) => Some(h)
    case Proving(h, _) => Some(h)
    case Abandoning(h, _) => Some(h)
    case AbandonWriting(h, _) => Some(h)
    case _ => None
  }

  /** This action read the slot last, found it as the handover was prepared on, and sent its process to commit. */
  predicate ReadLast(s: State, a: Action, p: Cid, h: Handover, read: string) {
    a.ReadSlotLast? && a.p == p && a.h == h && s.w.slot == read == h.requestDigest
  }

  /** The container a process is about to end, and the handover it aborts. */
  function Ends(pc: Pc): Option<(Handover, Cid)> {
    if !pc.Primary? then None else
      match pc.stage
      case AbortStopping(h, target, _) => Some((h, target))
      case AbortRemoving(h, target, _) => Some((h, target))
      case _ => None
  }

  /** The container a process knows it made for a handover. */
  function Knows(pc: Pc): Option<(Handover, Cid)> {
    if !pc.Primary? then None else
      match pc.stage
      case RecordingSuccessor(h, c) => Some((h, c))
      case AbortFinding(h, known, _, _) => if known == "" then None else Some((h, known))
      case _ => None
  }

  /**
    * This action set out to end the container: recorded, known to its process, or found as
    * unmistakably the successor.
    */
  predicate Found(s: State, a: Action, p: Cid, h: Handover, target: Cid) {
    && a.AbortFind? && a.p == p && a.h == h && target == AbortTarget(h, a.known, a.found) != ""
    && AtStage(s, p, AbortFinding(h, a.known, a.byName, a.reason))
    && (a.found != "" ==> a.byName && UnmistakablySuccessor(s.w, h, a.found))
  }

  /** This action made the container for the handover, and was told so. */
  predicate MadeIt(a: Action, p: Cid, h: Handover, c: Cid) {
    a.CreateSuccessor? && a.p == p && a.h == h && a.c == c && a.confirmed
  }

  /** This action evaluated the agent and found the handover eligible. */
  predicate Judged(s: State, a: Action, p: Cid, h: Handover) {
    a.Evaluate? && a.p == p && a.h == h && Eligible(s.w, p, a.digest, h)
  }

  /** This action read the created container back, and found it to be what was asked for. */
  predicate ReadBack(s: State, a: Action, p: Cid, h: Handover) {
    a.VerifySuccessor? && a.p == p && a.h == h && IsWhatWasCreated(s.w, h)
  }

  predicate Aborting(s: State, a: Action, p: Cid, pc: Pc) {
    && (Ends(pc).Some? ==> (p in s.procs && Ends(s.procs[p].pc) == Ends(pc))
                           || Found(s, a, p, Ends(pc).value.0, Ends(pc).value.1))
    && (Knows(pc).Some? ==> (p in s.procs && Knows(s.procs[p].pc) == Knows(pc))
                            || MadeIt(a, p, Knows(pc).value.0, Knows(pc).value.1))
  }

  // ------------------------------------------------------------- why a process aborts

  /** The handover a process is aborting, and the reason it gives. */
  function Aborts(pc: Pc): Option<(Handover, string)> {
    if !pc.Primary? then None else
      match pc.stage
      case AbortFinding(h, _, _, reason) => Some((h, reason))
      case AbortStopping(h, _, reason) => Some((h, reason))
      case AbortRemoving(h, _, reason) => Some((h, reason))
      case AbortWriting(h, reason) => Some((h, reason))
      case _ => None
  }

  /** What a predecessor may find, waiting, that makes it abort. */
  predicate WaitGrounds(w: World, a: Action, p: Cid, h: Handover, reason: string) {
    || (a.ReadSlotFirst? && a.p == p && a.h == h && RequestChanged(w, h, a.readable) && reason == PREEMPTED)
    || (a.ReadSlotLast? && a.p == p && a.h == h && RequestChanged(w, h, a.readable) && reason == PREEMPTED)
    || (a.InspectSuccessor? && a.p == p && a.h == h && a.answered && h.successor !in w.boxes
        && reason == "successor disappeared")
    || (a.InspectAgent? && a.p == p && a.h == h && a.answered && !SameAgent(w, h) && reason == "the agent was replaced")
    || (a.WriteCommitted? && a.p == p && a.h == h && !a.write.Reported? && reason == "the commit could not be recorded")
  }

  /** What may go wrong before it waits, or take too long. */
  predicate StartGrounds(a: Action, p: Cid, h: Handover, reason: string) {
    || (a.CreateSuccessor? && a.p == p && a.h == h && !a.confirmed && reason == "successor could not be created")
    || (a.WriteCreated? && a.p == p && a.h == h && !a.write.Reported? && reason == "successor could not be recorded")
    || (a.StartSuccessor? && a.p == p && a.h == h && !a.confirmed && reason == "successor could not be started")
    || (a.GiveUp? && a.p == p && a.h == h && a.reason == reason && MayGiveUp(a.stage, h, reason))
  }

  /** A handover read from the journal that nobody else is at. */
  predicate JournalGrounds(s: State, a: Action, p: Cid, h: Handover, reason: string) {
    && a.ReconcileRead? && a.p == p && a.readable && s.w.journal == Some(h)
    && reason == if h.predecessor == SelfOf(s, p) then "interrupted" else "another updater holds the lock"
  }

  /** This action gave its process grounds to abort the handover, and the reason says which. */
  predicate Grounds(s: State, a: Action, p: Cid, h: Handover, reason: string) {
    || WaitGrounds(s.w, a, p, h, reason) || StartGrounds(a, p, h, reason) || JournalGrounds(s, a, p, h, reason)
  }

  predicate Reasoned(s: State, a: Action, p: Cid, pc: Pc) {
    Aborts(pc).Some? ==>
      (p in s.procs && Aborts(s.procs[p].pc) == Aborts(pc)) || Grounds(s, a, p, Aborts(pc).value.0, Aborts(pc).value.1)
  }

  // --------------------------------------------------- what a waiting predecessor saw

  /** The agent is the container and image the handover is about. */
  predicate SameAgent(w: World, h: Handover) {
    w.agent.id == h.agentContainer && w.agent.image == h.image
  }

  /** The handover whose proof a waiting process has read. */
  function SawProof(pc: Pc): Option<Handover> {
    if !pc.Primary? then None else
      match pc.stage
      case WaitSlotFirst(h, proven) => if proven then Some(h) else None
      case WaitSuccessor(h, proven) => if proven then Some(h) else None
      case WaitAgent(h, proven, _) => if proven then Some(h) else None
      case WaitProof(h, proven, _, _) => if proven then Some(h) else None
      case WaitSlotLast(h, proven, _, _) => if proven then Some(h) else None
      case Committing(h, _) => Some(h)
      case _ => None
  }

  /** The handover whose successor a process found up in this pass of its wait. */
  function SawUp(pc: Pc): Option<Handover> {
    if !pc.Primary? then None else
      match pc.stage
      case WaitAgent(h, _, up) => if up then Some(h) else None
      case WaitProof(h, _, up, _) => if up then Some(h) else None
      case WaitSlotLast(h, _, up, _) => if up then Some(h) else None
      case Committing(h, _) => Some(h)
      case _ => None
  }

  /** The handover whose agent a process found the same in this pass of its wait. */
  function SawAgent(pc: Pc): Option<Handover> {
    if !pc.Primary? then None else
      match pc.stage
      case WaitProof(h, _, _, same) => if same then Some(h) else None
      case WaitSlotLast(h, _, _, same) => if same then Some(h) else None
      case Committing(h, _) => Some(h)
      case _ => None
  }

  predicate ProofRead(s: State, a: Action, p: Cid, h: Handover) {
    a.ReadProof? && a.p == p && a.h == h && s.w.proof == Some(ProofFor(h))
  }

  predicate FoundUp(s: State, a: Action, p: Cid, h: Handover) {
    a.InspectSuccessor? && a.p == p && a.h == h && UpIn(s.w, h.successor)
  }

  predicate FoundAgent(s: State, a: Action, p: Cid, h: Handover) {
    a.InspectAgent? && a.p == p && a.h == h && SameAgent(s.w, h)
  }

  predicate Watched(s: State, a: Action, p: Cid, pc: Pc) {
    && (SawProof(pc).Some? ==> (p in s.procs && SawProof(s.procs[p].pc) == SawProof(pc))
                               || ProofRead(s, a, p, SawProof(pc).value))
    && (SawUp(pc).Some? ==> (p in s.procs && SawUp(s.procs[p].pc) == SawUp(pc)) || FoundUp(s, a, p, SawUp(pc).value))
    && (SawAgent(pc).Some? ==> (p in s.procs && SawAgent(s.procs[p].pc) == SawAgent(pc))
                               || FoundAgent(s, a, p, SawAgent(pc).value))
  }

  // -------------------------------------------------------------------- all together

  predicate Stood(s: State, p: Cid, h: Handover) {
    p in s.procs && StandsFor(s.procs[p].pc) == Some(h)
  }

  predicate SetOut(s: State, a: Action, p: Cid, pc: Pc) {
    && (StandsFor(pc).Some? ==> Stood(s, p, StandsFor(pc).value) || s.w.journal == StandsFor(pc))
    && (pc.Primary? && pc.stage.Committing? ==> At(s, p, pc) || ReadLast(s, a, p, pc.stage.h, pc.stage.read))
    && (pc.Primary? && pc.stage.Evaluated? ==> At(s, p, pc) || Judged(s, a, p, pc.stage.h))
    && (pc.Primary? && pc.stage.StartingSuccessor? ==> At(s, p, pc) || ReadBack(s, a, p, pc.stage.h))
  }

  /**
    * How a process can have come to stand where it does: in standby by reading the journal, about
    * to prepare by evaluating the agent, to start the successor by reading it back, to commit by
    * reading the slot, to end a container by looking for the successor, knowing of one by having
    * made it, aborting on some grounds, and remembering of its wait what it saw.
    */
  predicate Origin(s: State, a: Action, p: Cid, pc: Pc) {
    SetOut(s, a, p, pc) && Aborting(s, a, p, pc) && Reasoned(s, a, p, pc) && Watched(s, a, p, pc)
  }

  ghost predicate Origins(s: State, t: State, a: Action) {
    forall p :: p in t.procs ==> Origin(s, a, p, t.procs[p].pc)
  }

  /** Nobody moved, and nobody appeared. */
  ghost predicate Others(s: State, u: State) {
    forall q :: q in u.procs ==> q in s.procs && u.procs[q].pc == s.procs[q].pc
  }

  lemma StaysPut(s: State, a: Action, q: Cid)
    requires q in s.procs
    ensures Origin(s, a, q, s.procs[q].pc)
  {
    hide Found, MadeIt, Judged, ReadBack, ReadLast, Grounds, ProofRead, FoundUp, FoundAgent, Aborts, Ends, Knows,
         SawProof, SawUp, SawAgent, StandsFor;
  }

  lemma GoOrigins(s: State, u: State, a: Action, p: Cid, pc: Pc)
    requires Others(s, u) && Origin(s, a, p, pc)
    ensures Origins(s, Go(u, p, pc), a)
  {
    hide Origin;
    forall q | q in Go(u, p, pc).procs ensures Origin(s, a, q, Go(u, p, pc).procs[q].pc) {
      if q != p {
        StaysPut(s, a, q);
      }
    }
  }

  lemma StillOrigins(s: State, u: State, a: Action)
    requires Others(s, u)
    ensures Origins(s, u, a)
  {
    hide Origin;
    forall q | q in u.procs ensures Origin(s, a, q, u.procs[q].pc) {
      StaysPut(s, a, q);
    }
  }

  lemma EndedOthers(s: State, c: Cid)
    ensures Others(s, Stopped(s, c)) && Others(s, Removed(s, c)) && Others(s, Killed(s, c))
    ensures Others(s, s) && Others(s, Beating(s, c, true)) && Others(s, Beating(s, c, false))
  {
  }

  /**
    * Neither about to prepare, to start a successor or to commit, nor knowing of one it made, aborting,
    * or remembering anything of a wait.
    */
  predicate Plain(stage: Stage) {
    && !stage.Evaluated? && !stage.StartingSuccessor? && !stage.Committing? && !stage.RecordingSuccessor?
    && !stage.AbortStopping? && !stage.AbortRemoving? && !stage.AbortFinding? && !stage.AbortWriting?
    && (stage.WaitSlotFirst? ==> !stage.proven)
    && !stage.WaitSuccessor? && !stage.WaitAgent? && !stage.WaitProof? && !stage.WaitSlotLast?
  }

  /** Neither in standby nor at a stage that has an origin. */
  predicate Elsewhere(pc: Pc) {
    && !pc.Standing? && !pc.Proving? && !pc.Abandoning? && !pc.AbandonWriting?
    && (pc.Primary? ==> Plain(pc.stage))
  }

  lemma ElsewhereSetsOut(s: State, a: Action, p: Cid, pc: Pc)
    requires Elsewhere(pc)
    ensures SetOut(s, a, p, pc)
  {
    hide Judged, ReadBack, ReadLast, Stood, At;
  }

  lemma ElsewhereEndsNothing(s: State, a: Action, p: Cid, pc: Pc)
    requires Elsewhere(pc)
    ensures Aborting(s, a, p, pc) && Reasoned(s, a, p, pc)
  {
    hide Found, MadeIt, Grounds;
  }

  lemma ElsewhereSawNothing(s: State, a: Action, p: Cid, pc: Pc)
    requires Elsewhere(pc)
    ensures Watched(s, a, p, pc)
  {
    hide ProofRead, FoundUp, FoundAgent;
  }

  lemma ElsewhereIsFree(s: State, a: Action, p: Cid, pc: Pc)
    requires Elsewhere(pc)
    ensures Origin(s, a, p, pc)
  {
    hide SetOut, Aborting, Reasoned, Watched, Elsewhere;
    ElsewhereSetsOut(s, a, p, pc);
    ElsewhereEndsNothing(s, a, p, pc);
    ElsewhereSawNothing(s, a, p, pc);
  }

  lemma OnlyPrimariesRemember(pc: Pc)
    requires !pc.Primary?
    ensures Aborts(pc).None? && Ends(pc).None? && Knows(pc).None?
    ensures SawProof(pc).None? && SawUp(pc).None? && SawAgent(pc).None?
  {
  }

  /** Whoever is no primary aborts nothing and waits for nobody. */
  lemma NoPrimary(s: State, a: Action, p: Cid, pc: Pc)
    requires !pc.Primary?
    ensures Aborting(s, a, p, pc) && Reasoned(s, a, p, pc) && Watched(s, a, p, pc)
  {
    hide Aborting, Reasoned, Watched, Aborts, Ends, Knows, SawProof, SawUp, SawAgent;
    OnlyPrimariesRemember(pc);
    NothingRemembered(s, a, p, pc);
  }

  lemma NothingRemembered(s: State, a: Action, p: Cid, pc: Pc)
    requires Aborts(pc).None? && Ends(pc).None? && Knows(pc).None?
    requires SawProof(pc).None? && SawUp(pc).None? && SawAgent(pc).None?
    ensures Aborting(s, a, p, pc) && Reasoned(s, a, p, pc) && Watched(s, a, p, pc)
  {
    hide Found, MadeIt, Grounds, ProofRead, FoundUp, FoundAgent, Aborts, Ends, Knows, SawProof, SawUp, SawAgent;
  }

  /** Whoever waits or commits aborts nothing, and whoever aborts or commits to nothing saw nothing. */
  lemma AbortOrWait(s: State, a: Action, p: Cid, stage: Stage)
    ensures Waits(stage) || stage.Committing? ==>
              Aborting(s, a, p, Primary(stage)) && Reasoned(s, a, p, Primary(stage))
    ensures !Waits(stage) && !stage.Committing? ==> Watched(s, a, p, Primary(stage))
  {
    hide Found, MadeIt, Grounds, ProofRead, FoundUp, FoundAgent;
  }

  predicate Waits(stage: Stage) {
    stage.WaitSlotFirst? || stage.WaitSuccessor? || stage.WaitAgent? || stage.WaitProof? || stage.WaitSlotLast?
  }

  /** A process that goes elsewhere, after some process may have ended. */
  lemma GoesElsewhere(s: State, u: State, a: Action, p: Cid, pc: Pc)
    requires Others(s, u) && Elsewhere(pc)
    ensures Origins(s, Go(u, p, pc), a)
  {
    hide Origins, Origin, Go, Others, Elsewhere;
    ElsewhereIsFree(s, a, p, pc);
    GoOrigins(s, u, a, p, pc);
  }

  /** A process that goes elsewhere, having changed at most what is shared. */
  lemma Goes(s: State, w: World, a: Action, p: Cid, pc: Pc)
    requires Elsewhere(pc)
    ensures Origins(s, Turn(s, w, p, pc), a) && Origins(s, Go(s, p, pc), a)
  {
    hide Origins, Origin, Go, Elsewhere;
    GoesElsewhere(s, s.(w := w), a, p, pc);
    GoesElsewhere(s, s, a, p, pc);
  }

  lemma Enters(s: State, w: World, a: Action, p: Cid, stage: Stage)
    requires Plain(stage)
    ensures Origins(s, Turn(s, w, p, Primary(stage)), a) && Origins(s, Enter(s, p, stage), a)
  {
    hide Origins, Origin, Go, Turn, Plain;
    Goes(s, w, a, p, Primary(stage));
  }

  /** A process that enters a stage after it may have ended a container. */
  lemma EntersEnding(s: State, a: Action, p: Cid, c: Cid, effect: bool, stage: Stage)
    requires Plain(stage)
    ensures Origins(s, Enter(if effect then Stopped(s, c) else s, p, stage), a)
    ensures Origins(s, Enter(if effect then Removed(s, c) else s, p, stage), a)
  {
    hide Origins, Origin, Go, Stopped, Removed, Others, Plain;
    EndedOthers(s, c);
    GoesElsewhere(s, if effect then Stopped(s, c) else s, a, p, Primary(stage));
    GoesElsewhere(s, if effect then Removed(s, c) else s, a, p, Primary(stage));
  }

  /** A process that sets out to abort a handover, on some grounds. */
  lemma EntersAbort(s: State, w: World, a: Action, p: Cid, h: Handover, byName: bool, reason: string)
    requires Grounds(s, a, p, h, reason)
    ensures Origins(s, Turn(s, w, p, Primary(AbortFinding(h, "", byName, reason))), a)
    ensures Origins(s, Enter(s, p, AbortFinding(h, "", byName, reason)), a)
  {
    hide Origins, Go, Others, Found, MadeIt, Judged, ReadBack, ReadLast, Stood, At, Grounds, Watched;
    WorldOthers(s, w);
    WorldOthers(s, s.w);
    AbortOrWait(s, a, p, AbortFinding(h, "", byName, reason));
    GoOrigins(s, s.(w := w), a, p, Primary(AbortFinding(h, "", byName, reason)));
    GoOrigins(s, s, a, p, Primary(AbortFinding(h, "", byName, reason)));
  }

  /** A predecessor that goes on waiting, remembering what it saw. */
  lemma EntersWait(s: State, a: Action, p: Cid, stage: Stage)
    requires Waits(stage) && Watched(s, a, p, Primary(stage))
    ensures Origins(s, Enter(s, p, stage), a)
  {
    hide Origins, Go, Others, Judged, ReadBack, ReadLast, Stood, At, Aborting, Reasoned, Watched;
    WorldOthers(s, s.w);
    AbortOrWait(s, a, p, stage);
    GoOrigins(s, s, a, p, Primary(stage));
  }

  /** A successor that goes on standing for what it stood for, or for what it has just read. */
  lemma GoesOnStanding(s: State, w: World, a: Action, p: Cid, pc: Pc)
    requires StandsFor(pc).Some? && (Stood(s, p, StandsFor(pc).value) || s.w.journal == StandsFor(pc))
    ensures Origins(s, Turn(s, w, p, pc), a) && Origins(s, Go(s, p, pc), a)
  {
    hide Origins, Go, Aborting, Reasoned, Watched;
    NoPrimary(s, a, p, pc);
    GoOrigins(s, s.(w := w), a, p, pc);
    GoOrigins(s, s, a, p, pc);
  }

  // ------------------------------------------------------------------- step by step

  lemma EnvironmentOrigins(cfg: Config, s: State, a: Action)
    requires EnvironmentEnabled(cfg, s, a)
    ensures Origins(s, EnvironmentStep(s, a), a)
  {
    hide Origins, Stopped, Removed, Killed, Others, Origin, Outdoors, Started, Made;
    if a.Launch? {
      LaunchOrigins(s, a, a.p, a.resolved);
    } else if a.Crash? {
      EndedOthers(s, a.p);
      StillOrigins(s, Killed(s, a.p), a);
    } else if a.OperatorRemove? || a.OperatorStop? {
      EndedOthers(s, a.c);
      StillOrigins(s, if a.OperatorRemove? then Removed(s, a.c) else Stopped(s, a.c), a);
    } else {
      WorldOrigins(s, EnvironmentStep(s, a), a);
    }
  }

  lemma WorldOrigins(s: State, t: State, a: Action)
    requires t.procs == s.procs
    ensures Origins(s, t, a)
  {
    hide Origin, Origins;
    StillOrigins(s, t, a);
  }

  lemma LaunchOrigins(s: State, a: Action, p: Cid, resolved: bool)
    ensures Origins(s, s.(procs := s.procs[p := Proc(resolved, Boot, false)]), a)
  {
    hide Origin;
    var t := s.(procs := s.procs[p := Proc(resolved, Boot, false)]);
    forall q | q in t.procs ensures Origin(s, a, q, t.procs[q].pc) {
      if q == p {
        ElsewhereIsFree(s, a, p, Boot);
      } else {
        StaysPut(s, a, q);
      }
    }
  }

  lemma RolePcOrigin(s: State, a: Action, p: Cid, journal: Option<Handover>, self: Cid)
    requires journal.None? || journal == s.w.journal
    ensures Origin(s, a, p, RolePc(journal, self))
  {
    hide RoleOf, Aborting, Reasoned, Watched, Stood;
    NoPrimary(s, a, p, RolePc(journal, self));
  }

  lemma ChooseOrigins(s: State, a: Action, p: Cid, journal: Option<Handover>, self: Cid)
    requires journal.None? || journal == s.w.journal
    ensures Origins(s, Go(s, p, RolePc(journal, self)), a)
  {
    hide Origins, Origin, Go, RolePc;
    RolePcOrigin(s, a, p, journal, self);
    EndedOthers(s, "");
    GoOrigins(s, s, a, p, RolePc(journal, self));
  }

  lemma AlonePcElsewhere(journal: Option<Handover>, self: Cid)
    ensures Elsewhere(AlonePc(journal, self))
  {
    hide RoleOf, Terminal;
  }

  lemma AloneOrigins(s: State, a: Action)
    requires a.AloneRead? || a.AloneInspectPredecessor? || a.AloneInspectSuccessor?
    ensures Origins(s, ServeStep(s, a), a)
  {
    hide Origins, Go, AlonePc, SelfOf;
    if a.AloneRead? {
      AlonePcElsewhere(s.w.journal, SelfOf(s, a.p));
      Goes(s, s.w, a, a.p, if a.readable then AlonePc(s.w.journal, SelfOf(s, a.p)) else Choosing);
    } else if a.AloneInspectPredecessor? {
      Goes(s, s.w, a, a.p, AfterPredecessor(s.w, a.h, SelfOf(s, a.p), a.answered));
    } else {
      Goes(s, s.w, a, a.p, AfterSuccessor(s.w, a.h, SelfOf(s, a.p), a.answered));
    }
  }

  lemma LockOrigins(s: State, a: Action)
    requires a.TryLock? || a.Fence?
    ensures Origins(s, ServeStep(s, a), a)
  {
    hide Origins, Go, Turn, Enter, RoleOf, SelfOf, Locked, Released;
    if a.TryLock? {
      Goes(s, Locked(s.w, a.p), a, a.p, Fencing);
    } else {
      Enters(s, s.w, a, a.p, Starting);
      Goes(s, Released(s.w), a, a.p, Choosing);
    }
  }

  lemma ServeOrigins(cfg: Config, s: State, a: Action)
    requires ServeEnabled(cfg, s, a)
    ensures Origins(s, ServeStep(s, a), a)
  {
    hide Origins, Go, Turn, Enter, RolePc, RoleOf, AlonePc, At, SelfOf, Locked, Released, AfterPredecessor,
         AfterSuccessor, Reading;
    if a.AloneRead? || a.AloneInspectPredecessor? || a.AloneInspectSuccessor? {
      AloneOrigins(s, a);
    } else if a.TryLock? || a.Fence? {
      LockOrigins(s, a);
    } else if a.Choose? {
      ReadingIsJournal(s.w, a.readable);
      ChooseOrigins(s, a, a.p, Reading(s.w, a.readable), SelfOf(s, a.p));
    } else {
      Goes(s, s.w, a, a.p, AloneReading);
      Goes(s, s.w, a, a.p, Choosing);
    }
  }

  lemma ReadingIsJournal(w: World, readable: bool)
    ensures Reading(w, readable).None? || Reading(w, readable) == w.journal
  {
  }

  lemma ReclaimStopOrigins(s: State, a: Action, p: Cid, h: Handover, effect: bool)
    ensures Origins(s, Go(if effect then Stopped(s, h.successor) else s, p, ReclaimRemoving(h)), a)
  {
    hide Origins, Origin, Go, Stopped, Others;
    EndedOthers(s, h.successor);
    GoesElsewhere(s, if effect then Stopped(s, h.successor) else s, a, p, ReclaimRemoving(h));
  }

  lemma ReclaimOrigins(s: State, a: Action)
    requires a.ReclaimRead? || a.ReclaimWrite?
    ensures Origins(s, RetiredStep(s, a), a)
  {
    hide Origins, Go, Turn, RevertedRecord, AfterWrite, SelfOf, Released;
    if a.ReclaimWrite? {
      var after := AfterWrite(s.w, RevertedRecord(a.h, s.w.now), a.write);
      Goes(s, after, a, a.p, ReclaimStopping(a.h));
      Goes(s, Released(after), a, a.p, Watching(a.h));
    } else if a.readable && StillReclaimable(s.w.journal, a.h, SelfOf(s, a.p)) {
      Goes(s, s.w, a, a.p, ReclaimWriting(s.w.journal.value));
    } else {
      Goes(s, Released(s.w), a, a.p, Watching(a.h));
    }
  }

  lemma RetiredOrigins(s: State, a: Action)
    requires RetiredEnabled(s, a)
    ensures Origins(s, RetiredStep(s, a), a)
  {
    hide Origins, Go, Turn, Enter, CanWrite, RevertedRecord, Stopped, Removed, AfterWrite, At, SelfOf, Locked, Released,
         StillReclaimable;
    if a.ReclaimRead? || a.ReclaimWrite? {
      ReclaimOrigins(s, a);
    } else if a.StopWatching? {
      Goes(s, s.w, a, a.p, Choosing);
    } else if a.ReclaimLock? {
      Goes(s, Locked(s.w, a.p), a, a.p, Reclaiming(a.h));
    } else if a.ReclaimStop? {
      ReclaimStopOrigins(s, a, a.p, a.h, a.effect);
    } else {
      EntersEnding(s, a, a.p, a.h.successor, a.effect, Starting);
    }
  }

  lemma StandbyOrigins(s: State, a: Action)
    requires StandbyEnabled(s, a)
    ensures Origins(s, StandbyStep(s, a), a)
  {
    hide Origins, StandbyStep;
    if a.StopStanding? {
      LookOrigins(s, a);
    } else if a.StandbyCheck? {
      CheckOrigins(s, a);
    } else if a.WriteProof? {
      ProofOrigins(s, a);
    } else if a.LookForPredecessor? {
      LookOrigins(s, a);
    } else {
      AbandonOrigins(s, a);
    }
  }

  lemma CheckOrigins(s: State, a: Action)
    requires a.StandbyCheck? && StandbyEnabled(s, a)
    ensures Origins(s, StandbyStep(s, a), a)
  {
    hide Origins, Go, Turn, PassesStandbyChecks;
    GoesOnStanding(s, s.w.(passed := s.w.passed + {Pass(a.h.id, a.p, a.h.version)}), a, a.p, Proving(a.h, a.missing));
  }

  lemma LookOrigins(s: State, a: Action)
    requires (a.StopStanding? || a.LookForPredecessor?) && StandbyEnabled(s, a)
    ensures Origins(s, StandbyStep(s, a), a)
  {
    hide Origins, Go, Turn, Misses;
    if a.StopStanding? {
      Goes(s, s.w, a, a.p, Choosing);
    } else {
      GoesOnStanding(s, s.w, a, a.p, Standing(a.h, a.proven, Misses(s.w, a.h, a.missing, a.answered)));
    }
  }

  lemma AbandonReadOrigins(s: State, a: Action)
    requires a.AbandonRead? && Stood(s, a.p, a.h)
    ensures Origins(s, StandbyStep(s, a), a)
  {
    hide Origins, Go, Turn, SelfOf, Released, StillAbandonable, Stood;
    if a.readable && StillAbandonable(s.w.journal, a.h, SelfOf(s, a.p)) {
      StillHasJournal(s.w.journal, a.h, SelfOf(s, a.p));
      GoesOnStanding(s, s.w, a, a.p, AbandonWriting(s.w.journal.value, a.missing));
    } else {
      GoesOnStanding(s, Released(s.w), a, a.p, Standing(a.h, true, a.missing));
    }
  }

  lemma StillHasJournal(journal: Option<Handover>, h: Handover, self: Cid)
    requires StillAbandonable(journal, h, self)
    ensures journal.Some?
  {
  }

  lemma AbandonWriteOrigins(s: State, a: Action)
    requires a.AbandonWrite? && Stood(s, a.p, a.h)
    ensures Origins(s, StandbyStep(s, a), a)
  {
    hide Origins, Go, Turn, AbandonedRecord, AfterWrite, Released, Stood;
    var after := AfterWrite(s.w, AbandonedRecord(a.h), a.write);
    Enters(s, after, a, a.p, Starting);
    GoesOnStanding(s, Released(after), a, a.p, Standing(a.h, true, a.missing));
  }

  lemma AbandonOrigins(s: State, a: Action)
    requires (a.AbandonLock? || a.AbandonRead? || a.AbandonWrite?) && StandbyEnabled(s, a)
    ensures Origins(s, StandbyStep(s, a), a)
  {
    hide Origins, Go, Turn, CanWrite, Locked, StandbyStep, AbandonedRecord;
    if a.AbandonLock? {
      LockOnStanding(s, a);
    } else if a.AbandonWrite? {
      AbandonWriteOrigins(s, a);
    } else {
      AbandonReadOrigins(s, a);
    }
  }

  lemma LockOnStanding(s: State, a: Action)
    requires a.AbandonLock? && Stood(s, a.p, a.h)
    ensures Origins(s, StandbyStep(s, a), a)
  {
    hide Origins, Go, Turn, Locked, Stood;
    GoesOnStanding(s, Locked(s.w, a.p), a, a.p, Abandoning(a.h, a.missing));
  }

  lemma ProofOrigins(s: State, a: Action)
    requires a.WriteProof? && StandbyEnabled(s, a)
    ensures Origins(s, StandbyStep(s, a), a)
  {
    hide Origins, Go, Turn;
    var proof := Proof(a.h.id, a.p, a.h.version, a.h.agentBinary);
    GoesOnStanding(s, if a.write.Lost? then s.w
                      else s.w.(proof := Some(proof)), a, a.p, Standing(a.h, a.write.Reported?, a.missing));
  }

  /** A process sets out to end what it found, or has nothing to end. */
  lemma FindOrigins(s: State, a: Action)
    requires a.AbortFind? && AbortEnabled(s, a)
    ensures Origins(s, AbortStep(s, a), a)
  {
    hide Origins, UnmistakablySuccessor, Others, Go, Grounds, Watched, Judged, ReadBack, ReadLast, Stood, MadeIt;
    EndedOthers(s, "");
    AbortOrWait(s, a, a.p, AbortNext(a.h, AbortTarget(a.h, a.known, a.found), a.reason));
    GoOrigins(s, s, a, a.p, Primary(AbortNext(a.h, AbortTarget(a.h, a.known, a.found), a.reason)));
  }

  /** Having stopped a container, it goes on to remove the same. */
  lemma EndOrigins(s: State, a: Action)
    requires a.AbortStop? && AbortEnabled(s, a)
    ensures Origins(s, AbortStep(s, a), a)
  {
    hide Origins, Others, Go, Stopped, Grounds, Watched;
    EndedOthers(s, a.target);
    AbortOrWait(s, a, a.p, AbortRemoving(a.h, a.target, a.reason));
    GoOrigins(s, if a.effect then Stopped(s, a.target) else s, a, a.p,
              Primary(AbortRemoving(a.h, a.target, a.reason)));
  }

  /** Having removed it, it goes on to write the reason it set out with. */
  lemma RemoveOrigins(s: State, a: Action)
    requires a.AbortRemove? && AbortEnabled(s, a)
    ensures Origins(s, AbortStep(s, a), a)
  {
    hide Origins, Others, Go, Removed, Grounds, Watched;
    EndedOthers(s, a.target);
    AbortOrWait(s, a, a.p, AbortWriting(a.h, a.reason));
    GoOrigins(s, if a.effect then Removed(s, a.target) else s, a, a.p, Primary(AbortWriting(a.h, a.reason)));
  }

  lemma AbortOrigins(s: State, a: Action)
    requires AbortEnabled(s, a)
    ensures Origins(s, AbortStep(s, a), a)
  {
    hide Origins, Go, Turn, Enter, CanWrite, AbortedRecord, AfterWrite, AbortTarget, AbortNext, UnmistakablySuccessor,
         Stopped, Removed, AtStage;
    if a.AbortFind? {
      FindOrigins(s, a);
    } else if a.AbortStop? {
      EndOrigins(s, a);
    } else if a.AbortRemove? {
      RemoveOrigins(s, a);
    } else if a.AbortWrite? {
      Enters(s, AfterWrite(s.w, AbortedRecord(a.h, a.reason, s.w.now), a.write), a, a.p, Idle);
    }
  }

  /** What a primary finds in the journal it aborts for the reason it finds there, or goes elsewhere. */
  lemma ReconcileStageIs(journal: Option<Handover>, self: Cid, stage: Stage)
    requires stage == ReconcileStage(journal, self)
    ensures Plain(stage)
            || (journal.Some?
                && var j := journal.value;
                   stage == AbortFinding(j, "", true, if j.predecessor == self then "interrupted"
                                                      else "another updater holds the lock"))
  {
    hide ClassifyRole;
  }

  lemma ReconcileReadOrigins(s: State, a: Action)
    requires a.ReconcileRead?
    ensures Origins(s, ReconcileStep(s, a), a)
  {
    hide Origins, Go, Enter, ReconcileStage, SelfOf, Plain;
    var stage := ReconcileStage(Reading(s.w, a.readable), SelfOf(s, a.p));
    ReconcileStageIs(Reading(s.w, a.readable), SelfOf(s, a.p), stage);
    if Plain(stage) {
      Enters(s, s.w, a, a.p, stage);
    } else {
      EntersAbort(s, s.w, a, a.p, stage.h, true, stage.reason);
    }
  }

  lemma BeginRunOrigins(s: State, a: Action, p: Cid)
    ensures Origins(s, Enter(Beating(s, p, true), p, Reconciling), a)
            && Origins(s, Enter(Beating(s, p, false), p, Joined), a)
  {
    hide Origins, Origin, Go, Beating, Others;
    EndedOthers(s, p);
    GoesElsewhere(s, Beating(s, p, true), a, p, Primary(Reconciling));
    GoesElsewhere(s, Beating(s, p, false), a, p, Primary(Joined));
  }

  lemma FinishOrigins(s: State, a: Action)
    requires a.FinishCheck? || a.FinishStop? || a.FinishConfirm?
    ensures Origins(s, ReconcileStep(s, a), a)
  {
    hide Origins, Go, Enter, Stopped, UpIn;
    if a.FinishCheck? {
      Enters(s, s.w, a, a.p,
             if !a.answered then Idle else if a.h.predecessor in s.w.boxes then FinishStopping(a.h)
             else FinishWriting(a.h));
    } else if a.FinishStop? {
      EntersEnding(s, a, a.p, a.h.predecessor, a.effect, if a.confirmed then FinishConfirming(a.h) else Idle);
    } else {
      Enters(s, s.w, a, a.p, if a.answered && !UpIn(s.w, a.h.predecessor) then FinishWriting(a.h) else Idle);
    }
  }

  lemma ReconcileOrigins(s: State, a: Action)
    requires ReconcileEnabled(s, a)
    ensures Origins(s, ReconcileStep(s, a), a)
  {
    hide Origins, Go, Turn, Enter, CanWrite, CompletedRecord, SupersededRecord, AfterWrite, Stopped, Beating,
         ReconcileStage, AtStage, SelfOf, UpIn, Reading;
    if a.FinishCheck? || a.FinishStop? || a.FinishConfirm? {
      FinishOrigins(s, a);
    } else if a.BeginRun? {
      BeginRunOrigins(s, a, a.p);
    } else if a.BeginReconcile? {
      Enters(s, s.w, a, a.p, Reconciling);
    } else if a.ReconcileRead? {
      ReconcileReadOrigins(s, a);
    } else {
      Enters(s, AfterWrite(s.w, if a.FinishWrite? then CompletedRecord(a.h) else SupersededRecord(a.h), a.write), a,
             a.p, Idle);
    }
  }

  lemma RenameOrigins(s: State, a: Action)
    requires a.TidyRename?
    ensures Origins(s, TidyStep(s, a), a)
  {
    hide Origins, Renamed;
    WorldOrigins(s, TidyStep(s, a), a);
  }

  lemma TidyOrigins(s: State, a: Action)
    requires TidyEnabled(s, a)
    ensures Origins(s, TidyStep(s, a), a)
  {
    hide Origins, Go, Turn, Enter, Stopped, Removed, Renamed, Leftovers, Terminal, AtStage;
    if a.TidyRename? {
      RenameOrigins(s, a);
    } else if a.BeginTidy? {
      Enters(s, s.w, a, a.p, Tidying(a.j, Leftovers(a.j, a.p)));
    } else if a.TidyNext? {
      Enters(s, s.w, a, a.p, if a.act && a.target in s.w.boxes then TidyStopping(a.j, a.target, a.rest)
                             else Tidying(a.j, a.rest));
    } else if a.TidyStop? {
      EntersEnding(s, a, a.p, a.target, a.effect, TidyRemoving(a.j, a.target, a.rest));
    } else if a.TidyRemove? {
      EntersEnding(s, a, a.p, a.target, a.effect, Tidying(a.j, a.rest));
    } else if a.EndTidy? {
      Enters(s, s.w, a, a.p, Idle);
    }
  }

  lemma CreateOrigins(s: State, a: Action)
    requires a.CreateSuccessor?
    ensures Origins(s, FollowStep(s, a), a)
  {
    hide Origins, Turn, Made;
    var v := if a.effect then Made(s.w, a.c, a.build, Box(a.h.successorName, false, false)) else s.w;
    if a.confirmed {
      EntersRecording(s, v, a);
    } else {
      EntersAbort(s, v, a, a.p, a.h, true, "successor could not be created");
    }
  }

  lemma EntersRecording(s: State, v: World, a: Action)
    requires a.CreateSuccessor? && a.confirmed
    ensures Origins(s, Turn(s, v, a.p, Primary(RecordingSuccessor(a.h, a.c))), a)
  {
    hide Origins, Go, Others, Stood, At, Found, Judged, ReadBack, ReadLast, Grounds, Watched;
    WorldOthers(s, v);
    AbortOrWait(s, a, a.p, RecordingSuccessor(a.h, a.c));
    GoOrigins(s, s.(w := v), a, a.p, Primary(RecordingSuccessor(a.h, a.c)));
  }

  lemma WorldOthers(s: State, v: World)
    ensures Others(s, s.(w := v))
  {
  }

  lemma StartOrigins(s: State, a: Action)
    requires a.StartSuccessor?
    ensures Origins(s, FollowStep(s, a), a)
  {
    hide Origins, Turn, Started;
    var v := if a.effect then Started(s.w, a.h.successor) else s.w;
    if a.confirmed {
      Enters(s, v, a, a.p, WaitSlotFirst(a.h, false));
    } else {
      EntersAbort(s, v, a, a.p, a.h, false, "successor could not be started");
    }
  }

  lemma RecordOrigins(s: State, a: Action)
    requires a.WriteCreated? && AtStage(s, a.p, RecordingSuccessor(a.h, a.c))
    ensures Origins(s, FollowStep(s, a), a)
  {
    hide Origins, Go, CreatedRecord, AfterWrite, Others, Found, Judged, ReadBack, ReadLast, Watched;
    var v := AfterWrite(s.w, CreatedRecord(a.h, a.c), a.write);
    if a.write.Reported? {
      Enters(s, v, a, a.p, Verifying(CreatedRecord(a.h, a.c)));
    } else {
      WorldOthers(s, v);
      AbortOrWait(s, a, a.p, AbortFinding(a.h, a.c, true, "successor could not be recorded"));
      GoOrigins(s, s.(w := v), a, a.p, Primary(AbortFinding(a.h, a.c, true, "successor could not be recorded")));
    }
  }

  lemma EvaluateOrigins(s: State, a: Action)
    requires a.Evaluate? && Eligible(s.w, a.p, a.digest, a.h)
    ensures Origins(s, FollowStep(s, a), a)
  {
    hide Origins, Go, Others, At, Stood, Found, MadeIt, Eligible, Grounds, Watched;
    EndedOthers(s, "");
    AbortOrWait(s, a, a.p, Evaluated(a.h));
    GoOrigins(s, s, a, a.p, Primary(Evaluated(a.h)));
  }

  lemma VerifyOrigins(s: State, a: Action)
    requires a.VerifySuccessor? && IsWhatWasCreated(s.w, a.h)
    ensures Origins(s, FollowStep(s, a), a)
  {
    hide Origins, Go, Others, At, Stood, Found, MadeIt, IsWhatWasCreated, Grounds, Watched;
    EndedOthers(s, "");
    AbortOrWait(s, a, a.p, StartingSuccessor(a.h));
    GoOrigins(s, s, a, a.p, Primary(StartingSuccessor(a.h)));
  }

  lemma FollowOrigins(s: State, a: Action)
    requires FollowEnabled(s, a)
    ensures Origins(s, FollowStep(s, a), a)
  {
    hide Origins, Go, Turn, Enter, CanWrite, CreatedRecord, AfterWrite, Eligible, Made, Started, IsWhatWasCreated,
         MayGiveUp, SlotIsIdle, AtStage;
    if a.ReadSlot? {
      Enters(s, s.w, a, a.p, SlotFoundIdle(s.w.slot));
    } else if a.Evaluate? {
      EvaluateOrigins(s, a);
    } else if a.Refuse? {
      Enters(s, s.w, a, a.p, Idle);
    } else if a.VerifySuccessor? {
      VerifyOrigins(s, a);
    } else if a.GiveUp? {
      EntersAbort(s, s.w, a, a.p, a.h, false, a.reason);
    } else if a.WriteCreated? {
      RecordOrigins(s, a);
    } else if a.StartSuccessor? {
      StartOrigins(s, a);
    } else if a.WritePrepared? {
      Enters(s, AfterWrite(s.w, a.h, a.write), a, a.p, if a.write.Reported? then CreatingSuccessor(a.h) else Idle);
    } else {
      CreateOrigins(s, a);
    }
  }

  lemma CommitsNext(s: State, a: Action)
    requires a.ReadSlotLast? && s.w.slot == a.h.requestDigest && AtStage(s, a.p, WaitSlotLast(a.h, true, true, true))
    ensures Origins(s, Enter(s, a.p, Committing(a.h, s.w.slot)), a)
  {
    hide Origins, Go, Others, Stood, Aborting, Reasoned;
    EndedOthers(s, "");
    AbortOrWait(s, a, a.p, Committing(a.h, s.w.slot));
    GoOrigins(s, s, a, a.p, Primary(Committing(a.h, s.w.slot)));
  }

  lemma ReadSlotLastOrigins(s: State, a: Action)
    requires a.ReadSlotLast? && WaitEnabled(s, a)
    ensures Origins(s, WaitStep(s, a), a)
  {
    hide Origins, Go, Enter;
    if RequestChanged(s.w, a.h, a.readable) {
      EntersAbort(s, s.w, a, a.p, a.h, false, PREEMPTED);
    } else if a.proven && a.up && a.same && a.stable {
      CommitsNext(s, a);
    } else {
      EntersWait(s, a, a.p, WaitSlotFirst(a.h, a.proven));
    }
  }

  lemma CommitOrigins(s: State, a: Action)
    requires a.WriteCommitted?
    ensures Origins(s, WaitStep(s, a), a)
  {
    hide Origins, Go, Turn, AfterCommit;
    if a.write.Reported? {
      Enters(s, AfterCommit(s.w, a.h, a.read, a.write), a, a.p, Leaving);
    } else {
      EntersAbort(s, AfterCommit(s.w, a.h, a.read, a.write), a, a.p, a.h, false, "the commit could not be recorded");
    }
  }

  lemma InspectSuccessorOrigins(s: State, a: Action)
    requires a.InspectSuccessor? && WaitEnabled(s, a)
    ensures Origins(s, WaitStep(s, a), a)
  {
    hide Origins, Go, Enter, UpIn;
    if a.answered && a.h.successor !in s.w.boxes {
      EntersAbort(s, s.w, a, a.p, a.h, false, "successor disappeared");
    } else {
      EntersWait(s, a, a.p, WaitAgent(a.h, a.proven, a.answered && UpIn(s.w, a.h.successor)));
    }
  }

  lemma InspectAgentOrigins(s: State, a: Action)
    requires a.InspectAgent? && WaitEnabled(s, a)
    ensures Origins(s, WaitStep(s, a), a)
  {
    hide Origins, Go, Enter;
    if a.answered && !SameAgent(s.w, a.h) {
      EntersAbort(s, s.w, a, a.p, a.h, false, "the agent was replaced");
    } else {
      EntersWait(s, a, a.p, WaitProof(a.h, a.proven, a.up, a.answered));
    }
  }

  lemma ReadSlotFirstOrigins(s: State, a: Action)
    requires a.ReadSlotFirst? && WaitEnabled(s, a)
    ensures Origins(s, WaitStep(s, a), a)
  {
    hide Origins, Go, Enter, FoundUp, FoundAgent, ProofRead;
    if RequestChanged(s.w, a.h, a.readable) {
      EntersAbort(s, s.w, a, a.p, a.h, false, PREEMPTED);
    } else {
      EntersWait(s, a, a.p, WaitSuccessor(a.h, a.proven));
    }
  }

  lemma ReadProofOrigins(s: State, a: Action)
    requires a.ReadProof? && WaitEnabled(s, a)
    ensures Origins(s, WaitStep(s, a), a)
  {
    hide Origins, Go, Enter, FoundUp, FoundAgent;
    EntersWait(s, a, a.p, WaitSlotLast(a.h, a.proven || s.w.proof == Some(ProofFor(a.h)), a.up, a.same));
  }

  lemma WaitOrigins(s: State, a: Action)
    requires WaitEnabled(s, a)
    ensures Origins(s, WaitStep(s, a), a)
  {
    hide Origins, Go, Turn, Enter, CanWrite, Beating, AfterCommit, ProofFor, AtStage, Released;
    if a.ReadSlotLast? {
      ReadSlotLastOrigins(s, a);
    } else if a.WriteCommitted? {
      CommitOrigins(s, a);
    } else if a.JoinHeartbeat? {
      BeginRunOrigins(s, a, a.p);
    } else if a.ReleaseLock? {
      Goes(s, Released(s.w), a, a.p, Choosing);
    } else if a.InspectSuccessor? {
      InspectSuccessorOrigins(s, a);
    } else if a.InspectAgent? {
      InspectAgentOrigins(s, a);
    } else if a.ReadSlotFirst? {
      ReadSlotFirstOrigins(s, a);
    } else {
      ReadProofOrigins(s, a);
    }
  }

  lemma StepOrigins(cfg: Config, s: State, t: State, a: Action)
    requires Follows(cfg, s, t, a)
    ensures Origins(s, t, a)
  {
    hide EnvironmentEnabled, EnvironmentStep, ServeEnabled, ServeStep, RetiredEnabled, RetiredStep, StandbyEnabled,
         StandbyStep, AbortEnabled, AbortStep, ReconcileEnabled, ReconcileStep, TidyEnabled, TidyStep, FollowEnabled,
         FollowStep, WaitEnabled, WaitStep, Origins;
    if EnvironmentEnabled(cfg, s, a) { EnvironmentOrigins(cfg, s, a); }
    if ServeEnabled(cfg, s, a) { ServeOrigins(cfg, s, a); }
    if RetiredEnabled(s, a) { RetiredOrigins(s, a); }
    if StandbyEnabled(s, a) { StandbyOrigins(s, a); }
    if AbortEnabled(s, a) { AbortOrigins(s, a); }
    if ReconcileEnabled(s, a) { ReconcileOrigins(s, a); }
    if TidyEnabled(s, a) { TidyOrigins(s, a); }
    if FollowEnabled(s, a) { FollowOrigins(s, a); }
    if WaitEnabled(s, a) { WaitOrigins(s, a); }
  }
}
