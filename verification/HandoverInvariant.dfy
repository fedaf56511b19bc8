/**
  * What every state of every run of the handover keeps: about what is shared
  * (WorldOk) and about what each process remembers and may do (ProcOk).
  */
module HandoverInvariant {
  import opened Wrappers
  import opened VersionOrder
  import opened HandoverJournal
  import opened HandoverModel

  // -------------------------------------------------------------- what is shared

  predicate Builds(w: World, c: Cid, image: string, version: string) {
    c in w.ever && w.ever[c] == Build(image, version)
  }

  /** The successor of this handover passed every standby check, as a build of the image and version it is about. */
  predicate ProvenBy(w: World, h: Handover) {
    Pass(h.id, h.successor, h.version) in w.passed && Builds(w, h.successor, h.image, h.version)
  }

  /** The phases that say a successor was proven. */
  predicate CarriesProof(phase: Phase) {
    phase.Committed? || phase.Completed? || phase.Reverted? || phase.Abandoned? || phase.Superseded?
  }

  predicate NamesOk(w: World, h: Handover) {
    && h.predecessor != "" && ValidSuccessor(h)
    && Builds(w, h.predecessor, h.predecessorImage, h.predecessorVersion)
    && (h.successor != "" ==> h.successor in w.ever)
  }

  predicate RecordOk(w: World, h: Handover) {
    && h.id in w.ids && NamesOk(w, h)
    && Newer(h.version, h.predecessorVersion) && h.image != h.predecessorImage
    && SlotIsIdle(h.requestDigest, w.done)
    && (CarriesProof(h.phase) ==> ProvenBy(w, h))
    && (h.phase.Abandoned? ==> h.predecessor !in w.boxes)
  }

  /** What held when the record was written. */
  predicate EntryOk(e: Entry) {
    && (e.record.phase.Aborted? || e.record.phase.Reverted? ==>
          e.record.notBefore == NotBefore(e.record.attempt, e.record.reason, e.at))
    && (e.record.phase.Committed? ==> e.read == e.record.requestDigest)
  }

  ghost predicate LogOk(w: World) {
    && AcceptedRun(w.log) && FreshIds(w.log)
    && w.journal == RecordBefore(w.log, |w.log|)
    && (forall i :: 0 <= i < |w.log| ==> RecordOk(w, w.log[i].record))
    && (forall i :: 0 <= i < |w.log| ==> EntryOk(w.log[i]))
  }

  ghost predicate PassesOk(w: World) {
    && (forall x :: x in w.passed ==> x.successor in w.ever && w.ever[x.successor].version == x.version)
    && (w.proof.Some? ==> Pass(w.proof.value.handover, w.proof.value.successor, w.proof.value.version) in w.passed)
  }

  /** A container some record retired is gone, or the journal still says it is retired. */
  ghost predicate RetiredOk(w: World) {
    forall i, c :: 0 <= i < |w.log| && c in RetiredBy(w.log[i].record) && c in w.boxes ==>
      w.journal.Some? && c in RetiredBy(w.journal.value)
  }

  predicate IsStarted(w: World, c: Cid) {
    c in w.boxes && w.boxes[c].started
  }

  /** Where the lock may fail, only the containers of the journal's handover were ever started. */
  ghost predicate SoloOk(cfg: Config, w: World) {
    !cfg.flockWorks ==>
      forall c :: IsStarted(w, c) ==>
        if w.journal.None? then c == cfg.root else c == w.journal.value.predecessor || c == w.journal.value.successor
  }

  /** Every container here is an updater's, and the agent's is none of them. */
  predicate BoxesOk(w: World) {
    w.boxes.Keys <= w.ever.Keys && "" !in w.ever && w.agent.id !in w.ever
  }

  ghost predicate WorldOk(cfg: Config, w: World) {
    BoxesOk(w) && LogOk(w) && PassesOk(w) && RetiredOk(w) && SoloOk(cfg, w)
  }

  // ------------------------------------------------------ what a process remembers

  /** The journal leaves this container the primary's role, or left it until the lock is let go. */
  predicate Rightful(journal: Option<Handover>, p: Cid) {
    || journal.None? || RoleOf(journal, p).Candidate?
    || (journal.value.phase.Committed? && journal.value.predecessor == p)
  }

  /** A record some process read earlier: if the journal is still about it, they agree on what a handover keeps. */
  predicate Known(w: World, h: Handover) {
    && h.id in w.ids && h.predecessor in w.ever
    && (w.journal.Some? && w.journal.value.id == h.id ==> Identity(w.journal.value) == Identity(h))
  }

  predicate ProvenStandby(w: World, p: Cid, h: Handover) {
    Pass(h.id, p, h.version) in w.passed && Builds(w, p, h.image, h.version)
  }

  predicate AloneOk(cfg: Config, w: World, p: Cid, resolved: bool, j: Handover) {
    !cfg.flockWorks && w.journal == Some(j) && Terminal(j.phase) && (resolved ==> RoleOf(w.journal, p).Candidate?)
  }

  ghost predicate OnlyStarted(w: World, p: Cid) {
    forall c :: IsStarted(w, c) ==> c == p
  }

  predicate EvaluatedOk(w: World, p: Cid, h: Handover) {
    && NamedAreGone(w, p)
    && h.phase.Prepared? && h.predecessor == p && h.successor == ""
    && Builds(w, p, h.predecessorImage, h.predecessorVersion)
    && Newer(h.version, h.predecessorVersion) && h.image != h.predecessorImage
    && SlotIsIdle(h.requestDigest, w.done)
  }

  /** The journal is this record, of a handover this process is the predecessor of. */
  predicate Leads(w: World, p: Cid, h: Handover, phase: Phase) {
    w.journal == Some(h) && h.phase == phase && h.predecessor == p
  }

  predicate WaitsFor(w: World, p: Cid, h: Handover, proven: bool) {
    && Leads(w, p, h, Created) && h.successor in w.ever && w.ever[h.successor].image == h.image
    && (proven ==> Pass(h.id, h.successor, h.version) in w.passed)
  }

  predicate Finishes(w: World, p: Cid, h: Handover) {
    w.journal == Some(h) && h.phase.Committed? && h.successor == p
  }

  /** No container, or an updater's. */
  predicate Ours(w: World, c: Cid) {
    c == "" || c in w.ever
  }

  /** The predecessor is not what the handover makes: neither the container nor the image. */
  predicate Apart(w: World, h: Handover) {
    h.predecessor in w.ever && w.ever[h.predecessor].image != h.image && h.successor != h.predecessor
  }

  /** What a resolved primary at a stage of its work may rely on. */
  predicate StageOk(w: World, p: Cid, stage: Stage) {
    match stage
    case AbortFinding(h, known, _, _) =>
      && h.successor != p && known != p && known != h.predecessor
      && Ours(w, h.successor) && Ours(w, known) && Apart(w, h)
    case AbortStopping(h, target, _) => h.successor != p && target != p && target != h.predecessor && target in w.ever
    case AbortRemoving(h, target, _) => h.successor != p && target != p && target != h.predecessor && target in w.ever
    case AbortWriting(h, _) => h.successor != p
    case FinishChecking(h) => Finishes(w, p, h)
    case FinishStopping(h) => Finishes(w, p, h)
    case FinishConfirming(h) => Finishes(w, p, h)
    case FinishWriting(h) => Finishes(w, p, h)
    case SupersedeWriting(h) => w.journal == Some(h) && h.phase.Committed? && h.predecessor != p && h.successor != p
    case Tidying(j, todo) => TidiesOthers(w, p, j, todo)
    case TidyStopping(j, target, rest) => LeftBy(w, p, j, target) && TidiesOthers(w, p, j, rest)
    case TidyRemoving(j, target, rest) => LeftBy(w, p, j, target) && TidiesOthers(w, p, j, rest)
    case SlotFoundIdle(digest) => SlotIsIdle(digest, w.done)
    case Evaluated(h) => EvaluatedOk(w, p, h)
    case CreatingSuccessor(h) => Leads(w, p, h, Prepared)
    case RecordingSuccessor(h, c) => Leads(w, p, h, Prepared) && c != p && c != "" && c in w.ever
    case Verifying(h) => Leads(w, p, h, Created)
    case StartingSuccessor(h) => WaitsFor(w, p, h, false)
    case WaitSlotFirst(h, proven) => WaitsFor(w, p, h, proven)
    case WaitSuccessor(h, proven) => WaitsFor(w, p, h, proven)
    case WaitAgent(h, proven, _) => WaitsFor(w, p, h, proven)
    case WaitProof(h, proven, _, _) => WaitsFor(w, p, h, proven)
    case WaitSlotLast(h, proven, _, _) => WaitsFor(w, p, h, proven)
    case Committing(h, read) => WaitsFor(w, p, h, true) && read == h.requestDigest
    case _ => true
  }

  /** Another updater's container, left by the handover this record names it in. */
  predicate LeftBy(w: World, p: Cid, j: Handover, c: Cid) {
    c != p && c in w.ever && (c == j.predecessor || c == j.successor)
  }

  predicate TidiesOthers(w: World, p: Cid, j: Handover, todo: seq<Cid>) {
    Terminal(j.phase) && forall c :: c in todo ==> LeftBy(w, p, j, c)
  }

  /** The stages every primary passes through, whether or not it proved its own container. */
  predicate Unconcerned(stage: Stage) {
    stage.Starting? || stage.Reconciling? || stage.Idle? || stage.Leaving? || stage.Joined?
  }

  ghost predicate Remembers(cfg: Config, w: World, p: Cid, proc: Proc) {
    match proc.pc
    case AloneReading => !cfg.flockWorks
    case AlonePredecessor(j) => AloneOk(cfg, w, p, proc.resolved, j)
    case AloneSuccessor(j) =>
      AloneOk(cfg, w, p, proc.resolved, j) && ((proc.resolved && j.predecessor == p) || j.predecessor !in w.boxes)
    case Unlocked => !cfg.flockWorks && OnlyStarted(w, p)
    case ReclaimWriting(h) => proc.resolved && Leads(w, p, h, Committed)
    case ReclaimStopping(h) => proc.resolved && h.successor != p && h.successor in w.ever && Rightful(w.journal, p)
    case ReclaimRemoving(h) => proc.resolved && h.successor != p && h.successor in w.ever && Rightful(w.journal, p)
    case Standing(h, proven, missing) =>
      proc.resolved && Known(w, h) && (proven ==> ProvenStandby(w, p, h)) && (missing > 0 ==> h.predecessor !in w.boxes)
    case Proving(h, missing) =>
      proc.resolved && Known(w, h) && ProvenStandby(w, p, h) && (missing > 0 ==> h.predecessor !in w.boxes)
    case Abandoning(h, missing) =>
      proc.resolved && Known(w, h) && ProvenStandby(w, p, h) && h.predecessor !in w.boxes
    case AbandonWriting(h, missing) =>
      && proc.resolved && Known(w, h) && ProvenStandby(w, p, h) && h.predecessor !in w.boxes
      && w.journal == Some(h) && h.phase.Created? && h.successor == p
    case Primary(stage) =>
      if proc.resolved then Rightful(w.journal, p) && StageOk(w, p, stage) else Unconcerned(stage)
    case _ => true
  }

  predicate Beats(pc: Pc) {
    pc.Primary? && !pc.stage.Starting? && !pc.stage.Joined?
  }

  ghost predicate ProcOk(cfg: Config, w: World, p: Cid, proc: Proc) {
    && IsStarted(w, p)
    && (HoldsLock(proc.pc) <==> w.lock == Some(p))
    && (proc.heart ==> Beats(proc.pc))
    && (proc.pc.Unlocked? && proc.resolved ==> Rightful(w.journal, p))
    && Remembers(cfg, w, p, proc)
  }

  ghost predicate ProcsOk(cfg: Config, s: State) {
    && (s.w.lock.Some? ==> s.w.lock.value in s.procs)
    && forall p :: p in s.procs ==> ProcOk(cfg, s.w, p, s.procs[p])
  }

  ghost predicate Inv(cfg: Config, s: State) {
    WorldOk(cfg, s.w) && ProcsOk(cfg, s)
  }

  // ------------------------------------------------- how what is shared may change

  /** What never shrinks, and that a container that is gone stays gone. */
  ghost predicate Grows(w: World, v: World) {
    && w.ids <= v.ids && w.passed <= v.passed && w.done <= v.done
    && (forall c :: c in w.ever ==> c in v.ever && v.ever[c] == w.ever[c])
    && (forall c :: c in w.ever && c !in w.boxes ==> c !in v.boxes)
  }

  /** The journal stays, moves on within its handover, or begins a handover nobody has heard of. */
  predicate JournalMoves(w: World, v: World) {
    || v.journal == w.journal
    || (v.journal.Some? && v.journal.value.id !in w.ids)
    || (v.journal.Some? && w.journal.Some? && Identity(v.journal.value) == Identity(w.journal.value))
  }

  /** A process that relies on the journal as it is. */
  predicate Relies(pc: Pc) {
    HoldsLock(pc) || pc.AlonePredecessor? || pc.AloneSuccessor? || pc.Unlocked?
  }

  /** A change of what is shared that a process p, elsewhere, cannot be upset by. */
  ghost predicate Bears(cfg: Config, w: World, v: World, p: Cid, proc: Proc) {
    && Grows(w, v) && JournalMoves(w, v)
    && (IsStarted(w, p) ==> IsStarted(v, p))
    && (v.lock == Some(p) <==> w.lock == Some(p))
    && (Relies(proc.pc) ==> v.journal == w.journal)
    && (proc.pc.Unlocked? && OnlyStarted(w, p) ==> OnlyStarted(v, p))
  }

  lemma KnownStays(w: World, v: World, h: Handover)
    requires Known(w, h) && Grows(w, v) && JournalMoves(w, v)
    ensures Known(v, h)
  {
  }

  lemma WaitsStays(w: World, v: World, p: Cid, h: Handover, proven: bool)
    requires WaitsFor(w, p, h, proven) && Grows(w, v) && v.journal == w.journal
    ensures WaitsFor(v, p, h, proven)
  {
  }

  lemma NamedStayGone(w: World, v: World, p: Cid)
    requires NamedAreGone(w, p) && Grows(w, v) && v.journal == w.journal
    requires w.journal.Some? ==> NamesOk(w, w.journal.value)
    ensures NamedAreGone(v, p)
  {
  }

  lemma JournalIsOk(w: World)
    requires LogOk(w) && w.journal.Some?
    ensures RecordOk(w, w.journal.value)
  {
    hide RecordOk, EntryOk;
  }

  predicate Waiting(stage: Stage) {
    || stage.StartingSuccessor? || stage.WaitSlotFirst? || stage.WaitSuccessor? || stage.WaitAgent? || stage.WaitProof?
    || stage.WaitSlotLast? || stage.Committing?
  }

  predicate Leading(stage: Stage) {
    stage.SlotFoundIdle? || stage.Evaluated? || stage.CreatingSuccessor? || stage.RecordingSuccessor?
    || stage.Verifying?
  }

  lemma WaitingStays(w: World, v: World, p: Cid, stage: Stage)
    requires Waiting(stage) && StageOk(w, p, stage) && Grows(w, v) && v.journal == w.journal
    ensures StageOk(v, p, stage)
  {
    hide WaitsFor, Grows;
    var proven := if stage.StartingSuccessor? then false else if stage.Committing? then true else stage.proven;
    WaitsStays(w, v, p, stage.h, proven);
  }

  lemma LeadingStays(w: World, v: World, p: Cid, stage: Stage)
    requires Leading(stage) && StageOk(w, p, stage) && Grows(w, v) && v.journal == w.journal && LogOk(w)
    ensures StageOk(v, p, stage)
  {
    hide LogOk, EvaluatedOk;
    if stage.Evaluated? {
      EvaluatedStays(w, v, p, stage.h);
    }
  }

  /** The other stages rely on nothing but the journal and on what is an updater's. */
  lemma SettledStays(w: World, v: World, p: Cid, stage: Stage)
    requires !Waiting(stage) && !Leading(stage) && StageOk(w, p, stage) && v.journal == w.journal && Grows(w, v)
    ensures StageOk(v, p, stage)
  {
    hide WaitsFor, EvaluatedOk, Leads;
  }

  lemma StageStays(w: World, v: World, p: Cid, stage: Stage)
    requires StageOk(w, p, stage) && Grows(w, v) && v.journal == w.journal && LogOk(w)
    ensures StageOk(v, p, stage)
  {
    hide StageOk, Waiting, Leading, Grows, LogOk;
    if Waiting(stage) {
      WaitingStays(w, v, p, stage);
    } else if Leading(stage) {
      LeadingStays(w, v, p, stage);
    } else {
      SettledStays(w, v, p, stage);
    }
  }

  lemma EvaluatedStays(w: World, v: World, p: Cid, h: Handover)
    requires EvaluatedOk(w, p, h) && Grows(w, v) && v.journal == w.journal && LogOk(w)
    ensures EvaluatedOk(v, p, h)
  {
    hide LogOk, NamedAreGone;
    if w.journal.Some? {
      JournalIsOk(w);
    }
    NamedStayGone(w, v, p);
  }

  lemma RemembersStays(cfg: Config, w: World, v: World, p: Cid, proc: Proc)
    requires Remembers(cfg, w, p, proc) && Bears(cfg, w, v, p, proc) && LogOk(w)
    ensures Remembers(cfg, v, p, proc)
  {
    hide LogOk, StageOk, Known, Rightful, JournalMoves, OnlyStarted;
    match proc.pc
    case AloneSuccessor(j) => RecordNamesEver(w);
    case Standing(h, _, _) => KnownStays(w, v, h); KnownPredecessor(w, h);
    case Proving(h, _) => KnownStays(w, v, h); KnownPredecessor(w, h);
    case Abandoning(h, _) => KnownStays(w, v, h); KnownPredecessor(w, h);
    case AbandonWriting(h, _) => KnownStays(w, v, h); KnownPredecessor(w, h);
    case Primary(stage) => if proc.resolved { StageStays(w, v, p, stage); }
    case _ =>
  }

  lemma KnownPredecessor(w: World, h: Handover)
    requires Known(w, h)
    ensures h.predecessor in w.ever
  {
  }

  lemma RecordNamesEver(w: World)
    requires LogOk(w)
    ensures w.journal.Some? ==> w.journal.value.predecessor in w.ever
  {
    if w.journal.Some? {
      hide LogOk;
      JournalIsOk(w);
    }
  }

  /** A process elsewhere stays in order through any change it bears. */
  lemma ProcStays(cfg: Config, w: World, v: World, p: Cid, proc: Proc)
    requires ProcOk(cfg, w, p, proc) && Bears(cfg, w, v, p, proc) && LogOk(w)
    ensures ProcOk(cfg, v, p, proc)
  {
    hide LogOk, Remembers, Rightful, JournalMoves, Grows, OnlyStarted;
    RemembersStays(cfg, w, v, p, proc);
  }
}
