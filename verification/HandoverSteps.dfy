/** Every action of a process keeps the invariant. */
module HandoverSteps {
  import opened Wrappers
  import opened HandoverJournal
  import opened HandoverModel
  import opened HandoverInvariant
  import opened HandoverWorld
  import opened HandoverFrame

  // --------------------------------------------------------------- the primary

  /** What a primary at a stage may rely on. */
  predicate Entitled(w: World, p: Cid, resolved: bool, stage: Stage) {
    if resolved then Rightful(w.journal, p) && StageOk(w, p, stage) else Unconcerned(stage)
  }

  lemma AtStageOk(cfg: Config, s: State, p: Cid, stage: Stage)
    requires Inv(cfg, s) && AtStage(s, p, stage)
    ensures WorldOk(cfg, s.w) && s.w.lock == Some(p) && IsStarted(s.w, p)
    ensures Entitled(s.w, p, s.procs[p].resolved, stage)
  {
    hide WorldOk, StageOk, Rightful;
    assert ProcOk(cfg, s.w, p, s.procs[p]);
  }

  lemma PrimaryOk(cfg: Config, w: World, p: Cid, proc: Proc, stage: Stage)
    requires IsStarted(w, p) && w.lock == Some(p) && Entitled(w, p, proc.resolved, stage)
    requires !stage.Starting? && (stage.Joined? ==> !proc.heart)
    ensures ProcOk(cfg, w, p, proc.(pc := Primary(stage)))
  {
    hide StageOk, Rightful;
  }

  /** A primary goes from one stage to another and changes nothing shared. */
  lemma StageKeeps(cfg: Config, s: State, p: Cid, stage: Stage, next: Stage)
    requires Inv(cfg, s) && AtStage(s, p, stage) && Entitled(s.w, p, s.procs[p].resolved, next)
    requires !next.Starting? && (next.Joined? ==> !s.procs[p].heart)
    ensures Inv(cfg, Enter(s, p, next))
  {
    hide Inv, ProcOk, Entitled, WorldOk, IsStarted;
    AtStageOk(cfg, s, p, stage);
    PrimaryOk(cfg, s.w, p, s.procs[p], next);
    GoKeeps(cfg, s, p, Primary(next));
  }

  /** A resolved primary's record lands. */
  lemma StageLands(cfg: Config, s: State, v: World, p: Cid, stage: Stage, record: Handover, next: Stage)
    requires Inv(cfg, s) && AtStage(s, p, stage) && s.procs[p].resolved
    requires LandedAs(s.w, v, record) && WorldOk(cfg, v) && v.lock == s.w.lock
    requires record.id !in s.w.ids || (s.w.journal.Some? && Identity(record) == Identity(s.w.journal.value))
    requires s.w.journal.Some? ==> !Terminal(s.w.journal.value.phase) || NamedAreGone(s.w, p)
    requires Rightful(v.journal, p) && StageOk(v, p, next) && !next.Starting? && !next.Joined?
    ensures Inv(cfg, Turn(s, v, p, Primary(next)))
  {
    hide Inv, ProcOk, WorldOk, StageOk, Rightful, NamedAreGone, Identity, Landed;
    AtStageOk(cfg, s, p, stage);
    assert IsStarted(v, p) by { LandedBoxes(s.w, v, record); }
    PrimaryOk(cfg, v, p, s.procs[p], next);
    LandKeeps(cfg, s, v, record, p, Primary(next));
  }

  lemma LandedBoxes(w: World, v: World, record: Handover)
    requires LandedAs(w, v, record)
    ensures v.boxes == w.boxes && v.journal == Some(record) && v.ever == w.ever && v.passed == w.passed
            && w.ids <= v.ids
    ensures v.done == w.done && record.id in v.ids
  {
  }

  lemma JustLanded(w: World, record: Handover)
    ensures var v := Landed(w, record, "");
            LandedAs(w, v, record) && v.lock == w.lock && v.journal == Some(record) && v.ever == w.ever
  {
  }

  /** A later record of the handover lands: the journal was unfinished, about the same handover. */
  lemma MoveFollows(cfg: Config, w: World, next: Handover)
    requires WorldOk(cfg, w) && Accepted(w.journal, next, w.now) && !next.phase.Prepared?
    ensures w.journal.Some? && Identity(next) == Identity(w.journal.value) && !Terminal(w.journal.value.phase)
    ensures w.journal.value.id == next.id && w.journal.value.predecessor == next.predecessor
    ensures RecordOk(w, w.journal.value) && ValidSuccessor(next)
    ensures next.successor == w.journal.value.successor || (w.journal.value.phase.Prepared? && next.phase.Created?)
    ensures next.phase in Transitions(w.journal.value.phase)
  {
    hide LogOk, SoloOk, RetiredOk, PassesOk, RecordOk, Identity, Accepted, ValidSuccessor, Transitions;
    FirstIsPrepared(w.journal, next, w.now);
    MoveFacts(w.journal.value, next, w.now);
    SameId(w.journal.value, next);
    JournalIsOk(w);
  }

  lemma FirstIsPrepared(prev: Option<Handover>, next: Handover, now: int)
    requires Accepted(prev, next, now) && !next.phase.Prepared?
    ensures prev.Some?
  {
    hide Valid, NextAttempt;
  }

  // ------------------------------------------------------------------- aborting

  lemma AbortFindKeeps(cfg: Config, s: State, p: Cid, h: Handover, known: Cid, byName: bool, reason: string, found: Cid)
    requires Inv(cfg, s) && AtStage(s, p, AbortFinding(h, known, byName, reason))
    requires found != "" ==> byName && UnmistakablySuccessor(s.w, h, found)
    ensures Inv(cfg, Enter(s, p, AbortNext(h, AbortTarget(h, known, found), reason)))
  {
    hide Inv, WorldOk, Rightful;
    AtStageOk(cfg, s, p, AbortFinding(h, known, byName, reason));
    StageKeeps(cfg, s, p, AbortFinding(h, known, byName, reason), AbortNext(h, AbortTarget(h, known, found), reason));
  }

  lemma AbortWriteKeeps(cfg: Config, s: State, p: Cid, h: Handover, reason: string, write: Write)
    requires Inv(cfg, s) && AtStage(s, p, AbortWriting(h, reason))
             && CanWrite(s.w, AbortedRecord(h, reason, s.w.now), write)
    ensures Inv(cfg, Turn(s, AfterWrite(s.w, AbortedRecord(h, reason, s.w.now), write), p, Primary(Idle)))
  {
    hide Inv, WorldOk, Accepted, NotBefore, Landed, Rightful, LandedAs;
    AtStageOk(cfg, s, p, AbortWriting(h, reason));
    if write.Lost? {
      StageKeeps(cfg, s, p, AbortWriting(h, reason), Idle);
    } else {
      MoveLandsAt(cfg, s, p, AbortWriting(h, reason), AbortedRecord(h, reason, s.w.now), Idle);
    }
  }

  /** Who keeps the role under a record of a handover in progress. */
  predicate KeepsRole(next: Handover, p: Cid) {
    match next.phase
    case Created => next.predecessor == p
    case Committed => next.predecessor == p
    case Completed | Abandoned => next.successor == p
    case Aborted | Reverted => next.successor != p
    case Superseded => next.predecessor != p && next.successor != p
    case Prepared => next.predecessor == p
  }

  lemma KeepsRoleIsRightful(next: Handover, p: Cid)
    requires KeepsRole(next, p) && ValidSuccessor(next) && p != ""
    ensures Rightful(Some(next), p)
  {
  }

  /** A resolved primary records a later phase of the handover in progress. */
  lemma MoveLandsAt(cfg: Config, s: State, p: Cid, stage: Stage, next: Handover, after: Stage)
    requires Inv(cfg, s) && AtStage(s, p, stage) && s.procs[p].resolved
    requires Accepted(s.w.journal, next, s.w.now) && !next.phase.Prepared? && KeepsRole(next, p)
    requires EntryOk(Entry(next, s.w.now, "")) && !next.phase.Abandoned?
    requires next.phase.Created? ==> next.successor != "" && next.successor in s.w.ever
    requires CarriesProof(next.phase) ==> ProvenBy(s.w, next)
    requires StageOk(Landed(s.w, next, ""), p, after) && !after.Starting? && !after.Joined?
    ensures Inv(cfg, Turn(s, Landed(s.w, next, ""), p, Primary(after)))
  {
    hide Inv, WorldOk, Accepted, Landed, Rightful, LandedAs, Identity, RecordOk, NamedAreGone, Transitions, KeepsRole,
         StageOk, EntryOk, ValidSuccessor, ProvenBy, CarriesProof;
    AtStageOk(cfg, s, p, stage);
    MoveFollows(cfg, s.w, next);
    NamedEver(s.w, s.w.journal.value);
    StartedIsNamed(cfg, s, p);
    KeepsRoleIsRightful(next, p);
    MoveLands(cfg, s.w, next, "");
    JustLanded(s.w, next);
    StageLands(cfg, s, Landed(s.w, next, ""), p, stage, next, after);
  }

  lemma NamedEver(w: World, h: Handover)
    requires RecordOk(w, h)
    ensures h.successor != "" ==> h.successor in w.ever
  {
  }

  lemma StartedIsNamed(cfg: Config, s: State, p: Cid)
    requires Inv(cfg, s) && IsStarted(s.w, p)
    ensures p != ""
  {
    hide LogOk, SoloOk, RetiredOk, PassesOk, ProcsOk;
  }

  /** Ending a container leaves what it was built from known. */
  lemma HaltKeepsBuilds(s: State, c: Cid)
    ensures Stopped(s, c).w.ever == s.w.ever && Removed(s, c).w.ever == s.w.ever
  {
  }

  lemma HaltThenStage(cfg: Config, s: State, t: State, p: Cid, stage: Stage, next: Stage, target: Cid)
    requires Inv(cfg, s) && AtStage(s, p, stage) && Inv(cfg, t) && target != p
    requires t == Stopped(s, target) || t == Removed(s, target)
    requires s.procs[p].resolved && !next.Starting? && !next.Joined?
             && (StageOk(s.w, p, next) ==> StageOk(t.w, p, next)) && StageOk(s.w, p, next)
    ensures Inv(cfg, Enter(t, p, next))
  {
    hide Inv, WorldOk, Rightful, StageOk;
    AtStageOk(cfg, s, p, stage);
    StageKeeps(cfg, t, p, stage, next);
  }

  lemma AbortStopKeeps(cfg: Config, s: State, p: Cid, h: Handover, target: Cid, reason: string, effect: bool)
    requires Inv(cfg, s) && AtStage(s, p, AbortStopping(h, target, reason))
    ensures Inv(cfg, Enter(if effect then Stopped(s, target) else s, p, AbortRemoving(h, target, reason)))
  {
    hide Inv, WorldOk, Rightful, Stopped;
    AtStageOk(cfg, s, p, AbortStopping(h, target, reason));
    StoppedKeeps(cfg, s, target);
    HaltKeepsBuilds(s, target);
    if effect {
      HaltThenStage(cfg, s, Stopped(s, target), p, AbortStopping(h, target, reason), AbortRemoving(h, target, reason),
                    target);
    } else {
      StageKeeps(cfg, s, p, AbortStopping(h, target, reason), AbortRemoving(h, target, reason));
    }
  }

  lemma AbortRemoveKeeps(cfg: Config, s: State, p: Cid, h: Handover, target: Cid, reason: string, effect: bool)
    requires Inv(cfg, s) && AtStage(s, p, AbortRemoving(h, target, reason))
    ensures Inv(cfg, Enter(if effect then Removed(s, target) else s, p, AbortWriting(h, reason)))
  {
    hide Inv, WorldOk, Rightful, Removed;
    AtStageOk(cfg, s, p, AbortRemoving(h, target, reason));
    RemovedKeeps(cfg, s, target);
    if effect {
      HaltThenStage(cfg, s, Removed(s, target), p, AbortRemoving(h, target, reason), AbortWriting(h, reason), target);
    } else {
      StageKeeps(cfg, s, p, AbortRemoving(h, target, reason), AbortWriting(h, reason));
    }
  }

  lemma AbortKeeps(cfg: Config, s: State, a: Action)
    requires Inv(cfg, s) && AbortEnabled(s, a)
    ensures Inv(cfg, AbortStep(s, a))
  {
    hide Inv, CanWrite, UnmistakablySuccessor, AtStage, Enter, Turn, Stopped, Removed, AbortNext, AbortTarget,
         AfterWrite, AbortedRecord;
    match a
    case AbortFind(p, h, known, byName, reason, found) => AbortFindKeeps(cfg, s, p, h, known, byName, reason, found);
    case AbortStop(p, h, target, reason, effect) => AbortStopKeeps(cfg, s, p, h, target, reason, effect);
    case AbortRemove(p, h, target, reason, effect) => AbortRemoveKeeps(cfg, s, p, h, target, reason, effect);
    case AbortWrite(p, h, reason, write) => AbortWriteKeeps(cfg, s, p, h, reason, write);
    case _ =>
  }
}
