/**
  * The primary's own actions keep the invariant: reconciling, tidying, following the agent and
  * waiting for a successor.
  */
module HandoverPrimary {
  import opened Wrappers
  import opened VersionOrder
  import opened HandoverJournal
  import opened HandoverModel
  import opened HandoverInvariant
  import opened HandoverFrame
  import opened HandoverSteps

  // ------------------------------------------------------------------ reconciling

  /** The heartbeat begins or ends as the primary goes from one stage to the next. */
  lemma BeatKeeps(cfg: Config, s: State, p: Cid, stage: Stage, next: Stage, beating: bool)
    requires Inv(cfg, s) && AtStage(s, p, stage) && Unconcerned(next) && !next.Starting? && (next.Joined? ==> !beating)
    ensures Inv(cfg, Enter(Beating(s, p, beating), p, next))
  {
    hide Inv, WorldOk, Rightful, ProcOk, Enter, Beating;
    AtStageOk(cfg, s, p, stage);
    var proc := s.procs[p].(heart := beating, pc := Primary(next));
    PrimaryOk(cfg, s.w, p, s.procs[p].(heart := beating), next);
    LocalKeeps(cfg, s, p, proc);
    BeatIsLocal(s, p, next, beating);
  }

  lemma BeatIsLocal(s: State, p: Cid, next: Stage, beating: bool)
    requires p in s.procs
    ensures Enter(Beating(s, p, beating), p,
                  next) == s.(procs := s.procs[p := s.procs[p].(heart := beating, pc := Primary(next))])
  {
    var proc := s.procs[p].(heart := beating, pc := Primary(next));
    assert Enter(Beating(s, p, beating), p, next).procs == s.procs[p := proc];
  }

  /** A primary goes on to a stage that asks for nothing. */
  lemma PlainKeeps(cfg: Config, s: State, p: Cid, stage: Stage, next: Stage)
    requires Inv(cfg, s) && AtStage(s, p, stage) && (next.Idle? || next.Reconciling?)
    ensures Inv(cfg, Enter(s, p, next))
  {
    hide Inv, WorldOk, Rightful;
    AtStageOk(cfg, s, p, stage);
    StageKeeps(cfg, s, p, stage, next);
  }

  lemma ReconcileStageOk(w: World, p: Cid, resolved: bool, readable: bool)
    requires w.journal.Some? ==> NamesOk(w, w.journal.value) && Apart(w, w.journal.value)
    requires p != "" && Entitled(w, p, resolved, Reconciling)
    ensures Entitled(w, p, resolved, ReconcileStage(Reading(w, readable), if resolved then p else ""))
    ensures !ReconcileStage(Reading(w, readable), if resolved then p else "").Starting?
    ensures !ReconcileStage(Reading(w, readable), if resolved then p else "").Joined?
  {
    hide Rightful;
  }

  lemma ReconcileReadKeeps(cfg: Config, s: State, p: Cid, readable: bool)
    requires Inv(cfg, s) && AtStage(s, p, Reconciling)
    ensures Inv(cfg, Enter(s, p, ReconcileStage(Reading(s.w, readable), SelfOf(s, p))))
  {
    hide Inv, WorldOk, Entitled, ReconcileStage, RecordOk, NamesOk;
    AtStageOk(cfg, s, p, Reconciling);
    StartedIsNamed(cfg, s, p);
    JournalNames(cfg, s.w);
    if s.w.journal.Some? { RecordIsApart(s.w, s.w.journal.value); }
    ReconcileStageOk(s.w, p, s.procs[p].resolved, readable);
    StageKeeps(cfg, s, p, Reconciling, ReconcileStage(Reading(s.w, readable), SelfOf(s, p)));
  }

  lemma FinishCheckKeeps(cfg: Config, s: State, p: Cid, h: Handover, answered: bool)
    requires Inv(cfg, s) && AtStage(s, p, FinishChecking(h))
    ensures Inv(cfg, Enter(s, p, if !answered then Idle else if h.predecessor in s.w.boxes then FinishStopping(h)
                                 else FinishWriting(h)))
  {
    hide Inv, WorldOk, Rightful;
    AtStageOk(cfg, s, p, FinishChecking(h));
    StageKeeps(cfg, s, p, FinishChecking(h),
               if !answered then Idle else if h.predecessor in s.w.boxes then FinishStopping(h) else FinishWriting(h));
  }

  lemma FinishStopKeeps(cfg: Config, s: State, p: Cid, h: Handover, effect: bool, confirmed: bool)
    requires Inv(cfg, s) && AtStage(s, p, FinishStopping(h))
    ensures Inv(cfg, Enter(if effect then Stopped(s, h.predecessor) else s, p, if confirmed then FinishConfirming(h)
                           else Idle))
  {
    hide Inv, WorldOk, Rightful, Stopped, RecordOk, Builds;
    AtStageOk(cfg, s, p, FinishStopping(h));
    JournalNames(cfg, s.w);
    assert StageOk(s.w, p, FinishStopping(h)) && StageOk(Stopped(s, h.predecessor).w, p, FinishConfirming(h)) by {
      StoppedJournal(s, h.predecessor);
    }
    var next := if confirmed then FinishConfirming(h) else Idle;
    if effect {
      StoppedKeeps(cfg, s, h.predecessor);
      HaltThenStage(cfg, s, Stopped(s, h.predecessor), p, FinishStopping(h), next, h.predecessor);
    } else {
      StageKeeps(cfg, s, p, FinishStopping(h), next);
    }
  }

  lemma StoppedJournal(s: State, c: Cid)
    ensures Stopped(s, c).w.journal == s.w.journal
  {
  }

  lemma JournalNames(cfg: Config, w: World)
    requires WorldOk(cfg, w)
    ensures w.journal.Some? ==> NamesOk(w, w.journal.value) && RecordOk(w, w.journal.value)
  {
    hide LogOk, SoloOk, RetiredOk, PassesOk, NamesOk;
    if w.journal.Some? {
      JournalIsOk(w);
    }
  }

  lemma RecordIsApart(w: World, h: Handover)
    requires RecordOk(w, h)
    ensures Apart(w, h)
  {
    hide Newer, SlotIsIdle, ProvenBy;
  }

  lemma FinishConfirmKeeps(cfg: Config, s: State, p: Cid, h: Handover, answered: bool)
    requires Inv(cfg, s) && AtStage(s, p, FinishConfirming(h))
    ensures Inv(cfg, Enter(s, p, if answered && !UpIn(s.w, h.predecessor) then FinishWriting(h) else Idle))
  {
    hide Inv, WorldOk, Rightful;
    AtStageOk(cfg, s, p, FinishConfirming(h));
    StageKeeps(cfg, s, p, FinishConfirming(h), if answered
               && !UpIn(s.w, h.predecessor) then FinishWriting(h) else Idle);
  }

  /** A record after the commit carries on what the commit proved. */
  lemma CommitWasProven(cfg: Config, w: World, h: Handover, next: Handover)
    requires WorldOk(cfg, w) && w.journal == Some(h) && h.phase.Committed?
    requires next == h.(phase := next.phase, reason := next.reason, notBefore := next.notBefore)
    ensures ProvenBy(w, next)
  {
    JournalNames(cfg, w);
    hide WorldOk, NamesOk, Newer;
  }

  lemma FinishWriteKeeps(cfg: Config, s: State, p: Cid, h: Handover, write: Write)
    requires Inv(cfg, s) && AtStage(s, p, FinishWriting(h)) && CanWrite(s.w, CompletedRecord(h), write)
    ensures Inv(cfg, Turn(s, AfterWrite(s.w, CompletedRecord(h), write), p, Primary(Idle)))
  {
    hide Inv, WorldOk, Rightful, Accepted, Landed, ProvenBy;
    AtStageOk(cfg, s, p, FinishWriting(h));
    if write.Lost? {
      StageKeeps(cfg, s, p, FinishWriting(h), Idle);
    } else {
      CommitWasProven(cfg, s.w, h, CompletedRecord(h));
      MoveLandsAt(cfg, s, p, FinishWriting(h), CompletedRecord(h), Idle);
    }
  }

  lemma SupersedeWriteKeeps(cfg: Config, s: State, p: Cid, h: Handover, write: Write)
    requires Inv(cfg, s) && AtStage(s, p, SupersedeWriting(h)) && CanWrite(s.w, SupersededRecord(h), write)
    ensures Inv(cfg, Turn(s, AfterWrite(s.w, SupersededRecord(h), write), p, Primary(Idle)))
  {
    hide Inv, WorldOk, Rightful, Accepted, Landed, ProvenBy;
    AtStageOk(cfg, s, p, SupersedeWriting(h));
    if write.Lost? {
      StageKeeps(cfg, s, p, SupersedeWriting(h), Idle);
    } else {
      CommitWasProven(cfg, s.w, h, SupersededRecord(h));
      MoveLandsAt(cfg, s, p, SupersedeWriting(h), SupersededRecord(h), Idle);
    }
  }

  lemma ReconcileKeeps(cfg: Config, s: State, a: Action)
    requires Inv(cfg, s) && ReconcileEnabled(s, a)
    ensures Inv(cfg, ReconcileStep(s, a))
  {
    hide Inv, CanWrite, Stopped, ReconcileStage, Enter, Turn, AtStage, AfterWrite, CompletedRecord, SupersededRecord,
         UpIn, Reading, SelfOf, Beating;
    if a.BeginRun? {
      BeatKeeps(cfg, s, a.p, Starting, Reconciling, true);
    } else if a.BeginReconcile? {
      PlainKeeps(cfg, s, a.p, Idle, Reconciling);
    } else if a.ReconcileRead? {
      ReconcileReadKeeps(cfg, s, a.p, a.readable);
    } else if a.FinishCheck? {
      FinishCheckKeeps(cfg, s, a.p, a.h, a.answered);
    } else if a.FinishStop? {
      FinishStopKeeps(cfg, s, a.p, a.h, a.effect, a.confirmed);
    } else if a.FinishConfirm? {
      FinishConfirmKeeps(cfg, s, a.p, a.h, a.answered);
    } else if a.FinishWrite? {
      FinishWriteKeeps(cfg, s, a.p, a.h, a.write);
    } else if a.SupersedeWrite? {
      SupersedeWriteKeeps(cfg, s, a.p, a.h, a.write);
    }
  }

  // ---------------------------------------------------------------------- tidying

  lemma BeginTidyKeeps(cfg: Config, s: State, p: Cid, j: Handover)
    requires Inv(cfg, s) && AtStage(s, p, Idle) && s.procs[p].resolved && s.w.journal == Some(j) && Terminal(j.phase)
    ensures Inv(cfg, Enter(s, p, Tidying(j, Leftovers(j, p))))
  {
    hide Inv, WorldOk, Rightful, RecordOk;
    AtStageOk(cfg, s, p, Idle);
    JournalNames(cfg, s.w);
    StageKeeps(cfg, s, p, Idle, Tidying(j, Leftovers(j, p)));
  }

  lemma TidyNextKeeps(cfg: Config, s: State, p: Cid, j: Handover, target: Cid, rest: seq<Cid>, act: bool)
    requires Inv(cfg, s) && AtStage(s, p, Tidying(j, [target] + rest))
    ensures Inv(cfg, Enter(s, p, if act
                           && target in s.w.boxes then TidyStopping(j, target, rest) else Tidying(j, rest)))
  {
    hide Inv, WorldOk, Rightful;
    AtStageOk(cfg, s, p, Tidying(j, [target] + rest));
    assert target in [target] + rest && forall c :: c in rest ==> c in [target] + rest;
    StageKeeps(cfg, s, p, Tidying(j, [target] + rest),
               if act && target in s.w.boxes then TidyStopping(j, target, rest) else Tidying(j, rest));
  }

  lemma TidyStopKeeps(cfg: Config, s: State, p: Cid, j: Handover, target: Cid, rest: seq<Cid>, effect: bool)
    requires Inv(cfg, s) && AtStage(s, p, TidyStopping(j, target, rest))
    ensures Inv(cfg, Enter(if effect then Stopped(s, target) else s, p, TidyRemoving(j, target, rest)))
  {
    hide Inv, WorldOk, Rightful, Stopped;
    AtStageOk(cfg, s, p, TidyStopping(j, target, rest));
    if effect {
      StoppedKeeps(cfg, s, target);
      HaltKeepsBuilds(s, target);
      HaltThenStage(cfg, s, Stopped(s, target), p, TidyStopping(j, target, rest), TidyRemoving(j, target, rest),
                    target);
    } else {
      StageKeeps(cfg, s, p, TidyStopping(j, target, rest), TidyRemoving(j, target, rest));
    }
  }

  lemma TidyRemoveKeeps(cfg: Config, s: State, p: Cid, j: Handover, target: Cid, rest: seq<Cid>, effect: bool)
    requires Inv(cfg, s) && AtStage(s, p, TidyRemoving(j, target, rest))
    ensures Inv(cfg, Enter(if effect then Removed(s, target) else s, p, Tidying(j, rest)))
  {
    hide Inv, WorldOk, Rightful, Removed;
    AtStageOk(cfg, s, p, TidyRemoving(j, target, rest));
    if effect {
      RemovedKeeps(cfg, s, target);
      HaltKeepsBuilds(s, target);
      HaltThenStage(cfg, s, Removed(s, target), p, TidyRemoving(j, target, rest), Tidying(j, rest), target);
    } else {
      StageKeeps(cfg, s, p, TidyRemoving(j, target, rest), Tidying(j, rest));
    }
  }

  lemma RenameKeeps(cfg: Config, s: State, target: Cid, name: string, effect: bool)
    requires Inv(cfg, s)
    ensures Inv(cfg, s.(w := if effect then Renamed(s.w, target, name) else s.w))
  {
    hide Inv;
    if effect && target in s.w.boxes {
      RestartKeeps(cfg, s, target, s.w.boxes[target].(name := name));
    } else {
      assert s.(w := s.w) == s;
    }
  }

  lemma TidyKeeps(cfg: Config, s: State, a: Action)
    requires Inv(cfg, s) && TidyEnabled(s, a)
    ensures Inv(cfg, TidyStep(s, a))
  {
    hide Inv, Stopped, Removed, Leftovers, Enter, Turn, AtStage;
    match a
    case BeginTidy(p, j) => BeginTidyKeeps(cfg, s, p, j);
    case TidyNext(p, j, target, rest, act) => TidyNextKeeps(cfg, s, p, j, target, rest, act);
    case TidyStop(p, j, target, rest, effect) => TidyStopKeeps(cfg, s, p, j, target, rest, effect);
    case TidyRemove(p, j, target, rest, effect) => TidyRemoveKeeps(cfg, s, p, j, target, rest, effect);
    case TidyRename(p, j, target, name, effect) =>
      RenameKeeps(cfg, s, target, name, effect);
    case EndTidy(p, j, rest) => PlainKeeps(cfg, s, p, Tidying(j, rest), Idle);
    case _ =>
  }

  // ------------------------------------------------- what is done about a handover

  /** The record a primary ends the journal's handover with. */
  function EndedAs(h: Handover, self: Cid, now: int): Option<Handover> {
    match ReconcileStage(Some(h), self)
    case AbortFinding(g, _, _, reason) => Some(AbortedRecord(g, reason, now))
    case FinishChecking(g) => Some(CompletedRecord(g))
    case SupersedeWriting(g) => Some(SupersededRecord(g))
    case _ => None
  }

  /**
    * Whoever may act on an unfinished handover ends it, with a record the journal takes and under which
    * it may still act: aborted if it was never committed, completed by its successor, superseded by a
    * stranger.
    */
  lemma ReconcileEnds(h: Handover, self: Cid, now: int)
    requires Valid(h) && !Terminal(h.phase) && self != "" && RoleOf(Some(h), self).Candidate? && now >= 0
    ensures EndedAs(h, self, now).Some? && Accepted(Some(h), EndedAs(h, self, now).value, now)
    ensures var phase := EndedAs(h, self, now).value.phase;
            && (phase.Aborted? <==> !h.phase.Committed?)
            && (phase.Completed? <==> h.phase.Committed? && self == h.successor)
            && (phase.Superseded? <==> h.phase.Committed? && self != h.successor)
    ensures RoleOf(Some(EndedAs(h, self, now).value), self).Candidate?
  {
    hide ValidText, Preemption;
    var next := EndedAs(h, self, now).value;
    EndIsValid(h, self, now);
    assert next == Expected(h, next);
  }

  lemma EndIsValid(h: Handover, self: Cid, now: int)
    requires Valid(h) && !Terminal(h.phase) && self != "" && RoleOf(Some(h), self).Candidate? && now >= 0
    ensures EndedAs(h, self, now).Some? && Valid(EndedAs(h, self, now).value)
  {
    hide Valid, Printable, Preemption;
    var reason := if h.predecessor == self then "interrupted" else "another updater holds the lock";
    RoleReasonIsPlain(reason);
    OwnReasonIsPlain(h);
    if h.phase.Committed? {
      EndedIsValid(h, Superseded, "another updater holds the lock", h.notBefore);
      EndedIsValid(h, Completed, h.reason, h.notBefore);
    } else {
      EndedIsValid(h, Aborted, reason, NotBefore(h.attempt, reason, now));
    }
  }

  /** What a role gives as a reason is short and printable, and no pre-emption. */
  lemma RoleReasonIsPlain(reason: string)
    requires reason == "interrupted" || reason == "another updater holds the lock"
             || reason == "successor never took over" || reason == "predecessor removed"
    ensures |reason| <= MAX_REASON && Printable(reason) && !Preemption(reason)
  {
    assert |reason| != |PREEMPTED|;
  }

  lemma OwnReasonIsPlain(h: Handover)
    requires Valid(h) && !Terminal(h.phase)
    ensures |h.reason| <= MAX_REASON && Printable(h.reason) && !Preemption(h.reason) && h.notBefore >= 0
    ensures h.phase.Committed? || h.phase.Created? ==> h.successor != ""
  {
    hide LowerHex, ImageId, ObjectName, ReceiptTaskId, Printable, Preemption;
  }

  lemma EndedIsValid(h: Handover, phase: Phase, reason: string, notBefore: int)
    requires Valid(h) && Terminal(phase) && (phase.Aborted? || h.successor != "") && notBefore >= 0
    requires |reason| <= MAX_REASON && Printable(reason) && !Preemption(reason)
    ensures Valid(h.(phase := phase, reason := reason, notBefore := notBefore))
  {
    hide LowerHex, ImageId, ObjectName, ReceiptTaskId, Printable, Preemption;
  }

  /** What a role may write over a record: exactly the record each move of the protocol asks for. */
  predicate RoleWrites(h: Handover, next: Handover, now: int) {
    match next.phase
    case Created => h.phase.Prepared? && next == CreatedRecord(h, next.successor)
    case Committed => h.phase.Created? && next == CommittedRecord(h)
    case Aborted => (h.phase.Prepared? || h.phase.Created?) && next == AbortedRecord(h, next.reason, now)
    case Abandoned => h.phase.Created? && next == AbandonedRecord(h)
    case Reverted => h.phase.Committed? && next == RevertedRecord(h, now)
    case Completed => h.phase.Committed? && next == CompletedRecord(h)
    case Superseded => h.phase.Committed? && next == SupersededRecord(h)
    case Prepared => false
  }

  /** The journal takes every such record that is well formed, as long as nothing else was written since. */
  lemma RoleRecordsAreTaken(h: Handover, next: Handover, now: int)
    requires Valid(h) && Valid(next) && RoleWrites(h, next, now)
    ensures Accepted(Some(h), next, now)
  {
    hide Valid, NotBefore, NextAttempt;
    OpenHasNoSuccessorYet(h);
    assert next == Expected(h, next);
  }

  lemma OpenHasNoSuccessorYet(h: Handover)
    requires Valid(h)
    ensures h.phase.Prepared? ==> h.successor == ""
  {
    hide ValidText;
  }
}
