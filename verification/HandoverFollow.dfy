/** A predecessor's handover, from the idle request slot to the commit, keeps the invariant. */
module HandoverFollow {
  import opened Wrappers
  import opened VersionOrder
  import opened HandoverJournal
  import opened HandoverModel
  import opened HandoverInvariant
  import opened HandoverWorld
  import opened HandoverFrame
  import opened HandoverSteps
  import opened HandoverPrimary

  // -------------------------------------------------------------------- following

  lemma ReadSlotKeeps(cfg: Config, s: State, p: Cid)
    requires Inv(cfg, s) && AtStage(s, p, Idle) && s.procs[p].resolved && SlotIsIdle(s.w.slot, s.w.done)
    ensures Inv(cfg, Enter(s, p, SlotFoundIdle(s.w.slot)))
  {
    hide Inv, WorldOk, Rightful;
    AtStageOk(cfg, s, p, Idle);
    StageKeeps(cfg, s, p, Idle, SlotFoundIdle(s.w.slot));
  }

  lemma EligibleIsEvaluated(w: World, p: Cid, digest: string, h: Handover)
    requires Eligible(w, p, digest, h) && SlotIsIdle(digest, w.done)
    ensures EvaluatedOk(w, p, h)
  {
    hide Newer, NextAttempt, NamedAreGone;
  }

  lemma EvaluateKeeps(cfg: Config, s: State, p: Cid, digest: string, h: Handover)
    requires Inv(cfg, s) && AtStage(s, p, SlotFoundIdle(digest)) && Eligible(s.w, p, digest, h)
    ensures Inv(cfg, Enter(s, p, Evaluated(h)))
  {
    hide Inv, WorldOk, Rightful, Eligible, EvaluatedOk, SlotIsIdle;
    AtStageOk(cfg, s, p, SlotFoundIdle(digest));
    EligibleIsEvaluated(s.w, p, digest, h);
    StageKeeps(cfg, s, p, SlotFoundIdle(digest), Evaluated(h));
  }

  lemma WritePreparedKeeps(cfg: Config, s: State, p: Cid, h: Handover, write: Write)
    requires Inv(cfg, s) && AtStage(s, p, Evaluated(h)) && CanWrite(s.w, h, write) && (write.Lost? || h.id !in s.w.ids)
    ensures Inv(cfg, Turn(s, AfterWrite(s.w, h, write), p,
                          Primary(if write.Reported? then CreatingSuccessor(h) else Idle)))
  {
    hide Inv, WorldOk, Rightful, Accepted, Landed, EvaluatedOk;
    AtStageOk(cfg, s, p, Evaluated(h));
    if write.Lost? {
      PlainKeeps(cfg, s, p, Evaluated(h), Idle);
    } else {
      hide LandedAs, StageOk;
      PreparedLands(cfg, s, p, h, if write.Reported? then CreatingSuccessor(h) else Idle);
    }
  }

  lemma PreparedLands(cfg: Config, s: State, p: Cid, h: Handover, next: Stage)
    requires Inv(cfg, s) && AtStage(s, p, Evaluated(h)) && Accepted(s.w.journal, h, s.w.now) && h.id !in s.w.ids
    requires next == CreatingSuccessor(h) || next == Idle
    ensures Inv(cfg, Turn(s, Landed(s.w, h, ""), p, Primary(next)))
  {
    hide Inv, WorldOk, Rightful, Accepted, Landed, NamedAreGone, Builds, Newer, SlotIsIdle, LandedAs, IsStarted,
         Identity;
    AtStageOk(cfg, s, p, Evaluated(h));
    BeginLands(cfg, s.w, p, h, "");
    JustLanded(s.w, h);
    PreparedIsRightful(h, p);
    StageLands(cfg, s, Landed(s.w, h, ""), p, Evaluated(h), h, next);
  }

  lemma PreparedIsRightful(h: Handover, p: Cid)
    requires h.phase.Prepared?
    ensures Rightful(Some(h), p)
  {
  }

  lemma CreateSuccessorKeeps(cfg: Config, s: State, p: Cid, h: Handover, c: Cid, build: Build, effect: bool,
                             confirmed: bool)
    requires Inv(cfg, s) && AtStage(s, p, CreatingSuccessor(h)) && c != "" && c !in s.w.ever && c != s.w.agent.id
             && (confirmed ==> effect)
    ensures Inv(cfg, Turn(s, if effect then Made(s.w, c, build, Box(h.successorName, false, false)) else s.w, p,
                          Primary(if confirmed then RecordingSuccessor(h, c)
                                  else AbortFinding(h, "", true, "successor could not be created"))))
  {
    hide Inv, Made;
    var next := if confirmed then RecordingSuccessor(h, c)
                else AbortFinding(h, "", true, "successor could not be created");
    if effect {
      MadeThenStage(cfg, s, p, h, c, build, Box(h.successorName, false, false), next);
    } else {
      CreatingMayAbort(cfg, s, p, h, next);
    }
  }

  lemma CreatingOk(cfg: Config, s: State, p: Cid, h: Handover)
    requires Inv(cfg, s) && AtStage(s, p, CreatingSuccessor(h))
    ensures s.procs[p].resolved && Rightful(s.w.journal, p) && Leads(s.w, p, h, Prepared)
    ensures p != "" && h.successor == "" && p in s.w.ever && Apart(s.w, h)
  {
    hide Inv, WorldOk, Rightful, Builds, RecordOk;
    AtStageOk(cfg, s, p, CreatingSuccessor(h));
    StartedIsNamed(cfg, s, p);
    StartedWasEver(cfg, s, p);
    JournalNames(cfg, s.w);
    RecordIsApart(s.w, h);
    PreparedHasNoSuccessor(h);
  }

  lemma CreatingMayAbort(cfg: Config, s: State, p: Cid, h: Handover, next: Stage)
    requires Inv(cfg, s) && AtStage(s, p, CreatingSuccessor(h)) && next.AbortFinding? && next.h == h && next.known == ""
    ensures Inv(cfg, Enter(s, p, next))
  {
    hide Inv, Rightful;
    CreatingOk(cfg, s, p, h);
    StageKeeps(cfg, s, p, CreatingSuccessor(h), next);
  }

  lemma MadeThenStage(cfg: Config, s: State, p: Cid, h: Handover, c: Cid, build: Build, box: Box, next: Stage)
    requires Inv(cfg, s) && AtStage(s, p, CreatingSuccessor(h)) && c != "" && c !in s.w.ever && c != s.w.agent.id
             && !box.started
    requires next == RecordingSuccessor(h, c) || (next.AbortFinding? && next.h == h && next.known == "")
    ensures Inv(cfg, Turn(s, Made(s.w, c, build, box), p, Primary(next)))
  {
    hide Inv, Rightful;
    CreatingOk(cfg, s, p, h);
    MadeKeeps(cfg, s, c, build, box);
    StageKeeps(cfg, s.(w := Made(s.w, c, build, box)), p, CreatingSuccessor(h), next);
  }

  lemma PreparedHasNoSuccessor(h: Handover)
    ensures h.phase.Prepared? && ValidSuccessor(h) ==> h.successor == ""
  {
  }

  lemma StartedWasEver(cfg: Config, s: State, p: Cid)
    requires Inv(cfg, s) && IsStarted(s.w, p)
    ensures p in s.w.ever
  {
    hide LogOk, SoloOk, RetiredOk, PassesOk, ProcsOk;
  }

  lemma WriteCreatedKeeps(cfg: Config, s: State, p: Cid, h: Handover, c: Cid, write: Write)
    requires Inv(cfg, s) && AtStage(s, p, RecordingSuccessor(h, c)) && CanWrite(s.w, CreatedRecord(h, c), write)
    ensures Inv(cfg, Turn(s, AfterWrite(s.w, CreatedRecord(h, c), write), p,
                          Primary(if write.Reported? then Verifying(CreatedRecord(h, c))
                                  else AbortFinding(h, c, true, "successor could not be recorded"))))
  {
    hide Inv, Accepted, Landed;
    var failed := AbortFinding(h, c, true, "successor could not be recorded");
    if write.Lost? {
      RecordingMayAbort(cfg, s, p, h, c, failed);
    } else {
      RecordedThenStage(cfg, s, p, h, c, if write.Reported? then Verifying(CreatedRecord(h, c)) else failed);
    }
  }

  lemma RecordingOk(cfg: Config, s: State, p: Cid, h: Handover, c: Cid)
    requires Inv(cfg, s) && AtStage(s, p, RecordingSuccessor(h, c))
    ensures s.procs[p].resolved && Rightful(s.w.journal, p) && Leads(s.w, p, h, Prepared)
    ensures p != "" && h.successor == "" && c != p && c != "" && c in s.w.ever && Apart(s.w, h)
  {
    hide Inv, WorldOk, Rightful, Builds, RecordOk;
    AtStageOk(cfg, s, p, RecordingSuccessor(h, c));
    StartedIsNamed(cfg, s, p);
    JournalNames(cfg, s.w);
    RecordIsApart(s.w, h);
    PreparedHasNoSuccessor(h);
  }

  lemma RecordingMayAbort(cfg: Config, s: State, p: Cid, h: Handover, c: Cid, next: Stage)
    requires Inv(cfg, s) && AtStage(s, p, RecordingSuccessor(h, c)) && next.AbortFinding? && next.h == h
             && next.known == c
    ensures Inv(cfg, Enter(s, p, next))
  {
    hide Inv, Rightful;
    RecordingOk(cfg, s, p, h, c);
    StageKeeps(cfg, s, p, RecordingSuccessor(h, c), next);
  }

  lemma RecordedThenStage(cfg: Config, s: State, p: Cid, h: Handover, c: Cid, next: Stage)
    requires Inv(cfg, s) && AtStage(s, p, RecordingSuccessor(h, c))
             && Accepted(s.w.journal, CreatedRecord(h, c), s.w.now)
    requires next == Verifying(CreatedRecord(h, c)) || (next.AbortFinding? && next.h == h && next.known == c)
    ensures Inv(cfg, Turn(s, Landed(s.w, CreatedRecord(h, c), ""), p, Primary(next)))
  {
    hide Inv, Rightful, Accepted, Landed, LandedAs;
    RecordingOk(cfg, s, p, h, c);
    JustLanded(s.w, CreatedRecord(h, c));
    MoveLandsAt(cfg, s, p, RecordingSuccessor(h, c), CreatedRecord(h, c), next);
  }

  lemma VerifySuccessorKeeps(cfg: Config, s: State, p: Cid, h: Handover)
    requires Inv(cfg, s) && AtStage(s, p, Verifying(h)) && IsWhatWasCreated(s.w, h)
    ensures Inv(cfg, Enter(s, p, StartingSuccessor(h)))
  {
    hide Inv, WorldOk, Rightful;
    AtStageOk(cfg, s, p, Verifying(h));
    StageKeeps(cfg, s, p, Verifying(h), StartingSuccessor(h));
  }

  lemma StartedGrows(cfg: Config, w: World, c: Cid)
    requires BoxesOk(w) && PassesOk(w) && w.journal.Some? && c == w.journal.value.successor
    ensures var v := Started(w, c);
            Grows(w, v) && Calm(w, v) && StartsOk(cfg, w, v) && BoxesOk(v) && PassesOk(v)
  {
  }

  /** The successor of the handover in progress is started; nobody works without the lock beside the holder. */
  lemma StartedKeeps(cfg: Config, s: State, p: Cid, c: Cid)
    requires Inv(cfg, s) && p in s.procs && s.w.lock == Some(p) && HoldsLock(s.procs[p].pc)
    requires s.w.journal.Some? && c == s.w.journal.value.successor
    ensures Inv(cfg, s.(w := Started(s.w, c)))
  {
    hide LogOk, SoloOk, RetiredOk, PassesOk, BoxesOk, Bears, ProcsOk, Grows, HoldsLock, StartsOk, Calm;
    var v := Started(s.w, c);
    StartedGrows(cfg, s.w, c);
    CalmKeeps(cfg, s.w, v);
    hide WorldOk, Inv;
    forall q | q in s.procs ensures Bears(cfg, s.w, v, q, s.procs[q]) {
      if q != p {
        HolderIsUnique(cfg, s, p, q);
      } else {
        HolderIsLocked(s.procs[q].pc);
      }
      StartedBears(cfg, s.w, c, q, s.procs[q]);
    }
    ChangeKeeps(cfg, s, v);
  }

  lemma HolderIsLocked(pc: Pc)
    requires HoldsLock(pc)
    ensures !pc.Unlocked?
  {
  }

  lemma PredecessorIsNotSuccessor(cfg: Config, w: World, p: Cid, h: Handover)
    requires WorldOk(cfg, w) && Leads(w, p, h, h.phase)
    ensures h.successor != p && Ours(w, h.successor) && Apart(w, h)
  {
    hide WorldOk, RecordOk, Builds;
    JournalNames(cfg, w);
    RecordIsApart(w, h);
  }

  lemma StartSuccessorKeeps(cfg: Config, s: State, p: Cid, h: Handover, effect: bool, confirmed: bool)
    requires Inv(cfg, s) && AtStage(s, p, StartingSuccessor(h))
    ensures Inv(cfg, Turn(s, if effect then Started(s.w, h.successor) else s.w, p,
                          Primary(if confirmed then WaitSlotFirst(h, false)
                                  else AbortFinding(h, "", false, "successor could not be started"))))
  {
    hide Inv, WorldOk, Rightful;
    AtStageOk(cfg, s, p, StartingSuccessor(h));
    StartedIsNamed(cfg, s, p);
    PredecessorIsNotSuccessor(cfg, s.w, p, h);
    var next := if confirmed then WaitSlotFirst(h, false)
                else AbortFinding(h, "", false, "successor could not be started");
    if effect {
      StartedKeeps(cfg, s, p, h.successor);
      StageKeeps(cfg, s.(w := Started(s.w, h.successor)), p, StartingSuccessor(h), next);
    } else {
      StageKeeps(cfg, s, p, StartingSuccessor(h), next);
    }
  }

  lemma GiveUpKeeps(cfg: Config, s: State, p: Cid, h: Handover, stage: Stage, reason: string)
    requires Inv(cfg, s) && AtStage(s, p, stage) && MayGiveUp(stage, h, reason)
    ensures Inv(cfg, Enter(s, p, AbortFinding(h, "", false, reason)))
  {
    hide Inv, WorldOk, Rightful;
    AtStageOk(cfg, s, p, stage);
    StartedIsNamed(cfg, s, p);
    assert s.procs[p].resolved && Leads(s.w, p, h, h.phase);
    PredecessorIsNotSuccessor(cfg, s.w, p, h);
    StageKeeps(cfg, s, p, stage, AbortFinding(h, "", false, reason));
  }

  lemma FollowKeeps(cfg: Config, s: State, a: Action)
    requires Inv(cfg, s) && FollowEnabled(s, a)
    ensures Inv(cfg, FollowStep(s, a))
  {
    hide Inv, CanWrite, Eligible, Enter, Turn, AtStage, AfterWrite, CreatedRecord, Made, Started, MayGiveUp,
         IsWhatWasCreated;
    if a.ReadSlot? {
      ReadSlotKeeps(cfg, s, a.p);
    } else if a.Evaluate? {
      EvaluateKeeps(cfg, s, a.p, a.digest, a.h);
    } else if a.Refuse? {
      PlainKeeps(cfg, s, a.p, SlotFoundIdle(a.digest), Idle);
    } else if a.WritePrepared? {
      WritePreparedKeeps(cfg, s, a.p, a.h, a.write);
    } else if a.CreateSuccessor? {
      CreateSuccessorKeeps(cfg, s, a.p, a.h, a.c, a.build, a.effect, a.confirmed);
    } else if a.WriteCreated? {
      WriteCreatedKeeps(cfg, s, a.p, a.h, a.c, a.write);
    } else if a.VerifySuccessor? {
      VerifySuccessorKeeps(cfg, s, a.p, a.h);
    } else if a.StartSuccessor? {
      StartSuccessorKeeps(cfg, s, a.p, a.h, a.effect, a.confirmed);
    } else if a.GiveUp? {
      GiveUpKeeps(cfg, s, a.p, a.h, a.stage, a.reason);
    }
  }
}
