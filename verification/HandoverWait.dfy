/** Waiting for a successor and committing to it keeps the invariant. */
module HandoverWait {
  import opened Wrappers
  import opened HandoverJournal
  import opened HandoverModel
  import opened HandoverInvariant
  import opened HandoverWorld
  import opened HandoverFrame
  import opened HandoverSteps
  import opened HandoverPrimary
  import opened HandoverFollow

  /** A stage of the wait for h's successor, and whether the proof was seen. */
  predicate WaitStage(stage: Stage, h: Handover, proven: bool) {
    match stage
    case WaitSlotFirst(g, seen) => g == h && seen == proven
    case WaitSuccessor(g, seen) => g == h && seen == proven
    case WaitAgent(g, seen, _) => g == h && seen == proven
    case WaitProof(g, seen, _, _) => g == h && seen == proven
    case WaitSlotLast(g, seen, _, _) => g == h && seen == proven
    case Committing(g, read) => g == h && proven && read == h.requestDigest
    case AbortFinding(g, known, _, _) => g == h && known == ""
    case _ => false
  }

  lemma WaitStageOk(w: World, p: Cid, h: Handover, stage: Stage, proven: bool)
    requires WaitStage(stage, h, proven) && WaitsFor(w, p, h, proven) && h.successor != p && p != "" && Apart(w, h)
    ensures StageOk(w, p, stage)
  {
  }

  lemma WaitingOk(cfg: Config, s: State, p: Cid, stage: Stage, h: Handover, proven: bool)
    requires Inv(cfg, s) && AtStage(s, p, stage) && WaitStage(stage, h, proven) && !stage.AbortFinding?
    ensures WorldOk(cfg, s.w) && s.procs[p].resolved && Rightful(s.w.journal, p) && WaitsFor(s.w, p, h, proven)
    ensures h.successor != p && p != "" && Apart(s.w, h)
  {
    hide Inv, WorldOk, Rightful;
    AtStageOk(cfg, s, p, stage);
    StartedIsNamed(cfg, s, p);
    PredecessorIsNotSuccessor(cfg, s.w, p, h);
  }

  /** A pass of the wait goes from one stage to the next; a proof newly seen was passed. */
  lemma WaitKeepsOn(cfg: Config, s: State, p: Cid, stage: Stage, next: Stage, h: Handover, proven: bool, seen: bool)
    requires Inv(cfg, s) && AtStage(s, p, stage) && WaitStage(stage, h, proven) && !stage.AbortFinding?
    requires WaitStage(next, h, seen) && (seen ==> proven || Pass(h.id, h.successor, h.version) in s.w.passed)
    ensures Inv(cfg, Enter(s, p, next))
  {
    hide Inv, WorldOk, Rightful, StageOk;
    WaitingOk(cfg, s, p, stage, h, proven);
    WaitStageOk(s.w, p, h, next, seen);
    StageKeeps(cfg, s, p, stage, next);
  }

  lemma ReadProofKeeps(cfg: Config, s: State, p: Cid, h: Handover, proven: bool, up: bool, same: bool)
    requires Inv(cfg, s) && AtStage(s, p, WaitProof(h, proven, up, same))
    ensures Inv(cfg, Enter(s, p, WaitSlotLast(h, proven || s.w.proof == Some(ProofFor(h)), up, same)))
  {
    hide Inv;
    ProofWasPassed(cfg, s, h);
    var seen := proven || s.w.proof == Some(ProofFor(h));
    WaitKeepsOn(cfg, s, p, WaitProof(h, proven, up, same), WaitSlotLast(h, seen, up, same), h, proven, seen);
  }

  lemma ProofWasPassed(cfg: Config, s: State, h: Handover)
    requires Inv(cfg, s)
    ensures s.w.proof == Some(ProofFor(h)) ==> Pass(h.id, h.successor, h.version) in s.w.passed
  {
    hide LogOk, SoloOk, RetiredOk, ProcsOk;
  }

  lemma ReadSlotLastKeeps(cfg: Config, s: State, p: Cid, h: Handover, proven: bool, up: bool, same: bool, next: Stage)
    requires Inv(cfg, s) && AtStage(s, p, WaitSlotLast(h, proven, up, same))
    requires (next == Committing(h, h.requestDigest) && proven) || next == WaitSlotFirst(h, proven) || GivesUp(next, h)
    ensures Inv(cfg, Enter(s, p, next))
  {
    hide Inv, AtStage, Enter;
    WaitKeepsOn(cfg, s, p, WaitSlotLast(h, proven, up, same), next, h, proven, proven);
  }

  predicate GivesUp(stage: Stage, h: Handover) {
    stage.AbortFinding? && stage.h == h && stage.known == ""
  }

  lemma ReadSlotFirstKeeps(cfg: Config, s: State, p: Cid, h: Handover, proven: bool, next: Stage)
    requires Inv(cfg, s) && AtStage(s, p, WaitSlotFirst(h, proven))
             && (next == WaitSuccessor(h, proven) || GivesUp(next, h))
    ensures Inv(cfg, Enter(s, p, next))
  {
    hide Inv, AtStage, Enter;
    WaitKeepsOn(cfg, s, p, WaitSlotFirst(h, proven), next, h, proven, proven);
  }

  lemma InspectSuccessorKeeps(cfg: Config, s: State, p: Cid, h: Handover, proven: bool, next: Stage)
    requires Inv(cfg, s) && AtStage(s, p, WaitSuccessor(h, proven))
    requires (next.WaitAgent? && next.h == h && next.proven == proven) || GivesUp(next, h)
    ensures Inv(cfg, Enter(s, p, next))
  {
    hide Inv, AtStage, Enter;
    WaitKeepsOn(cfg, s, p, WaitSuccessor(h, proven), next, h, proven, proven);
  }

  lemma InspectAgentKeeps(cfg: Config, s: State, p: Cid, h: Handover, proven: bool, up: bool, next: Stage)
    requires Inv(cfg, s) && AtStage(s, p, WaitAgent(h, proven, up))
    requires (next.WaitProof? && next.h == h && next.proven == proven) || GivesUp(next, h)
    ensures Inv(cfg, Enter(s, p, next))
  {
    hide Inv, AtStage, Enter;
    WaitKeepsOn(cfg, s, p, WaitAgent(h, proven, up), next, h, proven, proven);
  }

  // -------------------------------------------------------------------- the commit

  lemma CommitLands(cfg: Config, w: World, h: Handover, read: string)
    requires WorldOk(cfg, w) && Accepted(w.journal, CommittedRecord(h), w.now)
    requires w.journal == Some(h) && ProvenBy(w, h) && read == h.requestDigest
    ensures WorldOk(cfg, AfterCommit(w, h, read, Reported))
  {
    hide WorldOk, Accepted, Landed, CarriesProof;
    SuccessorEver(w, h);
    MoveLands(cfg, w, CommittedRecord(h), read);
  }

  lemma SuccessorEver(w: World, h: Handover)
    requires ProvenBy(w, h)
    ensures h.successor in w.ever && ProvenBy(w, CommittedRecord(h))
  {
  }

  lemma CommitLandsAt(cfg: Config, s: State, p: Cid, h: Handover, read: string, after: Stage)
    requires Inv(cfg, s) && AtStage(s, p, Committing(h, read)) && Accepted(s.w.journal, CommittedRecord(h), s.w.now)
    requires after.Leaving? || GivesUp(after, h)
    ensures Inv(cfg, Turn(s, AfterCommit(s.w, h, read, Reported), p, Primary(after)))
  {
    hide Inv, WorldOk, Rightful, Accepted, Identity, RecordOk, Transitions, AfterCommit, LandedAs, NamedAreGone,
         ValidSuccessor;
    AtStageOk(cfg, s, p, Committing(h, read));
    WaitingOk(cfg, s, p, Committing(h, read), h, true);
    WaitsAreProven(cfg, s.w, p, h);
    CommitLands(cfg, s.w, h, read);
    MoveFollows(cfg, s.w, CommittedRecord(h));
    JustCommitted(s.w, h, read);
    CommittedIsRightful(CommittedRecord(h), p);
    StageLands(cfg, s, AfterCommit(s.w, h, read, Reported), p, Committing(h, read), CommittedRecord(h), after);
  }

  lemma WaitsAreProven(cfg: Config, w: World, p: Cid, h: Handover)
    requires WorldOk(cfg, w) && WaitsFor(w, p, h, true)
    ensures ProvenBy(w, h)
  {
    hide LogOk, SoloOk, RetiredOk, BoxesOk;
  }

  lemma JustCommitted(w: World, h: Handover, read: string)
    ensures var v := AfterCommit(w, h, read, Reported);
            && LandedAs(w, v, CommittedRecord(h)) && v.lock == w.lock
            && v.journal == Some(CommittedRecord(h)) && v.ever == w.ever
  {
  }

  lemma CommittedIsRightful(h: Handover, p: Cid)
    requires h.phase.Committed? && h.predecessor == p
    ensures Rightful(Some(h), p)
  {
  }

  lemma CommittingMayAbort(cfg: Config, s: State, p: Cid, h: Handover, read: string, failed: Stage)
    requires Inv(cfg, s) && AtStage(s, p, Committing(h, read)) && GivesUp(failed, h)
    ensures Inv(cfg, Enter(s, p, failed))
  {
    hide Inv, WorldOk, Rightful, Enter;
    AtStageOk(cfg, s, p, Committing(h, read));
    WaitKeepsOn(cfg, s, p, Committing(h, read), failed, h, true, false);
  }

  lemma WriteCommittedKeeps(cfg: Config, s: State, p: Cid, h: Handover, read: string, write: Write, failed: Stage)
    requires Inv(cfg, s) && AtStage(s, p, Committing(h, read)) && CanWrite(s.w, CommittedRecord(h), write)
    requires GivesUp(failed, h)
    ensures Inv(cfg, Turn(s, AfterCommit(s.w, h, read, write), p, Primary(if write.Reported? then Leaving else failed)))
  {
    hide Inv, Accepted, Landed, AtStage, WorldOk, Rightful;
    if write.Lost? {
      CommittingMayAbort(cfg, s, p, h, read, failed);
    } else {
      CommitLandsAt(cfg, s, p, h, read, if write.Reported? then Leaving else failed);
    }
  }

  /** A primary whose run has returned lets the lock go. */
  lemma ReleaseKeeps(cfg: Config, s: State, p: Cid)
    requires Inv(cfg, s) && AtStage(s, p, Joined)
    ensures Inv(cfg, Turn(s, Released(s.w), p, Choosing))
  {
    hide Inv, WorldOk, Rightful, StageOk;
    Ready(cfg, s, p);
    LockKeeps(cfg, s, p, None, Choosing);
  }

  lemma WaitKeeps(cfg: Config, s: State, a: Action)
    requires Inv(cfg, s) && WaitEnabled(s, a)
    ensures Inv(cfg, WaitStep(s, a))
  {
    hide Inv, CanWrite, Enter, Turn, AtStage, UpIn, ProofFor, AfterCommit, Beating;
    if a.ReadSlotFirst? {
      ReadSlotFirstKeeps(cfg, s, a.p, a.h, a.proven,
                         if RequestChanged(s.w, a.h, a.readable) then AbortFinding(a.h, "", false, PREEMPTED)
                         else WaitSuccessor(a.h, a.proven));
    } else if a.InspectSuccessor? {
      InspectSuccessorKeeps(cfg, s, a.p, a.h, a.proven,
                            if a.answered && a.h.successor !in s.w.boxes
                            then AbortFinding(a.h, "", false, "successor disappeared")
                            else WaitAgent(a.h, a.proven, a.answered && UpIn(s.w, a.h.successor)));
    } else if a.InspectAgent? {
      InspectAgentKeeps(cfg, s, a.p, a.h, a.proven, a.up,
                        if a.answered && (s.w.agent.id != a.h.agentContainer || s.w.agent.image != a.h.image)
                        then AbortFinding(a.h, "", false, "the agent was replaced")
                        else WaitProof(a.h, a.proven, a.up, a.answered));
    } else if a.ReadProof? {
      ReadProofKeeps(cfg, s, a.p, a.h, a.proven, a.up, a.same);
    } else if a.ReadSlotLast? {
      ReadSlotLastKeeps(cfg, s, a.p, a.h, a.proven, a.up, a.same,
                        if RequestChanged(s.w, a.h, a.readable) then AbortFinding(a.h, "", false, PREEMPTED)
                        else if a.proven && a.up && a.same && a.stable then Committing(a.h, s.w.slot)
                        else WaitSlotFirst(a.h, a.proven));
    } else if a.WriteCommitted? {
      WriteCommittedKeeps(cfg, s, a.p, a.h, a.read, a.write,
                          AbortFinding(a.h, "", false, "the commit could not be recorded"));
    } else if a.JoinHeartbeat? {
      BeatKeeps(cfg, s, a.p, Leaving, Joined, false);
    } else if a.ReleaseLock? {
      ReleaseKeeps(cfg, s, a.p);
    }
  }
}
