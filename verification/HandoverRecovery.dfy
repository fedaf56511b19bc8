/**
  * What a handover that does not go through comes to can be done, from any state in which it is due: a
  * retired predecessor takes the role back, a successor left alone takes it, and whoever is primary ends
  * what it finds unfinished (internal/upgrade/docker_successor.go reclaim, abandon, reconcile).
  */
module HandoverRecovery {
  import opened Wrappers
  import opened HandoverJournal
  import opened HandoverModel
  import opened HandoverPrimary

  /** Some steps lead from one state to the other. */
  ghost predicate Leads(cfg: Config, s: State, t: State) {
    exists states, actions :: Path(cfg, states, actions, s, t)
  }

  ghost predicate Path(cfg: Config, states: seq<State>, actions: seq<Action>, s: State, t: State) {
    && |states| == |actions| + 1 && states[0] == s && states[|actions|] == t
    && forall i {:trigger actions[i]} :: 0 <= i < |actions| ==> Follows(cfg, states[i], states[i + 1], actions[i])
  }

  lemma Stays(cfg: Config, s: State)
    ensures Leads(cfg, s, s)
  {
    assert Path(cfg, [s], [], s, s);
  }

  lemma Then(cfg: Config, s: State, t: State, u: State, a: Action)
    requires Leads(cfg, s, t) && Follows(cfg, t, u, a)
    ensures Leads(cfg, s, u)
  {
    hide Follows;
    var states, actions :| Path(cfg, states, actions, s, t);
    var longer, more := states + [u], actions + [a];
    forall i | 0 <= i < |more| ensures Follows(cfg, longer[i], longer[i + 1], more[i]) {
      if i < |actions| {
        assert actions[i] == more[i];
      }
    }
    assert Path(cfg, longer, more, s, u);
  }

  lemma RetiredThen(cfg: Config, s: State, t: State, a: Action)
    requires Leads(cfg, s, t) && RetiredEnabled(t, a)
    ensures Leads(cfg, s, RetiredStep(t, a))
  {
    hide EnvironmentEnabled, ServeEnabled, RetiredEnabled, StandbyEnabled, AbortEnabled, ReconcileEnabled, TidyEnabled,
         FollowEnabled, WaitEnabled, RetiredStep, Leads;
    Then(cfg, s, t, RetiredStep(t, a), a);
  }

  lemma StandbyThen(cfg: Config, s: State, t: State, a: Action)
    requires Leads(cfg, s, t) && StandbyEnabled(t, a)
    ensures Leads(cfg, s, StandbyStep(t, a))
  {
    hide EnvironmentEnabled, ServeEnabled, RetiredEnabled, StandbyEnabled, AbortEnabled, ReconcileEnabled, TidyEnabled,
         FollowEnabled, WaitEnabled, StandbyStep, Leads;
    Then(cfg, s, t, StandbyStep(t, a), a);
  }

  lemma AbortThen(cfg: Config, s: State, t: State, a: Action)
    requires Leads(cfg, s, t) && AbortEnabled(t, a)
    ensures Leads(cfg, s, AbortStep(t, a))
  {
    hide EnvironmentEnabled, ServeEnabled, RetiredEnabled, StandbyEnabled, AbortEnabled, ReconcileEnabled, TidyEnabled,
         FollowEnabled, WaitEnabled, AbortStep, Leads;
    Then(cfg, s, t, AbortStep(t, a), a);
  }

  lemma ReconcileThen(cfg: Config, s: State, t: State, a: Action)
    requires Leads(cfg, s, t) && ReconcileEnabled(t, a)
    ensures Leads(cfg, s, ReconcileStep(t, a))
  {
    hide EnvironmentEnabled, ServeEnabled, RetiredEnabled, StandbyEnabled, AbortEnabled, ReconcileEnabled, TidyEnabled,
         FollowEnabled, WaitEnabled, ReconcileStep, Leads;
    Then(cfg, s, t, ReconcileStep(t, a), a);
  }

  /** This process, which knows itself, stands here. */
  predicate Stands(s: State, p: Cid, pc: Pc) {
    At(s, p, pc) && s.procs[p].resolved && p != ""
  }

  // ----------------------------------------------------------------- taking it back

  lemma ReclaimLocks(s: State, p: Cid, h: Handover)
    requires Stands(s, p, Watching(h)) && s.w.lock.None?
    ensures var a := ReclaimLock(p, h);
            RetiredEnabled(s, a) && Stands(RetiredStep(s, a), p, Reclaiming(h)) && RetiredStep(s, a).w == Locked(s.w, p)
  {
  }

  lemma ReclaimReads(s: State, p: Cid, h: Handover)
    requires Stands(s, p, Reclaiming(h)) && s.w.journal == Some(h) && h.phase.Committed? && h.predecessor == p
    ensures var a := ReclaimRead(p, h, true);
            RetiredEnabled(s, a) && Stands(RetiredStep(s, a), p, ReclaimWriting(h)) && RetiredStep(s, a).w == s.w
  {
  }

  lemma ReclaimWrites(s: State, p: Cid, h: Handover)
    requires Stands(s, p, ReclaimWriting(h)) && Accepted(s.w.journal, RevertedRecord(h, s.w.now), s.w.now)
    ensures var a := ReclaimWrite(p, h, Reported);
            && RetiredEnabled(s, a) && Stands(RetiredStep(s, a), p, ReclaimStopping(h))
            && RetiredStep(s, a).w == Landed(s.w, RevertedRecord(h, s.w.now), "")
  {
    hide Accepted, RevertedRecord, Landed;
  }

  lemma ReclaimStops(s: State, p: Cid, h: Handover)
    requires Stands(s, p, ReclaimStopping(h)) && h.successor != p
    ensures var a := ReclaimStop(p, h, true);
            && RetiredEnabled(s, a) && Stands(RetiredStep(s, a), p, ReclaimRemoving(h))
            && RetiredStep(s, a).w.journal == s.w.journal
            && (s.w.lock == Some(p) ==> RetiredStep(s, a).w.lock == Some(p))
  {
    hide CanWrite, RevertedRecord, AfterWrite, StillReclaimable;
  }

  lemma ReclaimRemoves(s: State, p: Cid, h: Handover)
    requires Stands(s, p, ReclaimRemoving(h)) && h.successor != p
    ensures var a := ReclaimRemove(p, h, true);
            && RetiredEnabled(s, a) && Stands(RetiredStep(s, a), p, Primary(Starting))
            && RetiredStep(s, a).w.journal == s.w.journal
            && (s.w.lock == Some(p) ==> RetiredStep(s, a).w.lock == Some(p))
            && h.successor !in RetiredStep(s, a).w.boxes
  {
  }

  /** A predecessor that a commit retired: with the lock free it can revert the commit and be primary again. */
  lemma ARetiredPredecessorCanReclaim(cfg: Config, s: State, p: Cid, h: Handover) returns (t: State)
    requires Stands(s, p, Watching(h)) && s.w.lock.None? && s.w.journal == Some(h) && s.w.now >= 0
    requires Valid(h) && h.phase.Committed? && h.predecessor == p
    ensures Leads(cfg, s, t) && Stands(t, p, Primary(Starting)) && t.w.lock == Some(p)
    ensures t.w.journal == Some(RevertedRecord(h, s.w.now)) && h.successor !in t.w.boxes
  {
    hide Leads, Valid, Accepted, RevertedRecord, RetiredEnabled, RetiredStep, Stands;
    RevertIsTaken(h, s.w.now);
    OthersAreNamed(h);
    Stays(cfg, s);
    ReclaimLocks(s, p, h);
    RetiredThen(cfg, s, s, ReclaimLock(p, h));
    var t1 := RetiredStep(s, ReclaimLock(p, h));
    ReclaimReads(t1, p, h);
    RetiredThen(cfg, s, t1, ReclaimRead(p, h, true));
    var t2 := RetiredStep(t1, ReclaimRead(p, h, true));
    ReclaimWrites(t2, p, h);
    RetiredThen(cfg, s, t2, ReclaimWrite(p, h, Reported));
    var t3 := RetiredStep(t2, ReclaimWrite(p, h, Reported));
    ReclaimStops(t3, p, h);
    RetiredThen(cfg, s, t3, ReclaimStop(p, h, true));
    var t4 := RetiredStep(t3, ReclaimStop(p, h, true));
    ReclaimRemoves(t4, p, h);
    RetiredThen(cfg, s, t4, ReclaimRemove(p, h, true));
    t := RetiredStep(t4, ReclaimRemove(p, h, true));
  }

  lemma OthersAreNamed(h: Handover)
    requires Valid(h)
    ensures h.predecessor != h.successor
  {
    hide ValidText, Preemption;
  }

  lemma RevertIsTaken(h: Handover, now: int)
    requires Valid(h) && h.phase.Committed? && now >= 0
    ensures Accepted(Some(h), RevertedRecord(h, now), now)
  {
    hide Valid, Accepted, Preemption, Printable;
    var reason := "successor never took over";
    RoleReasonIsPlain(reason);
    OwnReasonIsPlain(h);
    EndedIsValid(h, Reverted, reason, NotBefore(h.attempt, reason, now));
    RoleRecordsAreTaken(h, RevertedRecord(h, now), now);
  }

  // ---------------------------------------------------------- a successor left alone

  lemma AbandonLocks(s: State, p: Cid, h: Handover, missing: nat)
    requires Stands(s, p, Standing(h, true, missing)) && missing >= 2 && s.w.lock.None?
    ensures var a := AbandonLock(p, h, missing);
            && StandbyEnabled(s, a) && Stands(StandbyStep(s, a), p, Abandoning(h, missing))
            && StandbyStep(s, a).w == Locked(s.w, p)
  {
  }

  lemma AbandonReads(s: State, p: Cid, h: Handover, missing: nat)
    requires Stands(s, p, Abandoning(h, missing)) && s.w.journal == Some(h) && h.phase.Created? && h.successor == p
    ensures var a := AbandonRead(p, h, missing, true);
            && StandbyEnabled(s, a) && Stands(StandbyStep(s, a), p, AbandonWriting(h, missing))
            && StandbyStep(s, a).w == s.w
  {
  }

  lemma AbandonWrites(s: State, p: Cid, h: Handover, missing: nat)
    requires Stands(s, p, AbandonWriting(h, missing)) && Accepted(s.w.journal, AbandonedRecord(h), s.w.now)
    ensures var a := AbandonWrite(p, h, missing, Reported);
            && StandbyEnabled(s, a) && Stands(StandbyStep(s, a), p, Primary(Starting))
            && StandbyStep(s, a).w == Landed(s.w, AbandonedRecord(h), "")
  {
    hide Accepted, AbandonedRecord, Landed;
  }

  /**
    * A successor that proved itself and found its predecessor gone twice in a row: with the lock free it
    * can abandon the handover and take the role.
    */
  lemma ASuccessorLeftAloneCanTakeOver(cfg: Config, s: State, p: Cid, h: Handover, missing: nat) returns (t: State)
    requires Stands(s, p, Standing(h, true, missing)) && missing >= 2 && s.w.lock.None? && s.w.journal == Some(h)
    requires Valid(h) && h.phase.Created? && h.successor == p
    ensures Leads(cfg, s, t) && Stands(t, p, Primary(Starting)) && t.w.lock == Some(p)
    ensures t.w.journal == Some(AbandonedRecord(h))
  {
    hide Leads, Valid, Accepted, AbandonedRecord, StandbyEnabled, StandbyStep, Stands;
    AbandonIsTaken(h, s.w.now);
    Stays(cfg, s);
    AbandonLocks(s, p, h, missing);
    StandbyThen(cfg, s, s, AbandonLock(p, h, missing));
    var t1 := StandbyStep(s, AbandonLock(p, h, missing));
    AbandonReads(t1, p, h, missing);
    StandbyThen(cfg, s, t1, AbandonRead(p, h, missing, true));
    var t2 := StandbyStep(t1, AbandonRead(p, h, missing, true));
    AbandonWrites(t2, p, h, missing);
    StandbyThen(cfg, s, t2, AbandonWrite(p, h, missing, Reported));
    t := StandbyStep(t2, AbandonWrite(p, h, missing, Reported));
  }

  lemma AbandonIsTaken(h: Handover, now: int)
    requires Valid(h) && h.phase.Created?
    ensures Accepted(Some(h), AbandonedRecord(h), now)
  {
    hide Valid, Accepted, Preemption, Printable;
    RoleReasonIsPlain("predecessor removed");
    OwnReasonIsPlain(h);
    EndedIsValid(h, Abandoned, "predecessor removed", h.notBefore);
    RoleRecordsAreTaken(h, AbandonedRecord(h), now);
  }

  // ------------------------------------------------------------ ending what is found

  lemma ReadsJournal(s: State, p: Cid, h: Handover)
    requires Stands(s, p, Primary(Reconciling)) && s.w.journal == Some(h)
    ensures var a := ReconcileRead(p, true);
            && ReconcileEnabled(s, a) && ReconcileStep(s, a).w == s.w
            && Stands(ReconcileStep(s, a), p, Primary(ReconcileStage(Some(h), p)))
  {
    hide ReconcileStage;
  }

  /** An abort in hand can be carried through: what it is about is gone and the journal says why. */
  lemma AnAbortCanBeWritten(cfg: Config, s0: State, s: State, p: Cid, h: Handover, reason: string) returns (t: State)
    requires Leads(cfg, s0, s) && Stands(s, p, Primary(AbortFinding(h, "", true, reason))) && h.successor != p
    requires Accepted(s.w.journal, AbortedRecord(h, reason, s.w.now), s.w.now)
    ensures Leads(cfg, s0, t) && Stands(t, p, Primary(Idle))
    ensures t.w.journal == Some(AbortedRecord(h, reason, s.w.now)) && (h.successor != "" ==> h.successor !in t.w.boxes)
  {
    hide Leads, Accepted, AbortedRecord, AbortEnabled, AbortStep, Stands;
    AbortFinds(s, p, h, reason);
    AbortThen(cfg, s0, s, AbortFind(p, h, "", true, reason, ""));
    var t1 := AbortStep(s, AbortFind(p, h, "", true, reason, ""));
    if h.successor == "" {
      AbortWrites(t1, p, h, reason);
      AbortThen(cfg, s0, t1, AbortWrite(p, h, reason, Reported));
      return AbortStep(t1, AbortWrite(p, h, reason, Reported));
    }
    AbortStops(t1, p, h, reason);
    AbortThen(cfg, s0, t1, AbortStop(p, h, h.successor, reason, true));
    var t2 := AbortStep(t1, AbortStop(p, h, h.successor, reason, true));
    AbortRemoves(t2, p, h, reason);
    AbortThen(cfg, s0, t2, AbortRemove(p, h, h.successor, reason, true));
    var t3 := AbortStep(t2, AbortRemove(p, h, h.successor, reason, true));
    AbortWrites(t3, p, h, reason);
    AbortThen(cfg, s0, t3, AbortWrite(p, h, reason, Reported));
    t := AbortStep(t3, AbortWrite(p, h, reason, Reported));
  }

  lemma AbortFinds(s: State, p: Cid, h: Handover, reason: string)
    requires Stands(s, p, Primary(AbortFinding(h, "", true, reason)))
    ensures var a := AbortFind(p, h, "", true, reason, "");
            && AbortEnabled(s, a) && AbortStep(s, a).w == s.w
            && Stands(AbortStep(s, a), p, Primary(AbortNext(h, h.successor, reason)))
  {
  }

  lemma AbortStops(s: State, p: Cid, h: Handover, reason: string)
    requires Stands(s, p, Primary(AbortStopping(h, h.successor, reason))) && h.successor != p
    ensures var a := AbortStop(p, h, h.successor, reason, true);
            && AbortEnabled(s, a) && Stands(AbortStep(s, a), p, Primary(AbortRemoving(h, h.successor, reason)))
            && AbortStep(s, a).w.journal == s.w.journal && AbortStep(s, a).w.now == s.w.now
  {
    hide CanWrite, UnmistakablySuccessor, AbortedRecord, AbortTarget, AfterWrite;
  }

  lemma AbortRemoves(s: State, p: Cid, h: Handover, reason: string)
    requires Stands(s, p, Primary(AbortRemoving(h, h.successor, reason))) && h.successor != p
    ensures var a := AbortRemove(p, h, h.successor, reason, true);
            && AbortEnabled(s, a) && Stands(AbortStep(s, a), p, Primary(AbortWriting(h, reason)))
            && AbortStep(s, a).w.journal == s.w.journal && AbortStep(s, a).w.now == s.w.now
            && h.successor !in AbortStep(s, a).w.boxes
  {
    hide CanWrite, UnmistakablySuccessor, AbortedRecord, AbortTarget, AfterWrite;
  }

  lemma AbortWrites(s: State, p: Cid, h: Handover, reason: string)
    requires Stands(s, p, Primary(AbortWriting(h, reason)))
    requires Accepted(s.w.journal, AbortedRecord(h, reason, s.w.now), s.w.now)
    ensures var a := AbortWrite(p, h, reason, Reported);
            && AbortEnabled(s, a) && Stands(AbortStep(s, a), p, Primary(Idle))
            && AbortStep(s, a).w == Landed(s.w, AbortedRecord(h, reason, s.w.now), "")
  {
    hide Accepted, AbortedRecord, Landed;
  }

  /** A successor can finish the handover it was given the role by: its predecessor is down, the journal completed. */
  lemma ASuccessorCanFinish(cfg: Config, s0: State, s: State, p: Cid, h: Handover) returns (t: State)
    requires Leads(cfg, s0, s) && Stands(s, p, Primary(FinishChecking(h))) && h.predecessor != p
    requires Accepted(s.w.journal, CompletedRecord(h), s.w.now)
    ensures Leads(cfg, s0, t) && Stands(t, p, Primary(Idle))
    ensures t.w.journal == Some(CompletedRecord(h)) && !UpIn(t.w, h.predecessor)
  {
    hide Leads, Accepted, CompletedRecord, ReconcileEnabled, ReconcileStep, Stands;
    FinishChecks(s, p, h);
    ReconcileThen(cfg, s0, s, FinishCheck(p, h, true));
    var t1 := ReconcileStep(s, FinishCheck(p, h, true));
    if h.predecessor !in s.w.boxes {
      FinishWrites(t1, p, h);
      ReconcileThen(cfg, s0, t1, FinishWrite(p, h, Reported));
      return ReconcileStep(t1, FinishWrite(p, h, Reported));
    }
    FinishStops(t1, p, h);
    ReconcileThen(cfg, s0, t1, FinishStop(p, h, true, true));
    var t2 := ReconcileStep(t1, FinishStop(p, h, true, true));
    FinishConfirms(t2, p, h);
    ReconcileThen(cfg, s0, t2, FinishConfirm(p, h, true));
    var t3 := ReconcileStep(t2, FinishConfirm(p, h, true));
    FinishWrites(t3, p, h);
    ReconcileThen(cfg, s0, t3, FinishWrite(p, h, Reported));
    t := ReconcileStep(t3, FinishWrite(p, h, Reported));
  }

  lemma FinishChecks(s: State, p: Cid, h: Handover)
    requires Stands(s, p, Primary(FinishChecking(h)))
    ensures var a := FinishCheck(p, h, true);
            && ReconcileEnabled(s, a) && ReconcileStep(s, a).w == s.w
            && Stands(ReconcileStep(s, a), p, Primary(if h.predecessor in s.w.boxes then FinishStopping(h)
                                                      else FinishWriting(h)))
  {
  }

  lemma FinishStops(s: State, p: Cid, h: Handover)
    requires Stands(s, p, Primary(FinishStopping(h))) && h.predecessor != p
    ensures var a := FinishStop(p, h, true, true);
            && ReconcileEnabled(s, a) && Stands(ReconcileStep(s, a), p, Primary(FinishConfirming(h)))
            && ReconcileStep(s, a).w.journal == s.w.journal && ReconcileStep(s, a).w.now == s.w.now
            && !UpIn(ReconcileStep(s, a).w, h.predecessor)
  {
    hide CanWrite, CompletedRecord, SupersededRecord, AfterWrite, ReconcileStage;
  }

  lemma FinishConfirms(s: State, p: Cid, h: Handover)
    requires Stands(s, p, Primary(FinishConfirming(h))) && !UpIn(s.w, h.predecessor)
    ensures var a := FinishConfirm(p, h, true);
            && ReconcileEnabled(s, a) && ReconcileStep(s, a).w == s.w
            && Stands(ReconcileStep(s, a), p, Primary(FinishWriting(h)))
  {
  }

  lemma FinishWrites(s: State, p: Cid, h: Handover)
    requires Stands(s, p, Primary(FinishWriting(h))) && Accepted(s.w.journal, CompletedRecord(h), s.w.now)
    ensures var a := FinishWrite(p, h, Reported);
            && ReconcileEnabled(s, a) && Stands(ReconcileStep(s, a), p, Primary(Idle))
            && ReconcileStep(s, a).w == Landed(s.w, CompletedRecord(h), "")
            && (UpIn(ReconcileStep(s, a).w, h.predecessor) <==> UpIn(s.w, h.predecessor))
  {
    hide Accepted, CompletedRecord;
  }

  lemma SupersedeWrites(s: State, p: Cid, h: Handover)
    requires Stands(s, p, Primary(SupersedeWriting(h))) && Accepted(s.w.journal, SupersededRecord(h), s.w.now)
    ensures var a := SupersedeWrite(p, h, Reported);
            && ReconcileEnabled(s, a) && Stands(ReconcileStep(s, a), p, Primary(Idle))
            && ReconcileStep(s, a).w == Landed(s.w, SupersededRecord(h), "")
  {
    hide Accepted, SupersededRecord, Landed;
  }

  /** The containers the end of a handover takes down: an aborted one's successor, a completed one's predecessor. */
  predicate Cleared(w: World, h: Handover, phase: Phase) {
    && (phase.Aborted? && h.successor != "" ==> h.successor !in w.boxes)
    && (phase.Completed? ==> !UpIn(w, h.predecessor))
  }

  /**
    * A primary that reconciles over an unfinished handover can end it, as `EndedAs` says, with what it
    * takes down down.
    */
  lemma APrimaryCanEndWhatItFinds(cfg: Config, s: State, p: Cid, h: Handover) returns (t: State)
    requires Stands(s, p, Primary(Reconciling)) && s.w.journal == Some(h) && s.w.now >= 0
    requires Valid(h) && !Terminal(h.phase) && RoleOf(Some(h), p).Candidate?
    ensures Leads(cfg, s, t) && Stands(t, p, Primary(Idle))
    ensures t.w.journal == EndedAs(h, p, s.w.now) && t.w.journal.Some? && Cleared(t.w, h, t.w.journal.value.phase)
  {
    hide Leads, Valid, Accepted, Stands, ReconcileEnabled, ReconcileStep, UpIn;
    KnowsItself(s, p, Primary(Reconciling));
    ReconcileEnds(h, p, s.w.now);
    WhoEnds(h, p);
    Stays(cfg, s);
    ReadsJournal(s, p, h);
    ReconcileThen(cfg, s, s, ReconcileRead(p, true));
    var t1 := ReconcileStep(s, ReconcileRead(p, true));
    var stage := ReconcileStage(Some(h), p);
    if stage.AbortFinding? {
      t := AnAbortCanBeWritten(cfg, s, t1, p, h, stage.reason);
    } else if stage.FinishChecking? {
      t := ASuccessorCanFinish(cfg, s, t1, p, h);
    } else {
      SupersedeWrites(t1, p, h);
      ReconcileThen(cfg, s, t1, SupersedeWrite(p, h, Reported));
      t := ReconcileStep(t1, SupersedeWrite(p, h, Reported));
    }
  }

  lemma KnowsItself(s: State, p: Cid, pc: Pc)
    requires Stands(s, p, pc)
    ensures p != ""
  {
  }

  lemma WhoEnds(h: Handover, p: Cid)
    requires Valid(h) && !Terminal(h.phase) && p != "" && RoleOf(Some(h), p).Candidate?
    ensures var stage := ReconcileStage(Some(h), p);
            && (stage.AbortFinding? ==> h.successor != p && stage == AbortFinding(h, "", true, stage.reason))
            && (stage.FinishChecking? ==> h.predecessor != p && stage == FinishChecking(h))
            && (stage.SupersedeWriting? ==> stage == SupersedeWriting(h))
  {
    hide ValidText, Preemption;
  }
}
