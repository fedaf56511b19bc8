/**
  * Why a run aborts a handover, and what it commits on: each abort is led back to what the process
  * that wrote it found, and each commit to what its process saw of the proof, the successor and the
  * agent (internal/upgrade/docker_handover.go waitStandby, abortHandover, commitHandover).
  */
module HandoverReasons {
  import opened Wrappers
  import opened HandoverJournal
  import opened HandoverModel
  import opened HandoverInvariant
  import opened HandoverOrigins
  import opened HandoverHistory
  import opened Runs = Handover

  // ----------------------------------------------------------------- aborts say why

  /** The process is aborting this handover, for this reason. */
  predicate IsAborting(s: State, p: Cid, h: Handover, reason: string) {
    p in s.procs && Aborts(s.procs[p].pc) == Some((h, reason))
  }

  /** From what it found at j on, the process had nothing to do but abort. */
  ghost predicate AbortsFrom(states: seq<State>, actions: seq<Action>, j: nat, i: nat, p: Cid, h: Handover,
                             reason: string) {
    && j < i < |states| && i <= |actions| && Grounds(states[j], actions[j], p, h, reason)
    && forall m :: j < m <= i ==> IsAborting(states[m], p, h, reason)
  }

  /** Whoever aborts a handover found grounds for it, those its reason gives, and has been at it since. */
  lemma {:induction false} AbortingHasGrounds(cfg: Config, states: seq<State>, actions: seq<Action>, i: nat, p: Cid,
                                              h: Handover, reason: string)
    requires Run(cfg, states, actions) && i < |states| && IsAborting(states[i], p, h, reason)
    ensures exists j :: AbortsFrom(states, actions, j, i, p, h, reason)
  {
    hide Follows, SetOut, Aborting, Watched, Aborts, Grounds;
    if i > 0 {
      var s, t, a := states[i - 1], states[i], actions[i - 1];
      assert Follows(cfg, s, t, a);
      StepOrigins(cfg, s, t, a);
      assert Origin(s, a, p, t.procs[p].pc);
      if IsAborting(s, p, h, reason) {
        AbortingHasGrounds(cfg, states, actions, i - 1, p, h, reason);
        var j :| AbortsFrom(states, actions, j, i - 1, p, h, reason);
        assert AbortsFrom(states, actions, j, i, p, h, reason);
      } else {
        assert AbortsFrom(states, actions, i - 1, i, p, h, reason);
      }
    }
  }

  lemma AbortWriteIsAnAbort(cfg: Config, s: State, a: Action)
    requires a.AbortWrite?
    ensures !EnvironmentEnabled(cfg, s, a) && !ServeEnabled(cfg, s, a) && !RetiredEnabled(s, a) && !StandbyEnabled(s, a)
    ensures !ReconcileEnabled(s, a) && !TidyEnabled(s, a) && !FollowEnabled(s, a) && !WaitEnabled(s, a)
    ensures AbortEnabled(s, a) ==> IsAborting(s, a.p, a.h, a.reason)
  {
    hide CanWrite;
  }

  lemma AbortWritesAtStage(cfg: Config, s: State, t: State, a: Action)
    requires Follows(cfg, s, t, a) && a.AbortWrite?
    ensures IsAborting(s, a.p, a.h, a.reason)
  {
    hide EnvironmentEnabled, EnvironmentStep, ServeEnabled, ServeStep, RetiredEnabled, RetiredStep, StandbyEnabled,
         StandbyStep, AbortEnabled, AbortStep, ReconcileEnabled, ReconcileStep, TidyEnabled, TidyStep, FollowEnabled,
         FollowStep, WaitEnabled, WaitStep, IsAborting;
    AbortWriteIsAnAbort(cfg, s, a);
  }

  lemma WhatAborts(w: World, a: Action)
    requires Writer(a).Some? && Written(w, a).record.phase.Aborted?
    ensures a.AbortWrite? || (a.WritePrepared? && a.h.phase.Aborted?)
    ensures a.AbortWrite? ==> Written(w, a) == Entry(AbortedRecord(a.h, a.reason, w.now), w.now, "")
  {
    hide NotBefore;
  }

  lemma OnlyAbortsAbort(cfg: Config, s: State, t: State, a: Action)
    requires Inv(cfg, s) && Follows(cfg, s, t, a) && Writer(a).Some? && Written(s.w, a).record.phase.Aborted?
    ensures a.AbortWrite? && IsAborting(s, a.p, a.h, a.reason)
    ensures Written(s.w, a) == Entry(AbortedRecord(a.h, a.reason, s.w.now), s.w.now, "")
  {
    hide Inv, Follows, Written, Writer, IsAborting, AbortedRecord;
    WhatAborts(s.w, a);
    if a.WritePrepared? {
      PreparesPrepared(cfg, s, t, a);
    } else {
      AbortWritesAtStage(cfg, s, t, a);
    }
  }

  /** The grounds found at j and the write at n that made this entry. */
  ghost predicate AbortMade(states: seq<State>, actions: seq<Action>, j: nat, n: nat, e: Entry) {
    && n < |actions| && actions[n].AbortWrite? && !actions[n].write.Lost?
    && AbortsFrom(states, actions, j, n, actions[n].p, actions[n].h, actions[n].reason)
    && e == Entry(AbortedRecord(actions[n].h, actions[n].reason, states[n].w.now), states[n].w.now, "")
  }

  /**
    * Every abort a run ever wrote says why: it was written by the process that, at an earlier point of
    * the run, found what its reason says, and that did nothing but abort since.
    */
  lemma AbortsSayWhy(cfg: Config, states: seq<State>, actions: seq<Action>, i: nat, k: nat)
    requires Run(cfg, states, actions) && i < |states| && k < |states[i].w.log|
             && states[i].w.log[k].record.phase.Aborted?
    ensures exists j, n :: 0 <= j < n < i && AbortMade(states, actions, j, n, states[i].w.log[k])
  {
    hide Follows, Inv, Writer, Written, IsAborting, AbortedRecord, Grounds;
    EntriesAreWritten(cfg, states, actions, i, k);
    var n :| 0 <= n < i && WrittenBy(states, actions, n, k, states[i].w.log[k]);
    var a := actions[n];
    assert Follows(cfg, states[n], states[n + 1], a);
    RunKeeps(cfg, states, actions, n);
    OnlyAbortsAbort(cfg, states[n], states[n + 1], a);
    AbortingHasGrounds(cfg, states, actions, n, a.p, a.h, a.reason);
    var j :| AbortsFrom(states, actions, j, n, a.p, a.h, a.reason);
    assert AbortMade(states, actions, j, n, states[i].w.log[k]);
  }

  // ----------------------------------------------- a pre-emption is an agent's request

  /** The process read the request slot for the handover, and could not, or found another request there. */
  predicate FoundRequest(s: State, a: Action, p: Cid, h: Handover) {
    && (a.ReadSlotFirst? || a.ReadSlotLast?) && a.p == p && a.h == h
    && (!a.readable || s.w.slot != h.requestDigest)
  }

  lemma GivingUpIsNoPreemption(stage: Stage, h: Handover, reason: string)
    requires MayGiveUp(stage, h, reason)
    ensures !Preemption(reason)
  {
    hide Preemption;
    assert DIFFERS[0] == 's';
    BeginsOtherwise(reason);
  }

  lemma OtherReasons()
    ensures Preemption(PREEMPTED)
    ensures !Preemption("successor disappeared") && !Preemption("the agent was replaced")
    ensures !Preemption("the commit could not be recorded") && !Preemption("successor could not be created")
    ensures !Preemption("successor could not be recorded") && !Preemption("successor could not be started")
    ensures !Preemption("interrupted") && !Preemption("another updater holds the lock")
  {
    assert PREEMPTED[0] == 'p';
  }

  lemma WaitGroundsOfPreemption(s: State, a: Action, p: Cid, h: Handover, reason: string)
    requires WaitGrounds(s.w, a, p, h, reason)
    ensures Preemption(reason) <==> FoundRequest(s, a, p, h)
  {
    hide SameAgent, Preemption;
    OtherReasons();
  }

  lemma StartGroundsAreNoPreemption(a: Action, p: Cid, h: Handover, reason: string)
    requires StartGrounds(a, p, h, reason)
    ensures !Preemption(reason)
  {
    hide MayGiveUp, Preemption;
    if a.GiveUp? {
      GivingUpIsNoPreemption(a.stage, h, reason);
    }
    OtherReasons();
  }

  lemma OtherGroundsAreNoPreemption(s: State, a: Action, p: Cid, h: Handover, reason: string)
    requires StartGrounds(a, p, h, reason) || JournalGrounds(s, a, p, h, reason)
    ensures !Preemption(reason)
  {
    hide StartGrounds, Preemption, SelfOf;
    if StartGrounds(a, p, h, reason) {
      StartGroundsAreNoPreemption(a, p, h, reason);
    }
    OtherReasons();
  }

  lemma OtherGroundsFindNoRequest(s: State, a: Action, p: Cid, h: Handover, reason: string)
    requires StartGrounds(a, p, h, reason) || JournalGrounds(s, a, p, h, reason)
    ensures !FoundRequest(s, a, p, h)
  {
    hide MayGiveUp, SelfOf;
  }

  lemma GroundsOfPreemption(s: State, a: Action, p: Cid, h: Handover, reason: string)
    requires Grounds(s, a, p, h, reason)
    ensures Preemption(reason) <==> FoundRequest(s, a, p, h)
  {
    hide WaitGrounds, StartGrounds, JournalGrounds, Preemption, FoundRequest;
    if WaitGrounds(s.w, a, p, h, reason) {
      WaitGroundsOfPreemption(s, a, p, h, reason);
    } else {
      OtherGroundsAreNoPreemption(s, a, p, h, reason);
      OtherGroundsFindNoRequest(s, a, p, h, reason);
    }
  }

  /**
    * An abort a run ever wrote is recorded as a pre-emption exactly if it was begun by a reading of the
    * request slot that found it unreadable, or not as the handover was prepared on. So only an abort
    * that gave way to a request is not counted as a failure and not waited after.
    */
  lemma PreemptionsAreRequests(cfg: Config, states: seq<State>, actions: seq<Action>, i: nat, k: nat)
    requires Run(cfg, states, actions) && i < |states| && k < |states[i].w.log|
             && states[i].w.log[k].record.phase.Aborted?
    ensures exists j, n ::
              && 0 <= j < n < i && AbortMade(states, actions, j, n, states[i].w.log[k])
              && (Preemption(states[i].w.log[k].record.reason)
                  <==> FoundRequest(states[j], actions[j], actions[n].p, actions[n].h))
  {
    hide Run, IsAborting, Grounds, FoundRequest, Preemption;
    AbortsSayWhy(cfg, states, actions, i, k);
    var j, n :| 0 <= j < n < i && AbortMade(states, actions, j, n, states[i].w.log[k]);
    GroundsOfPreemption(states[j], actions[j], actions[n].p, actions[n].h, actions[n].reason);
  }

  // ------------------------------------------------------ and a request is a pre-emption

  lemma ReadingIsAWait(cfg: Config, s: State, a: Action)
    requires a.ReadSlotFirst? || a.ReadSlotLast?
    ensures !EnvironmentEnabled(cfg, s, a) && !ServeEnabled(cfg, s, a) && !RetiredEnabled(s, a) && !StandbyEnabled(s, a)
    ensures !AbortEnabled(s, a) && !ReconcileEnabled(s, a) && !TidyEnabled(s, a) && !FollowEnabled(s, a)
  {
    hide At, CanWrite;
  }

  lemma ReadingAborts(s: State, a: Action, p: Cid, h: Handover)
    requires WaitEnabled(s, a) && FoundRequest(s, a, p, h)
    ensures IsAborting(WaitStep(s, a), p, h, PREEMPTED)
  {
  }

  lemma RequestAborts(cfg: Config, s: State, t: State, a: Action, p: Cid, h: Handover)
    requires Follows(cfg, s, t, a) && FoundRequest(s, a, p, h)
    ensures IsAborting(t, p, h, PREEMPTED)
  {
    hide EnvironmentEnabled, EnvironmentStep, ServeEnabled, ServeStep, RetiredEnabled, RetiredStep, StandbyEnabled,
         StandbyStep, AbortEnabled, AbortStep, ReconcileEnabled, ReconcileStep, TidyEnabled, TidyStep, FollowEnabled,
         FollowStep, WaitEnabled, WaitStep, IsAborting;
    ReadingIsAWait(cfg, s, a);
    ReadingAborts(s, a, p, h);
  }

  /** Nobody but this process moved, and nobody but it appeared. */
  ghost predicate OnlyMoves(s: State, t: State, p: Cid) {
    forall q :: q in t.procs && q != p ==> q in s.procs && t.procs[q].pc == s.procs[q].pc
  }

  lemma ServeMoves(cfg: Config, s: State, a: Action)
    requires ServeEnabled(cfg, s, a)
    ensures OnlyMoves(s, ServeStep(s, a), a.p) && (a.p in s.procs ==> Aborts(s.procs[a.p].pc).None?)
  {
    hide RolePc, AlonePc, AfterPredecessor, AfterSuccessor, RoleOf, SelfOf, Locked, Released, Reading;
  }

  lemma ServeActor(cfg: Config, s: State, a: Action) returns (q: Cid)
    requires ServeEnabled(cfg, s, a)
    ensures OnlyMoves(s, ServeStep(s, a), q) && (q in s.procs ==> Aborts(s.procs[q].pc).None?)
  {
    hide ServeStep, OnlyMoves, Aborts, At;
    ServeMoves(cfg, s, a);
    q := a.p;
  }

  lemma RetiredMoves(s: State, a: Action)
    requires RetiredEnabled(s, a)
    ensures OnlyMoves(s, RetiredStep(s, a), a.p) && (a.p in s.procs ==> Aborts(s.procs[a.p].pc).None?)
  {
    hide CanWrite, RevertedRecord, AfterWrite, SelfOf, Locked, Released, StillReclaimable, Freed, WithBox, WithoutBox;
  }

  lemma RetiredActor(s: State, a: Action) returns (q: Cid)
    requires RetiredEnabled(s, a)
    ensures OnlyMoves(s, RetiredStep(s, a), q) && (q in s.procs ==> Aborts(s.procs[q].pc).None?)
  {
    hide RetiredStep, OnlyMoves, Aborts, At, CanWrite;
    RetiredMoves(s, a);
    q := a.p;
  }

  lemma StandbyMoves(s: State, a: Action)
    requires StandbyEnabled(s, a)
    ensures OnlyMoves(s, StandbyStep(s, a), a.p) && (a.p in s.procs ==> Aborts(s.procs[a.p].pc).None?)
  {
    hide CanWrite, AbandonedRecord, AfterWrite, SelfOf, Locked, Released, StillAbandonable, PassesStandbyChecks, Misses;
  }

  lemma StandbyActor(s: State, a: Action) returns (q: Cid)
    requires StandbyEnabled(s, a)
    ensures OnlyMoves(s, StandbyStep(s, a), q) && (q in s.procs ==> Aborts(s.procs[q].pc).None?)
  {
    hide StandbyStep, OnlyMoves, Aborts, At, CanWrite, PassesStandbyChecks;
    StandbyMoves(s, a);
    q := a.p;
  }

  lemma ReconcileMoves(s: State, a: Action)
    requires ReconcileEnabled(s, a)
    ensures OnlyMoves(s, ReconcileStep(s, a), a.p) && (a.p in s.procs ==> Aborts(s.procs[a.p].pc).None?)
  {
    hide CanWrite, CompletedRecord, SupersededRecord, AfterWrite, SelfOf, ReconcileStage, UpIn, Freed, WithBox;
  }

  lemma ReconcileActor(s: State, a: Action) returns (q: Cid)
    requires ReconcileEnabled(s, a)
    ensures OnlyMoves(s, ReconcileStep(s, a), q) && (q in s.procs ==> Aborts(s.procs[q].pc).None?)
  {
    hide ReconcileStep, OnlyMoves, Aborts, At, CanWrite;
    ReconcileMoves(s, a);
    q := a.p;
  }

  lemma TidyMoves(s: State, a: Action)
    requires TidyEnabled(s, a)
    ensures OnlyMoves(s, TidyStep(s, a), a.p) && (a.p in s.procs ==> Aborts(s.procs[a.p].pc).None?)
  {
    hide Freed, WithBox, WithoutBox, Leftovers, Terminal, Renamed;
  }

  lemma TidyActor(s: State, a: Action) returns (q: Cid)
    requires TidyEnabled(s, a)
    ensures OnlyMoves(s, TidyStep(s, a), q) && (q in s.procs ==> Aborts(s.procs[q].pc).None?)
  {
    hide TidyStep, OnlyMoves, Aborts, At, Terminal;
    TidyMoves(s, a);
    q := a.p;
  }

  lemma FollowMoves(s: State, a: Action)
    requires FollowEnabled(s, a)
    ensures OnlyMoves(s, FollowStep(s, a), a.p) && (a.p in s.procs ==> Aborts(s.procs[a.p].pc).None?)
  {
    hide CanWrite, Eligible, IsWhatWasCreated, MayGiveUp, SlotIsIdle, Made, Started, AfterWrite, CreatedRecord,
         AfterCreating, AfterRecording, AfterStarting;
    if a.GiveUp? {
      GivesUpWaiting(a.stage, a.h, a.reason);
    }
  }

  lemma FollowActor(s: State, a: Action) returns (q: Cid)
    requires FollowEnabled(s, a)
    ensures OnlyMoves(s, FollowStep(s, a), q) && (q in s.procs ==> Aborts(s.procs[q].pc).None?)
  {
    hide FollowStep, OnlyMoves, Aborts, At, CanWrite, Eligible, IsWhatWasCreated, MayGiveUp, SlotIsIdle;
    FollowMoves(s, a);
    q := a.p;
  }

  lemma GivesUpWaiting(stage: Stage, h: Handover, reason: string)
    requires MayGiveUp(stage, h, reason)
    ensures Aborts(Primary(stage)).None?
  {
  }

  lemma WaitMoves(s: State, a: Action)
    requires WaitEnabled(s, a)
    ensures OnlyMoves(s, WaitStep(s, a), a.p) && (a.p in s.procs ==> Aborts(s.procs[a.p].pc).None?)
  {
    hide CanWrite, AfterCommit, AfterCommitting, ProofFor, UpIn, Released, RequestChanged;
  }

  lemma WaitActor(s: State, a: Action) returns (q: Cid)
    requires WaitEnabled(s, a)
    ensures OnlyMoves(s, WaitStep(s, a), q) && (q in s.procs ==> Aborts(s.procs[q].pc).None?)
  {
    hide WaitStep, OnlyMoves, Aborts, At, CanWrite;
    WaitMoves(s, a);
    q := a.p;
  }

  /** What an abort does its process goes on with, until it writes. */
  lemma AbortMoves(s: State, a: Action)
    requires AbortEnabled(s, a)
    ensures OnlyMoves(s, AbortStep(s, a), a.p)
    ensures a.p in AbortStep(s, a).procs && !a.AbortWrite? ==>
              a.p in s.procs && Aborts(AbortStep(s, a).procs[a.p].pc) == Aborts(s.procs[a.p].pc)
  {
    hide CanWrite, AbortedRecord, AfterWrite, AbortTarget, UnmistakablySuccessor, Freed, WithBox, WithoutBox;
  }

  lemma EnvironmentMoves(cfg: Config, s: State, a: Action, q: Cid)
    requires EnvironmentEnabled(cfg, s, a) && q in s.procs && q in EnvironmentStep(s, a).procs
    ensures EnvironmentStep(s, a).procs[q].pc == s.procs[q].pc
  {
    hide Outdoors, Freed, WithBox, WithoutBox, Made, Started;
  }

  /** What another process does, one at no abort, leaves an abort alone. */
  lemma OthersLeaveIt(s: State, t: State, q: Cid, p: Cid, h: Handover, reason: string)
    requires OnlyMoves(s, t, q) && (q in s.procs ==> Aborts(s.procs[q].pc).None?)
    requires IsAborting(s, p, h, reason) && p in t.procs
    ensures IsAborting(t, p, h, reason)
  {
    hide Aborts;
  }

  lemma AbortGoesOn(s: State, a: Action, p: Cid, h: Handover, reason: string)
    requires AbortEnabled(s, a) && IsAborting(s, p, h, reason) && p in AbortStep(s, a).procs
    requires !(a.AbortWrite? && a.p == p)
    ensures IsAborting(AbortStep(s, a), p, h, reason)
  {
    hide AbortEnabled, AbortStep, Aborts;
    AbortMoves(s, a);
  }

  lemma PrimaryLeavesIt(s: State, t: State, a: Action, p: Cid, h: Handover, reason: string)
    requires || (ReconcileEnabled(s, a) && t == ReconcileStep(s, a)) || (TidyEnabled(s, a) && t == TidyStep(s, a))
             || (FollowEnabled(s, a) && t == FollowStep(s, a)) || (WaitEnabled(s, a) && t == WaitStep(s, a))
    requires IsAborting(s, p, h, reason) && p in t.procs
    ensures IsAborting(t, p, h, reason)
  {
    hide ReconcileEnabled, ReconcileStep, TidyEnabled, TidyStep, FollowEnabled, FollowStep, WaitEnabled, WaitStep,
         OnlyMoves, IsAborting, Aborts;
    var q;
    if ReconcileEnabled(s, a) && t == ReconcileStep(s, a) {
      q := ReconcileActor(s, a);
    } else if TidyEnabled(s, a) && t == TidyStep(s, a) {
      q := TidyActor(s, a);
    } else if FollowEnabled(s, a) && t == FollowStep(s, a) {
      q := FollowActor(s, a);
    } else {
      q := WaitActor(s, a);
    }
    OthersLeaveIt(s, t, q, p, h, reason);
  }

  lemma RoleLeavesIt(cfg: Config, s: State, t: State, a: Action, p: Cid, h: Handover, reason: string)
    requires || (ServeEnabled(cfg, s, a) && t == ServeStep(s, a)) || (RetiredEnabled(s, a) && t == RetiredStep(s, a))
             || (StandbyEnabled(s, a) && t == StandbyStep(s, a))
    requires IsAborting(s, p, h, reason) && p in t.procs
    ensures IsAborting(t, p, h, reason)
  {
    hide ServeEnabled, ServeStep, RetiredEnabled, RetiredStep, StandbyEnabled, StandbyStep, OnlyMoves, IsAborting,
         Aborts;
    var q;
    if ServeEnabled(cfg, s, a) && t == ServeStep(s, a) {
      q := ServeActor(cfg, s, a);
    } else if RetiredEnabled(s, a) && t == RetiredStep(s, a) {
      q := RetiredActor(s, a);
    } else {
      q := StandbyActor(s, a);
    }
    OthersLeaveIt(s, t, q, p, h, reason);
  }

  /** A process at an abort stays at it, unless it writes the abort or ends. */
  lemma GoesOnAborting(cfg: Config, s: State, t: State, a: Action, p: Cid, h: Handover, reason: string)
    requires Follows(cfg, s, t, a) && IsAborting(s, p, h, reason) && p in t.procs && !(a.AbortWrite? && a.p == p)
    ensures IsAborting(t, p, h, reason)
  {
    hide EnvironmentEnabled, EnvironmentStep, ServeEnabled, ServeStep, RetiredEnabled, RetiredStep, StandbyEnabled,
         StandbyStep, AbortEnabled, AbortStep, ReconcileEnabled, ReconcileStep, TidyEnabled, TidyStep, FollowEnabled,
         FollowStep, WaitEnabled, WaitStep, Aborts;
    if EnvironmentEnabled(cfg, s, a) && t == EnvironmentStep(s, a) {
      EnvironmentMoves(cfg, s, a, p);
    } else if AbortEnabled(s, a) && t == AbortStep(s, a) {
      AbortGoesOn(s, a, p, h, reason);
    } else if || (ServeEnabled(cfg, s, a) && t == ServeStep(s, a)) || (RetiredEnabled(s, a) && t == RetiredStep(s, a))
              || (StandbyEnabled(s, a) && t == StandbyStep(s, a)) {
      RoleLeavesIt(cfg, s, t, a, p, h, reason);
    } else {
      PrimaryLeavesIt(s, t, a, p, h, reason);
    }
  }

  /** The process lived from j to n, and wrote no abort in between. */
  ghost predicate HadNotWritten(states: seq<State>, actions: seq<Action>, j: nat, n: nat, p: Cid) {
    && j < n < |states| && n <= |actions|
    && (forall m :: j < m <= n ==> p in states[m].procs)
    && forall m :: j < m < n ==> !(actions[m].AbortWrite? && actions[m].p == p)
  }

  /**
    * The other way around: whoever finds the request slot changed while it waits aborts that handover
    * as pre-empted, and what it writes next, if it lives to, says so.
    */
  lemma {:induction false} RequestsPreempt(cfg: Config, states: seq<State>, actions: seq<Action>, j: nat, n: nat,
                                           p: Cid, h: Handover)
    requires Run(cfg, states, actions) && HadNotWritten(states, actions, j, n, p)
    requires FoundRequest(states[j], actions[j], p, h)
    ensures IsAborting(states[n], p, h, PREEMPTED)
    ensures n < |actions| && actions[n].AbortWrite? && actions[n].p == p ==>
              actions[n].h == h && Preemption(actions[n].reason)
    decreases n
  {
    hide Follows, IsAborting, FoundRequest;
    assert Follows(cfg, states[n - 1], states[n], actions[n - 1]);
    if n == j + 1 {
      RequestAborts(cfg, states[j], states[n], actions[j], p, h);
    } else {
      RequestsPreempt(cfg, states, actions, j, n - 1, p, h);
      GoesOnAborting(cfg, states[n - 1], states[n], actions[n - 1], p, h, PREEMPTED);
    }
    if n < |actions| && actions[n].AbortWrite? && actions[n].p == p {
      assert Follows(cfg, states[n], states[n + 1], actions[n]);
      AbortWritesAtStage(cfg, states[n], states[n + 1], actions[n]);
      OneAbortAtATime(states[n], p, h, PREEMPTED, actions[n].h, actions[n].reason);
    }
  }

  lemma OneAbortAtATime(s: State, p: Cid, h: Handover, reason: string, g: Handover, other: string)
    requires IsAborting(s, p, h, reason) && IsAborting(s, p, g, other)
    ensures g == h && other == reason
  {
    hide Aborts;
  }

  // ------------------------------------------------------------ what a commit rests on

  /** At j the process read the handover's proof, and it remembered that until i. */
  ghost predicate ProofSince(states: seq<State>, actions: seq<Action>, j: nat, i: nat, p: Cid, h: Handover) {
    && j < i < |states| && i <= |actions| && ProofRead(states[j], actions[j], p, h)
    && forall m :: j < m <= i ==> p in states[m].procs && SawProof(states[m].procs[p].pc) == Some(h)
  }

  /** At j it found the successor up, in the pass it was still at until i. */
  ghost predicate UpSince(states: seq<State>, actions: seq<Action>, j: nat, i: nat, p: Cid, h: Handover) {
    && j < i < |states| && i <= |actions| && FoundUp(states[j], actions[j], p, h)
    && forall m :: j < m <= i ==> p in states[m].procs && SawUp(states[m].procs[p].pc) == Some(h)
  }

  /** At j it found the agent to be the handover's, in the pass it was still at until i. */
  ghost predicate AgentSince(states: seq<State>, actions: seq<Action>, j: nat, i: nat, p: Cid, h: Handover) {
    && j < i < |states| && i <= |actions| && FoundAgent(states[j], actions[j], p, h)
    && forall m :: j < m <= i ==> p in states[m].procs && SawAgent(states[m].procs[p].pc) == Some(h)
  }

  lemma {:induction false} ProofWasRead(cfg: Config, states: seq<State>, actions: seq<Action>, i: nat, p: Cid,
                                        h: Handover)
    requires Run(cfg, states, actions) && i < |states|
    requires p in states[i].procs && SawProof(states[i].procs[p].pc) == Some(h)
    ensures exists j :: ProofSince(states, actions, j, i, p, h)
  {
    hide Follows, SetOut, Aborting, Reasoned, SawProof, SawUp, SawAgent, ProofRead, FoundUp, FoundAgent;
    if i > 0 {
      var s, t, a := states[i - 1], states[i], actions[i - 1];
      assert Follows(cfg, s, t, a);
      StepOrigins(cfg, s, t, a);
      assert Origin(s, a, p, t.procs[p].pc);
      if p in s.procs && SawProof(s.procs[p].pc) == Some(h) {
        ProofWasRead(cfg, states, actions, i - 1, p, h);
        var j :| ProofSince(states, actions, j, i - 1, p, h);
        assert ProofSince(states, actions, j, i, p, h);
      } else {
        assert ProofSince(states, actions, i - 1, i, p, h);
      }
    }
  }

  lemma {:induction false} UpWasFound(cfg: Config, states: seq<State>, actions: seq<Action>, i: nat, p: Cid,
                                      h: Handover)
    requires Run(cfg, states, actions) && i < |states|
    requires p in states[i].procs && SawUp(states[i].procs[p].pc) == Some(h)
    ensures exists j :: UpSince(states, actions, j, i, p, h)
  {
    hide Follows, SetOut, Aborting, Reasoned, SawProof, SawUp, SawAgent, ProofRead, FoundUp, FoundAgent;
    if i > 0 {
      var s, t, a := states[i - 1], states[i], actions[i - 1];
      assert Follows(cfg, s, t, a);
      StepOrigins(cfg, s, t, a);
      assert Origin(s, a, p, t.procs[p].pc);
      if p in s.procs && SawUp(s.procs[p].pc) == Some(h) {
        UpWasFound(cfg, states, actions, i - 1, p, h);
        var j :| UpSince(states, actions, j, i - 1, p, h);
        assert UpSince(states, actions, j, i, p, h);
      } else {
        assert UpSince(states, actions, i - 1, i, p, h);
      }
    }
  }

  lemma {:induction false} AgentWasFound(cfg: Config, states: seq<State>, actions: seq<Action>, i: nat, p: Cid,
                                         h: Handover)
    requires Run(cfg, states, actions) && i < |states|
    requires p in states[i].procs && SawAgent(states[i].procs[p].pc) == Some(h)
    ensures exists j :: AgentSince(states, actions, j, i, p, h)
  {
    hide Follows, SetOut, Aborting, Reasoned, SawProof, SawUp, SawAgent, ProofRead, FoundUp, FoundAgent;
    if i > 0 {
      var s, t, a := states[i - 1], states[i], actions[i - 1];
      assert Follows(cfg, s, t, a);
      StepOrigins(cfg, s, t, a);
      assert Origin(s, a, p, t.procs[p].pc);
      if p in s.procs && SawAgent(s.procs[p].pc) == Some(h) {
        AgentWasFound(cfg, states, actions, i - 1, p, h);
        var j :| AgentSince(states, actions, j, i - 1, p, h);
        assert AgentSince(states, actions, j, i, p, h);
      } else {
        assert AgentSince(states, actions, i - 1, i, p, h);
      }
    }
  }

  /** The write at n made this entry, and rests on all three. */
  ghost predicate CommitRests(states: seq<State>, actions: seq<Action>, n: nat, e: Entry) {
    && n < |actions| && n < |states| && actions[n].WriteCommitted? && !actions[n].write.Lost?
    && e == Entry(CommittedRecord(actions[n].h), states[n].w.now, actions[n].read)
    && (exists j :: ProofSince(states, actions, j, n, actions[n].p, actions[n].h))
    && (exists j :: UpSince(states, actions, j, n, actions[n].p, actions[n].h))
    && (exists j :: AgentSince(states, actions, j, n, actions[n].p, actions[n].h))
  }

  lemma CommittingSaw(s: State, p: Cid, h: Handover, read: string)
    requires AtStage(s, p, Committing(h, read))
    ensures p in s.procs && SawProof(s.procs[p].pc) == SawUp(s.procs[p].pc) == SawAgent(s.procs[p].pc) == Some(h)
  {
  }

  /**
    * Every commit a run ever wrote was written by a process that had read the successor's own proof of
    * that handover, and that in the pass of its wait that led to the commit had found the successor up
    * and the agent to be the container and image the handover is about.
    */
  lemma CommitsSawTheirSuccessor(cfg: Config, states: seq<State>, actions: seq<Action>, i: nat, k: nat)
    requires Run(cfg, states, actions) && i < |states| && k < |states[i].w.log|
             && states[i].w.log[k].record.phase.Committed?
    ensures exists n :: 0 <= n < i && CommitRests(states, actions, n, states[i].w.log[k])
  {
    hide Run, SawProof, SawUp, SawAgent, CommittedRecord, CommitsFrom, ProofSince, UpSince, AgentSince;
    CommitsReadTheSlot(cfg, states, actions, i, k);
    var j, n :| 0 <= j < n < i && CommitMade(states, actions, j, n, states[i].w.log[k]);
    var a := actions[n];
    CommitsWhere(states, actions, j, n, a.p, a.h, a.read);
    CommittingSaw(states[n], a.p, a.h, a.read);
    ProofWasRead(cfg, states, actions, n, a.p, a.h);
    UpWasFound(cfg, states, actions, n, a.p, a.h);
    AgentWasFound(cfg, states, actions, n, a.p, a.h);
    assert CommitRests(states, actions, n, states[i].w.log[k]);
  }

  lemma CommitsWhere(states: seq<State>, actions: seq<Action>, j: nat, n: nat, p: Cid, h: Handover, read: string)
    requires CommitsFrom(states, actions, j, n, p, h, read)
    ensures n < |states| && AtStage(states[n], p, Committing(h, read))
  {
    hide ReadLast;
  }
}
