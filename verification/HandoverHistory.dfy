/**
  * What the tokens of a run stand for: each pass is led back to the standby check
  * that earned it, and each commit to the reading of the request slot it went on.
  */
module HandoverHistory {
  import opened Wrappers
  import opened VersionOrder
  import opened HandoverJournal
  import opened HandoverModel
  import opened HandoverInvariant
  import opened HandoverWorld
  import opened HandoverSteps
  import opened HandoverOrigins
  import opened Runs = Handover

  // ------------------------------------------------------------- passes are earned

  /** This action was the standby check that earned the pass: every check held of the world it was made in. */
  predicate Earned(s: State, a: Action, x: Pass) {
    a.StandbyCheck? && x == Pass(a.h.id, a.p, a.h.version) && Stood(s, a.p, a.h) && PassesStandbyChecks(s.w, a.p, a.h)
  }

  lemma CheckEarns(cfg: Config, s: State, t: State, a: Action)
    requires Follows(cfg, s, t, a) && a.StandbyCheck?
    ensures Earned(s, a, Pass(a.h.id, a.p, a.h.version))
  {
    hide EnvironmentStep, ServeStep, RetiredStep, StandbyStep, AbortStep, ReconcileStep, TidyStep, FollowStep, WaitStep,
         PassesStandbyChecks;
  }

  /**
    * In every run, each pass was earned: some earlier standby check of that successor, for that
    * handover, found every check to hold.
    */
  lemma {:induction false} PassesAreEarned(cfg: Config, states: seq<State>, actions: seq<Action>, i: nat, x: Pass)
    requires Run(cfg, states, actions) && i < |states| && x in states[i].w.passed
    ensures exists j :: 0 <= j < i && Earned(states[j], actions[j], x)
  {
    hide Follows, Earned, Extends;
    if i > 0 {
      var s, t, a := states[i - 1], states[i], actions[i - 1];
      assert Follows(cfg, s, t, a);
      StepExtends(cfg, s, t, a);
      NotedOnce(s, t, a, x);
      if x in s.w.passed {
        PassesAreEarned(cfg, states, actions, i - 1, x);
      } else {
        CheckEarns(cfg, s, t, a);
      }
    }
  }

  lemma NotedOnce(s: State, t: State, a: Action, x: Pass)
    requires Extends(s, t, a) && x in t.w.passed
    ensures x in s.w.passed || (a.StandbyCheck? && x == Pass(a.h.id, a.p, a.h.version))
  {
    hide Records;
  }

  ghost predicate InLog(log: seq<Entry>, h: Handover) {
    exists k :: 0 <= k < |log| && log[k].record == h
  }

  lemma StaysInLog(log: seq<Entry>, more: seq<Entry>, h: Handover)
    requires InLog(log, h) && log <= more
    ensures InLog(more, h)
  {
    var k :| 0 <= k < |log| && log[k].record == h;
    assert more[k].record == h;
  }

  lemma JournalIsInLog(cfg: Config, s: State)
    requires Inv(cfg, s) && s.w.journal.Some?
    ensures InLog(s.w.log, s.w.journal.value)
  {
    hide Inv;
    LastIsJournal(cfg, s);
  }

  /** A successor stands for a handover the journal recorded. */
  lemma {:induction false} StandsForARecord(cfg: Config, states: seq<State>, actions: seq<Action>, i: nat, p: Cid,
                                            h: Handover)
    requires Run(cfg, states, actions) && i < |states| && Stood(states[i], p, h)
    ensures InLog(states[i].w.log, h)
  {
    hide Follows, Inv, InLog, StandsFor, ReadLast, Aborting, Reasoned, Watched, ReadBack, Judged;
    if i > 0 {
      var s, t, a := states[i - 1], states[i], actions[i - 1];
      assert Follows(cfg, s, t, a);
      StepOrigins(cfg, s, t, a);
      assert Origin(s, a, p, t.procs[p].pc);
      RunExtends(cfg, states, actions, i - 1, i);
      if Stood(s, p, h) {
        StandsForARecord(cfg, states, actions, i - 1, p, h);
      } else {
        RunKeeps(cfg, states, actions, i - 1);
        JournalIsInLog(cfg, s);
      }
      StaysInLog(s.w.log, t.w.log, h);
    }
  }

  /** The successor is the build the handover is about, and the agent runs as the container it is about. */
  predicate StoodTheTest(w: World, h: Handover) {
    Builds(w, h.successor, h.image, h.version) && w.agent.running && w.agent.id == h.agentContainer
  }

  /**
    * Every record a run ever wrote that says its successor was proven is about a
    * successor that, at some earlier point of the run, passed every standby check of
    * that very handover: its own build, and the agent running as the container the
    * handover is about.
    */
  lemma ProofWasEarned(cfg: Config, states: seq<State>, actions: seq<Action>, i: nat, k: nat)
    requires Run(cfg, states, actions) && i < |states| && k < |states[i].w.log|
             && CarriesProof(states[i].w.log[k].record.phase)
    ensures var h := states[i].w.log[k].record;
            exists j :: 0 <= j < i && actions[j].StandbyCheck? && actions[j].p == h.successor
                        && Identity(actions[j].h) == Identity(h) && StoodTheTest(states[j].w, h)
  {
    hide Run, CarriesProof, Identity, PassesStandbyChecks, Builds, Newer, SlotIsIdle, Stood, StoodTheTest;
    var h := states[i].w.log[k].record;
    OnlyProvenSuccessors(cfg, states, actions, i, k);
    PassesAreEarned(cfg, states, actions, i, Pass(h.id, h.successor, h.version));
    RunLengths(cfg, states, actions);
    var j :| 0 <= j < i && Earned(states[j], actions[j], Pass(h.id, h.successor, h.version));
    var g := actions[j].h;
    StandsForARecord(cfg, states, actions, j, actions[j].p, g);
    RunExtends(cfg, states, actions, j, i);
    SameHandover(cfg, states, actions, i, j, k, g);
    ChecksAreOfTheHandover(states[j].w, g, h);
  }

  lemma RunLengths(cfg: Config, states: seq<State>, actions: seq<Action>)
    requires Run(cfg, states, actions)
    ensures |states| == |actions| + 1
  {
  }

  lemma SameHandover(cfg: Config, states: seq<State>, actions: seq<Action>, i: nat, j: nat, k: nat, g: Handover)
    requires Run(cfg, states, actions) && j <= i < |states| && k < |states[i].w.log|
             && states[i].w.log[k].record.id == g.id
    requires InLog(states[j].w.log, g) && states[j].w.log <= states[i].w.log
    ensures Identity(g) == Identity(states[i].w.log[k].record)
  {
    hide Run, Identity;
    var m: nat :| 0 <= m < |states[j].w.log| && states[j].w.log[m].record == g;
    assert states[i].w.log[m].record == g;
    if m < k {
      HandoversOnlyMoveForward(cfg, states, actions, i, m, k);
    } else if k < m {
      HandoversOnlyMoveForward(cfg, states, actions, i, k, m);
    }
  }

  lemma ChecksAreOfTheHandover(w: World, g: Handover, h: Handover)
    requires PassesStandbyChecks(w, h.successor, g) && Identity(g) == Identity(h)
    ensures StoodTheTest(w, h)
  {
    assert Identity(g).image == g.image && Identity(h).image == h.image;
    assert Identity(g).version == g.version && Identity(h).version == h.version;
    assert Identity(g).agentContainer == g.agentContainer && Identity(h).agentContainer == h.agentContainer;
  }

  // ----------------------------------------------------------- commits read the slot

  /** From the reading at j on, the process had nothing to do but commit. */
  ghost predicate CommitsFrom(states: seq<State>, actions: seq<Action>, j: nat, i: nat, p: Cid, h: Handover,
                              read: string) {
    && j < i < |states| && i <= |actions| && ReadLast(states[j], actions[j], p, h, read)
    && forall m :: j < m <= i ==> AtStage(states[m], p, Committing(h, read))
  }

  /** Whoever is about to commit has read the slot last, as the handover was prepared on, and done nothing since. */
  lemma {:induction false} CommittingHasRead(cfg: Config, states: seq<State>, actions: seq<Action>, i: nat, p: Cid,
                                             h: Handover, read: string)
    requires Run(cfg, states, actions) && i < |states| && AtStage(states[i], p, Committing(h, read))
    ensures exists j :: CommitsFrom(states, actions, j, i, p, h, read)
  {
    hide Follows, StandsFor, ReadLast, Aborting, Reasoned, Watched, ReadBack, Judged;
    if i > 0 {
      var s, t, a := states[i - 1], states[i], actions[i - 1];
      assert Follows(cfg, s, t, a);
      StepOrigins(cfg, s, t, a);
      assert Origin(s, a, p, t.procs[p].pc);
      if AtStage(s, p, Committing(h, read)) {
        CommittingHasRead(cfg, states, actions, i - 1, p, h, read);
        var j :| CommitsFrom(states, actions, j, i - 1, p, h, read);
        assert CommitsFrom(states, actions, j, i, p, h, read);
      } else {
        assert CommitsFrom(states, actions, i - 1, i, p, h, read);
      }
    }
  }

  // ------------------------------------------------------------- what an abort ends

  /** Whoever knows of a container for a handover made it and was told so. */
  lemma {:induction false} KnownWasMade(cfg: Config, states: seq<State>, actions: seq<Action>, i: nat, p: Cid,
                                        h: Handover, c: Cid)
    requires Run(cfg, states, actions) && i < |states|
    requires p in states[i].procs && Knows(states[i].procs[p].pc) == Some((h, c))
    ensures exists j :: 0 <= j < i && MadeIt(actions[j], p, h, c)
  {
    hide Follows, SetOut, Reasoned, Watched, Knows, Ends, MadeIt, Found;
    if i > 0 {
      var s, t, a := states[i - 1], states[i], actions[i - 1];
      assert Follows(cfg, s, t, a);
      StepOrigins(cfg, s, t, a);
      assert Origin(s, a, p, t.procs[p].pc);
      if p in s.procs && Knows(s.procs[p].pc) == Some((h, c)) {
        KnownWasMade(cfg, states, actions, i - 1, p, h, c);
      }
    }
  }

  /** Whoever is about to end a container for an abort set out to by looking for the successor. */
  lemma {:induction false} EndingWasFound(cfg: Config, states: seq<State>, actions: seq<Action>, i: nat, p: Cid,
                                          h: Handover, target: Cid)
    requires Run(cfg, states, actions) && i < |states|
    requires p in states[i].procs && Ends(states[i].procs[p].pc) == Some((h, target))
    ensures exists j :: 0 <= j < i && Found(states[j], actions[j], p, h, target)
  {
    hide Follows, SetOut, Reasoned, Watched, Knows, Ends, MadeIt, Found;
    if i > 0 {
      var s, t, a := states[i - 1], states[i], actions[i - 1];
      assert Follows(cfg, s, t, a);
      StepOrigins(cfg, s, t, a);
      assert Origin(s, a, p, t.procs[p].pc);
      if p in s.procs && Ends(s.procs[p].pc) == Some((h, target)) {
        EndingWasFound(cfg, states, actions, i - 1, p, h, target);
      }
    }
  }

  lemma AbortIsAnAbort(cfg: Config, s: State, a: Action)
    requires a.AbortStop? || a.AbortRemove?
    ensures !EnvironmentEnabled(cfg, s, a) && !ServeEnabled(cfg, s, a) && !RetiredEnabled(s, a) && !StandbyEnabled(s, a)
    ensures !ReconcileEnabled(s, a) && !TidyEnabled(s, a) && !FollowEnabled(s, a) && !WaitEnabled(s, a)
    ensures AbortEnabled(s, a) ==> a.p in s.procs && Ends(s.procs[a.p].pc) == Some((a.h, a.target))
  {
    hide CanWrite;
  }

  lemma AbortsAtStage(cfg: Config, states: seq<State>, actions: seq<Action>, i: nat)
    requires Run(cfg, states, actions) && i < |actions| && (actions[i].AbortStop? || actions[i].AbortRemove?)
    ensures |states| == |actions| + 1 && actions[i].p in states[i].procs
    ensures Ends(states[i].procs[actions[i].p].pc) == Some((actions[i].h, actions[i].target))
  {
    hide EnvironmentEnabled, EnvironmentStep, ServeEnabled, ServeStep, RetiredEnabled, RetiredStep, StandbyEnabled,
         StandbyStep, AbortEnabled, AbortStep, ReconcileEnabled, ReconcileStep, TidyEnabled, TidyStep, FollowEnabled,
         FollowStep, WaitEnabled, WaitStep, Ends, Init;
    assert Follows(cfg, states[i], states[i + 1], actions[i]);
    AbortIsAnAbort(cfg, states[i], actions[i]);
  }

  /** Under the handover's temporary name, of its image, and never started. */
  predicate LooksLikeIt(w: World, h: Handover, c: Cid) {
    && c in w.boxes && w.boxes[c].name == h.successorName && !w.boxes[c].started
    && c in w.ever && w.ever[c].image == h.image
  }

  /** At this step the process made the container for the handover and was told so, or found it to look like it. */
  predicate TellsSuccessor(s: State, a: Action, p: Cid, h: Handover, c: Cid) {
    MadeIt(a, p, h, c) || (a.AbortFind? && a.p == p && a.byName && LooksLikeIt(s.w, h, c))
  }

  /**
    * Whatever any run stops or removes to abort a handover is the successor the handover's record
    * names; or what that very process made for it and was told so; or what it found under the
    * handover's temporary name, of the handover's image and never started.
    */
  lemma AbortsEndOnlyTheirSuccessor(cfg: Config, states: seq<State>, actions: seq<Action>, i: nat)
    requires Run(cfg, states, actions) && i < |actions| && (actions[i].AbortStop? || actions[i].AbortRemove?)
    ensures actions[i].target == actions[i].h.successor
            || exists j :: 0 <= j < i && TellsSuccessor(states[j], actions[j], actions[i].p, actions[i].h,
                                                        actions[i].target)
  {
    hide Run, Ends, Knows, TellsSuccessor, Found;
    var p, h, target := actions[i].p, actions[i].h, actions[i].target;
    AbortsAtStage(cfg, states, actions, i);
    EndingWasFound(cfg, states, actions, i, p, h, target);
    var j :| 0 <= j < i && Found(states[j], actions[j], p, h, target);
    FoundWhat(states[j], actions[j], p, h, target);
    if p in states[j].procs && Knows(states[j].procs[p].pc) == Some((h, target)) {
      KnownWasMade(cfg, states, actions, j, p, h, target);
      var k :| 0 <= k < j && MadeIt(actions[k], p, h, target);
      MakingTells(states[k], actions[k], p, h, target);
    }
  }

  lemma MakingTells(s: State, a: Action, p: Cid, h: Handover, c: Cid)
    requires MadeIt(a, p, h, c)
    ensures TellsSuccessor(s, a, p, h, c)
  {
  }

  lemma FoundWhat(s: State, a: Action, p: Cid, h: Handover, target: Cid)
    requires Found(s, a, p, h, target)
    ensures target == h.successor || TellsSuccessor(s, a, p, h, target)
            || (p in s.procs && Knows(s.procs[p].pc) == Some((h, target)))
  {
    hide MadeIt;
  }

  // ------------------------------------------------------- what a successor is started as

  /** Whoever is about to start a successor read it back and found it to be what was asked for. */
  lemma {:induction false} StartingHasReadBack(cfg: Config, states: seq<State>, actions: seq<Action>, i: nat, p: Cid,
                                               h: Handover)
    requires Run(cfg, states, actions) && i < |states| && AtStage(states[i], p, StartingSuccessor(h))
    ensures exists j :: 0 <= j < i && ReadBack(states[j], actions[j], p, h)
  {
    hide Follows, StandsFor, ReadLast, Aborting, Reasoned, Watched, ReadBack, Judged;
    if i > 0 {
      var s, t, a := states[i - 1], states[i], actions[i - 1];
      assert Follows(cfg, s, t, a);
      StepOrigins(cfg, s, t, a);
      assert Origin(s, a, p, t.procs[p].pc);
      if AtStage(s, p, StartingSuccessor(h)) {
        StartingHasReadBack(cfg, states, actions, i - 1, p, h);
      }
    }
  }

  lemma StartFollows(cfg: Config, s: State, a: Action)
    requires a.StartSuccessor?
    ensures !EnvironmentEnabled(cfg, s, a) && !ServeEnabled(cfg, s, a) && !RetiredEnabled(s, a) && !StandbyEnabled(s, a)
    ensures !AbortEnabled(s, a) && !ReconcileEnabled(s, a) && !TidyEnabled(s, a) && !WaitEnabled(s, a)
    ensures FollowEnabled(s, a) ==> AtStage(s, a.p, StartingSuccessor(a.h))
  {
    hide At, CanWrite;
  }

  /**
    * Whatever any run starts as a successor was read back before, by the process that starts it:
    * under the handover's temporary name, of its image, and never started.
    */
  lemma OnlyReadBackIsStarted(cfg: Config, states: seq<State>, actions: seq<Action>, i: nat)
    requires Run(cfg, states, actions) && i < |actions| && actions[i].StartSuccessor?
    ensures exists j :: 0 <= j < i && actions[j].VerifySuccessor? && actions[j].p == actions[i].p
                        && LooksLikeIt(states[j].w, actions[i].h, actions[i].h.successor)
  {
    hide EnvironmentEnabled, EnvironmentStep, ServeEnabled, ServeStep, RetiredEnabled, RetiredStep, StandbyEnabled,
         StandbyStep, AbortEnabled, AbortStep, ReconcileEnabled, ReconcileStep, TidyEnabled, TidyStep, FollowEnabled,
         FollowStep, WaitEnabled, WaitStep, Init, AtStage, LooksLikeIt, ReadBack;
    assert Follows(cfg, states[i], states[i + 1], actions[i]);
    StartFollows(cfg, states[i], actions[i]);
    StartingHasReadBack(cfg, states, actions, i, actions[i].p, actions[i].h);
    var j :| 0 <= j < i && ReadBack(states[j], actions[j], actions[i].p, actions[i].h);
    ReadBackWhat(states[j], actions[j], actions[i].p, actions[i].h);
  }

  lemma ReadBackWhat(s: State, a: Action, p: Cid, h: Handover)
    requires ReadBack(s, a, p, h)
    ensures a.VerifySuccessor? && a.p == p && LooksLikeIt(s.w, h, h.successor)
  {
  }

  /** The step that wrote an entry of the log. */
  ghost predicate WrittenBy(states: seq<State>, actions: seq<Action>, j: nat, k: nat, e: Entry) {
    && j < |actions| && j < |states| && Writer(actions[j]).Some? && !IsLost(actions[j])
    && |states[j].w.log| == k && Written(states[j].w, actions[j]) == e
  }

  /** Every entry of the log was written by one step, as what that step writes. */
  lemma {:induction false} EntriesAreWritten(cfg: Config, states: seq<State>, actions: seq<Action>, i: nat, k: nat)
    requires Run(cfg, states, actions) && i < |states| && k < |states[i].w.log|
    ensures exists j :: 0 <= j < i && WrittenBy(states, actions, j, k, states[i].w.log[k])
  {
    hide Follows, Written, Writer, IsLost;
    if i > 0 {
      var s, t, a := states[i - 1], states[i], actions[i - 1];
      assert Follows(cfg, s, t, a);
      StepExtends(cfg, s, t, a);
      if k < |s.w.log| {
        EntriesAreWritten(cfg, states, actions, i - 1, k);
        var j :| 0 <= j < i - 1 && WrittenBy(states, actions, j, k, s.w.log[k]);
        assert s.w.log[k] == t.w.log[k];
      } else {
        assert WrittenBy(states, actions, i - 1, k, t.w.log[k]);
      }
    }
  }

  lemma CommitIsAWait(cfg: Config, s: State, a: Action)
    requires a.WriteCommitted?
    ensures !EnvironmentEnabled(cfg, s, a) && !ServeEnabled(cfg, s, a) && !RetiredEnabled(s, a) && !StandbyEnabled(s, a)
    ensures !AbortEnabled(s, a) && !ReconcileEnabled(s, a) && !TidyEnabled(s, a) && !FollowEnabled(s, a)
    ensures WaitEnabled(s, a) ==> AtStage(s, a.p, Committing(a.h, a.read))
  {
    hide At, CanWrite;
  }

  lemma CommitsAtStage(cfg: Config, s: State, t: State, a: Action)
    requires Follows(cfg, s, t, a) && a.WriteCommitted?
    ensures AtStage(s, a.p, Committing(a.h, a.read))
  {
    hide EnvironmentEnabled, EnvironmentStep, ServeEnabled, ServeStep, RetiredEnabled, RetiredStep, StandbyEnabled,
         StandbyStep, AbortEnabled, AbortStep, ReconcileEnabled, ReconcileStep, TidyEnabled, TidyStep, FollowEnabled,
         FollowStep, WaitEnabled, WaitStep, At;
    CommitIsAWait(cfg, s, a);
  }

  lemma PrepareFollows(cfg: Config, s: State, a: Action)
    requires a.WritePrepared?
    ensures !EnvironmentEnabled(cfg, s, a) && !ServeEnabled(cfg, s, a) && !RetiredEnabled(s, a) && !StandbyEnabled(s, a)
    ensures !AbortEnabled(s, a) && !ReconcileEnabled(s, a) && !TidyEnabled(s, a) && !WaitEnabled(s, a)
    ensures FollowEnabled(s, a) ==> AtStage(s, a.p, Evaluated(a.h))
  {
    hide At, CanWrite;
  }

  lemma PreparesPrepared(cfg: Config, s: State, t: State, a: Action)
    requires Inv(cfg, s) && Follows(cfg, s, t, a) && a.WritePrepared?
    ensures a.h.phase.Prepared?
  {
    hide EnvironmentEnabled, EnvironmentStep, ServeEnabled, ServeStep, RetiredEnabled, RetiredStep, StandbyEnabled,
         StandbyStep, AbortEnabled, AbortStep, ReconcileEnabled, ReconcileStep, TidyEnabled, TidyStep, FollowEnabled,
         FollowStep, WaitEnabled, WaitStep, AtStage, Inv;
    PrepareFollows(cfg, s, a);
    EvaluatedIsPrepared(cfg, s, a.p, a.h);
  }

  lemma EvaluatedIsPrepared(cfg: Config, s: State, p: Cid, h: Handover)
    requires Inv(cfg, s) && AtStage(s, p, Evaluated(h))
    ensures h.phase.Prepared?
  {
    hide Inv, AtStage, WorldOk, Rightful, NamedAreGone, Builds, Newer, SlotIsIdle;
    AtStageOk(cfg, s, p, Evaluated(h));
  }

  // ------------------------------------------------------- what a handover follows

  /** Whoever is about to prepare a handover evaluated the agent and found it eligible. */
  lemma {:induction false} EvaluatedWasJudged(cfg: Config, states: seq<State>, actions: seq<Action>, i: nat, p: Cid,
                                              h: Handover)
    requires Run(cfg, states, actions) && i < |states| && AtStage(states[i], p, Evaluated(h))
    ensures exists j :: 0 <= j < i && Judged(states[j], actions[j], p, h)
  {
    hide Follows, StandsFor, ReadLast, Aborting, Reasoned, Watched, ReadBack, Judged;
    if i > 0 {
      var s, t, a := states[i - 1], states[i], actions[i - 1];
      assert Follows(cfg, s, t, a);
      StepOrigins(cfg, s, t, a);
      assert Origin(s, a, p, t.procs[p].pc);
      if AtStage(s, p, Evaluated(h)) {
        EvaluatedWasJudged(cfg, states, actions, i - 1, p, h);
      }
    }
  }

  /** The agent runs as what the handover is about: newer than the predecessor, and of another image. */
  predicate FollowsAgent(w: World, h: Handover) {
    && w.agent == Agent(h.agentContainer, h.image, h.version, true)
    && Builds(w, h.predecessor, h.predecessorImage, h.predecessorVersion)
    && Newer(h.version, h.predecessorVersion) && h.image != h.predecessorImage
  }

  lemma JudgedFollows(s: State, a: Action, p: Cid, h: Handover)
    requires Judged(s, a, p, h)
    ensures FollowsAgent(s.w, h)
  {
    hide Newer, NextAttempt, NamedAreGone;
  }

  lemma FollowsAlike(w: World, g: Handover, h: Handover)
    requires FollowsAgent(w, g) && Identity(g) == Identity(h)
    ensures FollowsAgent(w, h)
  {
    hide Newer;
    assert Identity(g).image == g.image && Identity(h).image == h.image;
    assert Identity(g).version == g.version && Identity(h).version == h.version;
    assert Identity(g).agentContainer == g.agentContainer && Identity(h).agentContainer == h.agentContainer;
    assert Identity(g).predecessor == g.predecessor && Identity(h).predecessor == h.predecessor;
    assert Identity(g).predecessorImage == g.predecessorImage && Identity(h).predecessorImage == h.predecessorImage;
    assert Identity(g).predecessorVersion == g.predecessorVersion
           && Identity(h).predecessorVersion == h.predecessorVersion;
  }

  lemma WhatPrepares(w: World, a: Action)
    requires Writer(a).Some? && Written(w, a).record.phase.Prepared?
    ensures a.WritePrepared? && Written(w, a).record == a.h
  {
    hide NotBefore;
  }

  lemma PreparesAtStage(cfg: Config, states: seq<State>, actions: seq<Action>, n: nat)
    requires Run(cfg, states, actions) && n < |actions| && actions[n].WritePrepared?
    ensures |states| == |actions| + 1 && AtStage(states[n], actions[n].p, Evaluated(actions[n].h))
  {
    hide EnvironmentEnabled, EnvironmentStep, ServeEnabled, ServeStep, RetiredEnabled, RetiredStep, StandbyEnabled,
         StandbyStep, AbortEnabled, AbortStep, ReconcileEnabled, ReconcileStep, TidyEnabled, TidyStep, FollowEnabled,
         FollowStep, WaitEnabled, WaitStep, Init, AtStage;
    assert Follows(cfg, states[n], states[n + 1], actions[n]);
    PrepareFollows(cfg, states[n], actions[n]);
  }

  lemma PreparedFollowsTheAgent(cfg: Config, states: seq<State>, actions: seq<Action>, i: nat, k: nat)
    requires Run(cfg, states, actions) && i < |states| && k < |states[i].w.log|
             && states[i].w.log[k].record.phase.Prepared?
    ensures exists j :: 0 <= j < i && FollowsAgent(states[j].w, states[i].w.log[k].record)
  {
    hide Run, Writer, Written, IsLost, AtStage, Judged, FollowsAgent;
    RunLengths(cfg, states, actions);
    EntriesAreWritten(cfg, states, actions, i, k);
    var n :| 0 <= n < i && WrittenBy(states, actions, n, k, states[i].w.log[k]);
    WhatPrepares(states[n].w, actions[n]);
    PreparesAtStage(cfg, states, actions, n);
    EvaluatedWasJudged(cfg, states, actions, n, actions[n].p, actions[n].h);
    var j :| 0 <= j < n && Judged(states[j], actions[j], actions[n].p, actions[n].h);
    JudgedFollows(states[j], actions[j], actions[n].p, actions[n].h);
  }

  /**
    * Every record of every run is of a handover that follows the agent: at some earlier point of the
    * run the agent ran as exactly the container, image and version the handover is about, newer than
    * the handover's predecessor and of another image.
    */
  lemma {:induction false} HandoversFollowTheAgent(cfg: Config, states: seq<State>, actions: seq<Action>, i: nat,
                                                   k: nat)
    requires Run(cfg, states, actions) && i < |states| && k < |states[i].w.log|
    ensures exists j :: 0 <= j < i && FollowsAgent(states[j].w, states[i].w.log[k].record)
    decreases k
  {
    hide Run, FollowsAgent, Accepted, Identity, Transitions, ValidSuccessor, FreshIds;
    var log := states[i].w.log;
    if log[k].record.phase.Prepared? {
      PreparedFollowsTheAgent(cfg, states, actions, i, k);
    } else {
      RunIsAccepted(cfg, states, actions, i);
      assert Accepted(RecordBefore(log, k), log[k].record, log[k].at);
      FirstIsPrepared(RecordBefore(log, k), log[k].record, log[k].at);
      MoveFacts(log[k - 1].record, log[k].record, log[k].at);
      HandoversFollowTheAgent(cfg, states, actions, i, k - 1);
      var j :| 0 <= j < i && FollowsAgent(states[j].w, log[k - 1].record);
      FollowsAlike(states[j].w, log[k - 1].record, log[k].record);
    }
  }

  lemma CommittingIsCreated(cfg: Config, s: State, p: Cid, h: Handover, read: string)
    requires Inv(cfg, s) && AtStage(s, p, Committing(h, read))
    ensures s.w.journal == Some(h) && h.phase.Created?
  {
    hide Inv, AtStage, WorldOk, Rightful;
    AtStageOk(cfg, s, p, Committing(h, read));
  }

  lemma WhatCommits(w: World, a: Action)
    requires Writer(a).Some? && Written(w, a).record.phase.Committed?
    ensures a.WriteCommitted? || (a.WritePrepared? && a.h.phase.Committed?)
  {
    hide NotBefore;
  }

  lemma OnlyCommitsCommit(cfg: Config, s: State, t: State, a: Action)
    requires Inv(cfg, s) && Follows(cfg, s, t, a) && Writer(a).Some? && Written(s.w, a).record.phase.Committed?
    ensures a.WriteCommitted? && AtStage(s, a.p, Committing(a.h, a.read))
  {
    hide Inv, Follows, Written, Writer, At;
    WhatCommits(s.w, a);
    if a.WritePrepared? {
      PreparesPrepared(cfg, s, t, a);
    } else {
      CommitsAtStage(cfg, s, t, a);
    }
  }

  /**
    * Every commit a run ever wrote was written by the process that, at an earlier
    * point of the run, read the request slot last and found it as the handover was
    * prepared on, and that did nothing in between.
    */
  lemma CommitsReadTheSlot(cfg: Config, states: seq<State>, actions: seq<Action>, i: nat, k: nat)
    requires Run(cfg, states, actions) && i < |states| && k < |states[i].w.log|
             && states[i].w.log[k].record.phase.Committed?
    ensures exists j, n :: 0 <= j < n < i && CommitMade(states, actions, j, n, states[i].w.log[k])
  {
    hide Follows, Inv;
    EntriesAreWritten(cfg, states, actions, i, k);
    var n :| 0 <= n < i && WrittenBy(states, actions, n, k, states[i].w.log[k]);
    var a := actions[n];
    assert Follows(cfg, states[n], states[n + 1], a);
    RunKeeps(cfg, states, actions, n);
    OnlyCommitsCommit(cfg, states[n], states[n + 1], a);
    CommittingHasRead(cfg, states, actions, n, a.p, a.h, a.read);
    var j :| CommitsFrom(states, actions, j, n, a.p, a.h, a.read);
    assert CommitMade(states, actions, j, n, states[i].w.log[k]);
  }

  /** The reading at j and the write at n that made this entry. */
  ghost predicate CommitMade(states: seq<State>, actions: seq<Action>, j: nat, n: nat, e: Entry) {
    && n < |actions| && actions[n].WriteCommitted? && !actions[n].write.Lost?
    && CommitsFrom(states, actions, j, n, actions[n].p, actions[n].h, actions[n].read)
    && e == Entry(CommittedRecord(actions[n].h), states[n].w.now, actions[n].read)
  }

  // ------------------------------------------------- a commit whose write seemed to fail

  lemma CommitNeverAborts(prev: Handover, next: Handover, now: int)
    requires Accepted(Some(prev), next, now) && prev.id == next.id && prev.phase.Committed?
    ensures !next.phase.Aborted?
  {
    hide Valid, Expected;
  }

  /** Once a handover's commit is in the log, no record of it there is an abort. */
  lemma CommittedIsNeverAborted(cfg: Config, states: seq<State>, actions: seq<Action>, i: nat, c: nat, k: nat)
    requires Run(cfg, states, actions) && i < |states| && c < |states[i].w.log| && k < |states[i].w.log|
    requires var log := states[i].w.log; log[c].record.phase.Committed? && log[k].record.id == log[c].record.id
    ensures !states[i].w.log[k].record.phase.Aborted?
  {
    hide Run, Accepted, FreshIds, Identity;
    var log := states[i].w.log;
    if k < c {
      HandoversOnlyMoveForward(cfg, states, actions, i, k, c);
    } else if c < k {
      HandoversOnlyMoveForward(cfg, states, actions, i, c, k);
      RunIsAccepted(cfg, states, actions, i);
      assert k == c + 1 && RecordBefore(log, k) == Some(log[c].record);
      CommitNeverAborts(log[c].record, log[k].record, log[k].at);
    }
  }

  lemma CommitIsFromCreated(cfg: Config, s: State, t: State, a: Action)
    requires Inv(cfg, s) && Follows(cfg, s, t, a) && a.WriteCommitted?
    ensures s.w.journal == Some(a.h) && a.h.phase.Created?
  {
    hide Inv, Follows, AtStage;
    CommitsAtStage(cfg, s, t, a);
    CommittingIsCreated(cfg, s, a.p, a.h, a.read);
  }

  /** As long as the journal holds the created record, the commit is not in the log. */
  lemma NotYetCommitted(cfg: Config, states: seq<State>, actions: seq<Action>, i: nat, h: Handover)
    requires Run(cfg, states, actions) && i < |states| && states[i].w.journal == Some(h) && h.phase.Created?
    ensures !InLog(states[i].w.log, CommittedRecord(h))
  {
    hide Run, Inv, Identity;
    var log := states[i].w.log;
    RunKeeps(cfg, states, actions, i);
    LastIsJournal(cfg, states[i]);
    if InLog(log, CommittedRecord(h)) {
      var k: nat :| k < |log| && log[k].record == CommittedRecord(h);
      HandoversOnlyMoveForward(cfg, states, actions, i, k, |log| - 1);
    }
  }

  /**
    * A predecessor that was told its commit could not be recorded: the commit is the
    * journal, and in the log, exactly if the write was one that lands unreported.
    */
  lemma FailedCommitMayHaveLanded(cfg: Config, states: seq<State>, actions: seq<Action>, i: nat)
    requires Run(cfg, states, actions) && i < |actions| && actions[i].WriteCommitted? && !actions[i].write.Reported?
    ensures var commit := CommittedRecord(actions[i].h);
            && (InLog(states[i + 1].w.log, commit) <==> actions[i].write.Unreported?)
            && (states[i + 1].w.journal == Some(commit) <==> actions[i].write.Unreported?)
  {
    hide Follows, Inv;
    var a, s, t := actions[i], states[i], states[i + 1];
    assert Follows(cfg, s, t, a);
    StepExtends(cfg, s, t, a);
    RunKeeps(cfg, states, actions, i);
    CommitIsFromCreated(cfg, s, t, a);
    NotYetCommitted(cfg, states, actions, i, a.h);
    if a.write.Unreported? {
      assert t.w.log[|s.w.log|].record == CommittedRecord(a.h);
    }
  }

  /**
    * What the predecessor then does about it, believing it failed, never undoes it: no abort of
    * that handover is ever recorded.
    */
  lemma UnreportedCommitStands(cfg: Config, states: seq<State>, actions: seq<Action>, i: nat, j: nat, k: nat)
    requires Run(cfg, states, actions) && i < |actions| && actions[i].WriteCommitted? && actions[i].write.Unreported?
    requires i < j < |states| && k < |states[j].w.log| && states[j].w.log[k].record.id == actions[i].h.id
    ensures InLog(states[j].w.log, CommittedRecord(actions[i].h)) && !states[j].w.log[k].record.phase.Aborted?
  {
    hide Run;
    FailedCommitMayHaveLanded(cfg, states, actions, i);
    RunLengths(cfg, states, actions);
    RunExtends(cfg, states, actions, i + 1, j);
    StaysInLog(states[i + 1].w.log, states[j].w.log, CommittedRecord(actions[i].h));
    var c: nat :| c < |states[j].w.log| && states[j].w.log[c].record == CommittedRecord(actions[i].h);
    CommittedIsNeverAborted(cfg, states, actions, j, c, k);
  }
}
