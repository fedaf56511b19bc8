/**
  * What holds of the updater handover in every state of every run, whatever the
  * interleaving, whatever fails, and wherever a process dies.
  */
module Handover {
  import opened Wrappers
  import opened VersionOrder
  import opened HandoverJournal
  import opened HandoverModel
  import opened HandoverInvariant
  import opened HandoverFrame
  import opened HandoverSteps
  import opened HandoverPrimary
  import opened HandoverFollow
  import opened HandoverWait
  import opened HandoverRoles

  lemma InitOk(cfg: Config, s: State)
    requires Init(cfg, s)
    ensures Inv(cfg, s)
  {
  }

  lemma StepKeeps(cfg: Config, s: State, t: State, a: Action)
    requires Inv(cfg, s) && Follows(cfg, s, t, a)
    ensures Inv(cfg, t)
  {
    hide Inv, EnvironmentEnabled, EnvironmentStep, ServeEnabled, ServeStep, RetiredEnabled, RetiredStep, StandbyEnabled,
         StandbyStep, AbortEnabled, AbortStep, ReconcileEnabled, ReconcileStep, TidyEnabled, TidyStep, FollowEnabled,
         FollowStep, WaitEnabled, WaitStep;
    if EnvironmentEnabled(cfg, s, a) { EnvironmentKeeps(cfg, s, a); }
    if ServeEnabled(cfg, s, a) { ServeKeeps(cfg, s, a); }
    if RetiredEnabled(s, a) { RetiredKeeps(cfg, s, a); }
    if StandbyEnabled(s, a) { StandbyKeeps(cfg, s, a); }
    if AbortEnabled(s, a) { AbortKeeps(cfg, s, a); }
    if ReconcileEnabled(s, a) { ReconcileKeeps(cfg, s, a); }
    if TidyEnabled(s, a) { TidyKeeps(cfg, s, a); }
    if FollowEnabled(s, a) { FollowKeeps(cfg, s, a); }
    if WaitEnabled(s, a) { WaitKeeps(cfg, s, a); }
  }

  /** Every state of every run is in order. */
  lemma {:induction false} RunKeeps(cfg: Config, states: seq<State>, actions: seq<Action>, i: nat)
    requires Run(cfg, states, actions) && i < |states|
    ensures Inv(cfg, states[i])
  {
    hide Inv, Follows, Init;
    if i == 0 {
      InitOk(cfg, states[0]);
    } else {
      RunKeeps(cfg, states, actions, i - 1);
      assert Follows(cfg, states[i - 1], states[i], actions[i - 1]);
      StepKeeps(cfg, states[i - 1], states[i], actions[i - 1]);
    }
  }

  // ------------------------------------------------------------ at most one primary

  lemma ActingHolds(cfg: Config, s: State, p: Cid)
    requires Inv(cfg, s) && Acts(s, p)
    ensures p in s.procs && IsStarted(s.w, p) && (s.w.lock == Some(p) || (!cfg.flockWorks && OnlyStarted(s.w, p)))
    ensures s.procs[p].resolved ==> Rightful(s.w.journal, p)
  {
    hide WorldOk, StageOk, Rightful;
    assert ProcOk(cfg, s.w, p, s.procs[p]);
  }

  /**
    * In every state of every run at most one updater acts as the primary, counting
    * its heartbeat: where the lock works it is the holder, and where it does not,
    * an updater that acts without it is the only one ever started that is left.
    */
  lemma AtMostOnePrimary(cfg: Config, states: seq<State>, actions: seq<Action>, i: nat, p: Cid, q: Cid)
    requires Run(cfg, states, actions) && i < |states| && Acts(states[i], p) && Acts(states[i], q)
    ensures p == q
  {
    hide Run, Inv, Acts, Rightful;
    RunKeeps(cfg, states, actions, i);
    ActingHolds(cfg, states[i], p);
    ActingHolds(cfg, states[i], q);
  }

  // ------------------------------------------------------------------------ fencing

  lemma TableRetires(j: Handover, p: Cid)
    requires p in RetiredBy(j) && ValidSuccessor(j) && p != ""
    ensures !Rightful(Some(j), p)
  {
  }

  /** In one state: a container some record of the log retired does not act. */
  lemma RetiredIsIdle(cfg: Config, s: State, k: nat, p: Cid)
    requires Inv(cfg, s) && k < |s.w.log| && p in RetiredBy(s.w.log[k].record) && p in s.procs && s.procs[p].resolved
    ensures !Acts(s, p)
  {
    hide Inv, Acts, Rightful, RetiredBy, RecordOk;
    if Acts(s, p) {
      ActingHolds(cfg, s, p);
      StartedIsNamed(cfg, s, p);
      RetiredIsStill(cfg, s, k, p);
      JournalNames(cfg, s.w);
      TableRetires(s.w.journal.value, p);
    }
  }

  lemma RetiredIsStill(cfg: Config, s: State, k: nat, p: Cid)
    requires Inv(cfg, s) && k < |s.w.log| && p in RetiredBy(s.w.log[k].record) && IsStarted(s.w, p)
    ensures WorldOk(cfg, s.w) && s.w.journal.Some? && p in RetiredBy(s.w.journal.value)
  {
    hide LogOk, PassesOk, SoloOk, ProcsOk, RetiredBy;
  }

  // ------------------------------------------------------------------- the history

  /** The process that writes the journal in an action, if any does. */
  function Writer(a: Action): Option<Cid> {
    match a
    case ReclaimWrite(p, _, _) => Some(p)
    case AbandonWrite(p, _, _, _) => Some(p)
    case AbortWrite(p, _, _, _) => Some(p)
    case FinishWrite(p, _, _) => Some(p)
    case SupersedeWrite(p, _, _) => Some(p)
    case WritePrepared(p, _, _) => Some(p)
    case WriteCreated(p, _, _, _) => Some(p)
    case WriteCommitted(p, _, _, _) => Some(p)
    case _ => None
  }

  /** The entry a writer's record makes, if it lands. */
  function Written(w: World, a: Action): Entry
    requires Writer(a).Some?
  {
    match a
    case ReclaimWrite(_, h, _) => Entry(RevertedRecord(h, w.now), w.now, "")
    case AbandonWrite(_, h, _, _) => Entry(AbandonedRecord(h), w.now, "")
    case AbortWrite(_, h, reason, _) => Entry(AbortedRecord(h, reason, w.now), w.now, "")
    case FinishWrite(_, h, _) => Entry(CompletedRecord(h), w.now, "")
    case SupersedeWrite(_, h, _) => Entry(SupersededRecord(h), w.now, "")
    case WritePrepared(_, h, _) => Entry(h, w.now, "")
    case WriteCreated(_, h, c, _) => Entry(CreatedRecord(h, c), w.now, "")
    case WriteCommitted(_, h, read, _) => Entry(CommittedRecord(h), w.now, read)
  }

  predicate IsLost(a: Action)
    requires Writer(a).Some?
  {
    a.write.Lost?
  }

  /** A step adds at most its writer's record to the history, as the journal, and exactly if the write is not lost. */
  predicate Records(w: World, v: World, a: Action) {
    if Writer(a).Some? && !IsLost(a)
    then v.log == w.log + [Written(w, a)] && v.journal == Some(Written(w, a).record)
    else v.log == w.log && v.journal == w.journal
  }

  /** A step records what its writer writes, and notes a pass only where a successor checks itself. */
  predicate Extends(s: State, t: State, a: Action) {
    && Records(s.w, t.w, a)
    && t.w.passed == if a.StandbyCheck? then s.w.passed + {Pass(a.h.id, a.p, a.h.version)} else s.w.passed
  }

  /** A step that neither records nor notes anything. */
  predicate Quiet(w: World, v: World) {
    v.log == w.log && v.journal == w.journal && v.passed == w.passed
  }

  lemma QuietExtends(s: State, t: State, a: Action)
    requires Quiet(s.w, t.w) && Writer(a).None? && !a.StandbyCheck?
    ensures Extends(s, t, a)
  {
    hide Written;
  }

  /** Where a process goes does not change what is shared. */
  lemma MovesAside()
    ensures forall s: State, p: Cid, pc: Pc :: Go(s, p, pc).w == s.w
    ensures forall s: State, p: Cid, stage: Stage :: Enter(s, p, stage).w == s.w
    ensures forall s: State, w: World, p: Cid, pc: Pc :: Turn(s, w, p, pc).w == w
  {
  }

  lemma EndingIsQuiet(s: State, c: Cid)
    ensures Quiet(s.w, Stopped(s, c).w) && Quiet(s.w, Removed(s, c).w) && Quiet(s.w, Killed(s, c).w) && Quiet(s.w, s.w)
  {
  }

  lemma MakingIsQuiet(w: World, c: Cid, build: Build, box: Box)
    ensures Quiet(w, Made(w, c, build, box)) && Quiet(w, Started(w, c))
  {
  }

  lemma OutdoorsIsQuiet(w: World, a: Action)
    ensures Quiet(w, Outdoors(w, a))
  {
  }

  lemma EnvironmentIsQuiet(s: State, a: Action)
    ensures Quiet(s.w, EnvironmentStep(s, a).w)
  {
    hide Stopped, Removed, Killed, Made, Started, Outdoors, Quiet;
    EndingIsQuiet(s, "");
    OutdoorsIsQuiet(s.w, a);
    if a.OperatorRemove? || a.OperatorStop? || a.OperatorStart? {
      EndingIsQuiet(s, a.c);
      MakingIsQuiet(s.w, a.c, Build("", ""), Box("", true, true));
    } else if a.Crash? {
      EndingIsQuiet(s, a.p);
    } else if a.Stranger? {
      MakingIsQuiet(s.w, a.c, a.build, Box(a.name, true, true));
    }
  }

  lemma ServeIsQuiet(s: State, a: Action)
    ensures Quiet(s.w, ServeStep(s, a).w)
  {
    hide Go, Turn, Enter, RoleOf, RolePc, AlonePc, SelfOf, Reading, AfterPredecessor, AfterSuccessor;
    MovesAside();
  }

  lemma ReclaimIsQuiet(s: State, a: Action)
    requires !a.ReclaimWrite? && !a.ReclaimStop? && !a.ReclaimRemove?
    ensures Quiet(s.w, RetiredStep(s, a).w)
  {
    hide Go, Turn, Enter, RevertedRecord, SelfOf, Stopped, Removed, AfterWrite;
    MovesAside();
  }

  lemma RetiredIsQuiet(s: State, a: Action)
    requires !a.ReclaimWrite?
    ensures Quiet(s.w, RetiredStep(s, a).w)
  {
    hide Go, Turn, Enter, RevertedRecord, SelfOf, AfterWrite;
    MovesAside();
    if !a.ReclaimStop? && !a.ReclaimRemove? {
      ReclaimIsQuiet(s, a);
    }
  }

  lemma StandbyIsQuiet(s: State, a: Action)
    requires !a.StandbyCheck? && !a.AbandonWrite?
    ensures Quiet(s.w, StandbyStep(s, a).w)
  {
    hide Go, Turn, Enter, AbandonedRecord, Misses, SelfOf, AfterWrite;
    MovesAside();
  }

  lemma AbortIsQuiet(s: State, a: Action)
    requires !a.AbortWrite?
    ensures Quiet(s.w, AbortStep(s, a).w)
  {
    hide Go, Turn, Enter, AbortNext, AbortTarget, AbortedRecord, AfterWrite;
    MovesAside();
  }

  lemma ReconcileIsQuiet(s: State, a: Action)
    requires !a.FinishWrite? && !a.SupersedeWrite?
    ensures Quiet(s.w, ReconcileStep(s, a).w)
  {
    hide Go, Turn, Enter, ReconcileStage, CompletedRecord, SupersededRecord, AfterWrite;
    MovesAside();
  }

  lemma TidyIsQuiet(s: State, a: Action)
    ensures Quiet(s.w, TidyStep(s, a).w)
  {
    hide Go, Turn, Enter, Leftovers;
    MovesAside();
  }

  lemma FollowIsQuiet(s: State, a: Action)
    requires !a.WritePrepared? && !a.WriteCreated?
    ensures Quiet(s.w, FollowStep(s, a).w)
  {
    hide Go, Turn, Enter, CreatedRecord, AfterWrite;
    MovesAside();
  }

  lemma WaitIsQuiet(s: State, a: Action)
    requires !a.WriteCommitted?
    ensures Quiet(s.w, WaitStep(s, a).w)
  {
    hide Go, Turn, Enter, AfterCommit, ProofFor;
    MovesAside();
  }

  /** A write that ends in one of the three ways, of this record and on this reading of the slot. */
  predicate Wrote(w: World, v: World, next: Handover, read: string, write: Write) {
    && v.passed == w.passed
    && v.log == (if write.Lost? then w.log else w.log + [Entry(next, w.now, read)])
    && v.journal == (if write.Lost? then w.journal else Some(next))
  }

  lemma WroteExtends(s: State, t: State, a: Action, next: Handover, read: string, write: Write)
    requires Writer(a).Some? && a.write == write && Written(s.w, a) == Entry(next, s.w.now, read)
             && Wrote(s.w, t.w, next, read, write)
    ensures Extends(s, t, a)
  {
    hide Written;
  }

  lemma ReclaimWrites(s: State, a: Action)
    requires a.ReclaimWrite?
    ensures Extends(s, RetiredStep(s, a), a)
  {
    hide Go, Turn, RevertedRecord, Extends;
    MovesAside();
    WroteExtends(s, RetiredStep(s, a), a, RevertedRecord(a.h, s.w.now), "", a.write);
  }

  lemma AbandonWrites(s: State, a: Action)
    requires a.AbandonWrite?
    ensures Extends(s, StandbyStep(s, a), a)
  {
    hide Go, Turn, AbandonedRecord, Extends;
    MovesAside();
    WroteExtends(s, StandbyStep(s, a), a, AbandonedRecord(a.h), "", a.write);
  }

  lemma AbortWrites(s: State, a: Action)
    requires a.AbortWrite?
    ensures Extends(s, AbortStep(s, a), a)
  {
    hide Go, Turn, AbortedRecord, Extends;
    MovesAside();
    WroteExtends(s, AbortStep(s, a), a, AbortedRecord(a.h, a.reason, s.w.now), "", a.write);
  }

  lemma FinishWrites(s: State, a: Action)
    requires a.FinishWrite?
    ensures Extends(s, ReconcileStep(s, a), a)
  {
    hide Go, Turn, CompletedRecord, Extends;
    MovesAside();
    WroteExtends(s, ReconcileStep(s, a), a, CompletedRecord(a.h), "", a.write);
  }

  lemma SupersedeWrites(s: State, a: Action)
    requires a.SupersedeWrite?
    ensures Extends(s, ReconcileStep(s, a), a)
  {
    hide Go, Turn, SupersededRecord, Extends;
    MovesAside();
    WroteExtends(s, ReconcileStep(s, a), a, SupersededRecord(a.h), "", a.write);
  }

  lemma PrepareWrites(s: State, a: Action)
    requires a.WritePrepared?
    ensures Extends(s, FollowStep(s, a), a)
  {
    hide Go, Turn, Extends;
    MovesAside();
    WroteExtends(s, FollowStep(s, a), a, a.h, "", a.write);
  }

  lemma CreateWrites(s: State, a: Action)
    requires a.WriteCreated?
    ensures Extends(s, FollowStep(s, a), a)
  {
    hide Go, Turn, CreatedRecord, Extends, AfterRecording;
    MovesAside();
    WroteExtends(s, FollowStep(s, a), a, CreatedRecord(a.h, a.c), "", a.write);
  }

  lemma CommitWrote(w: World, h: Handover, read: string, write: Write)
    ensures Wrote(w, AfterCommit(w, h, read, write), CommittedRecord(h), read, write)
  {
    hide CommittedRecord;
  }

  lemma CommitWrites(s: State, a: Action)
    requires a.WriteCommitted?
    ensures Extends(s, WaitStep(s, a), a)
  {
    hide Go, Turn, CommittedRecord, Extends, AfterCommit, Wrote, AfterCommitting;
    MovesAside();
    CommitWrote(s.w, a.h, a.read, a.write);
    WroteExtends(s, WaitStep(s, a), a, CommittedRecord(a.h), a.read, a.write);
  }

  lemma CheckNotes(s: State, a: Action)
    requires a.StandbyCheck?
    ensures Extends(s, StandbyStep(s, a), a)
  {
    hide Go, Turn, Written;
    MovesAside();
  }

  /** What an action of each group is not. */
  lemma OnlyWritersWrite(cfg: Config, s: State, a: Action)
    ensures EnvironmentEnabled(cfg, s, a) || ServeEnabled(cfg, s, a) || TidyEnabled(s, a) ==>
              Writer(a).None? && !a.StandbyCheck?
    ensures RetiredEnabled(s, a) && !a.ReclaimWrite? ==> Writer(a).None? && !a.StandbyCheck?
    ensures StandbyEnabled(s, a) && !a.AbandonWrite? ==> Writer(a).None?
    ensures AbortEnabled(s, a) && !a.AbortWrite? ==> Writer(a).None? && !a.StandbyCheck?
    ensures ReconcileEnabled(s, a) && !a.FinishWrite? && !a.SupersedeWrite? ==> Writer(a).None? && !a.StandbyCheck?
    ensures FollowEnabled(s, a) && !a.WritePrepared? && !a.WriteCreated? ==> Writer(a).None? && !a.StandbyCheck?
    ensures WaitEnabled(s, a) && !a.WriteCommitted? ==> Writer(a).None? && !a.StandbyCheck?
  {
    hide At, AtStage, CanWrite, Eligible, PassesStandbyChecks, UnmistakablySuccessor, IsWhatWasCreated, MayGiveUp,
         SlotIsIdle, Terminal;
  }

  lemma RolesExtend(s: State, t: State, a: Action)
    requires (RetiredEnabled(s, a) && t == RetiredStep(s, a)) || (StandbyEnabled(s, a) && t == StandbyStep(s, a))
    ensures Extends(s, t, a)
  {
    hide RetiredStep, StandbyStep, RetiredEnabled, StandbyEnabled, Extends, Quiet, Writer;
    OnlyWritersWrite(Config(true, ""), s, a);
    if RetiredEnabled(s, a) && t == RetiredStep(s, a) {
      if a.ReclaimWrite? { ReclaimWrites(s, a); } else { RetiredIsQuiet(s, a); QuietExtends(s, t, a); }
    } else if a.AbandonWrite? {
      AbandonWrites(s, a);
    } else if a.StandbyCheck? {
      CheckNotes(s, a);
    } else {
      StandbyIsQuiet(s, a);
      QuietExtends(s, t, a);
    }
  }

  lemma ReconcilingExtends(s: State, t: State, a: Action)
    requires (AbortEnabled(s, a) && t == AbortStep(s, a)) || (ReconcileEnabled(s, a) && t == ReconcileStep(s, a))
    ensures Extends(s, t, a)
  {
    hide AbortStep, ReconcileStep, AbortEnabled, ReconcileEnabled, Extends, Quiet, Writer;
    OnlyWritersWrite(Config(true, ""), s, a);
    if AbortEnabled(s, a) && t == AbortStep(s, a) {
      if a.AbortWrite? { AbortWrites(s, a); } else { AbortIsQuiet(s, a); QuietExtends(s, t, a); }
    } else if a.FinishWrite? {
      FinishWrites(s, a);
    } else if a.SupersedeWrite? {
      SupersedeWrites(s, a);
    } else {
      ReconcileIsQuiet(s, a);
      QuietExtends(s, t, a);
    }
  }

  lemma FollowingExtends(s: State, t: State, a: Action)
    requires (FollowEnabled(s, a) && t == FollowStep(s, a)) || (WaitEnabled(s, a) && t == WaitStep(s, a))
    ensures Extends(s, t, a)
  {
    hide FollowStep, WaitStep, FollowEnabled, WaitEnabled, Extends, Quiet, Writer;
    OnlyWritersWrite(Config(true, ""), s, a);
    if FollowEnabled(s, a) && t == FollowStep(s, a) {
      if a.WritePrepared? {
        PrepareWrites(s, a);
      } else if a.WriteCreated? {
        CreateWrites(s, a);
      } else {
        FollowIsQuiet(s, a);
        QuietExtends(s, t, a);
      }
    } else if a.WriteCommitted? {
      CommitWrites(s, a);
    } else {
      WaitIsQuiet(s, a);
      QuietExtends(s, t, a);
    }
  }

  /** No step takes a record back. */
  lemma StepExtends(cfg: Config, s: State, t: State, a: Action)
    requires Follows(cfg, s, t, a)
    ensures Extends(s, t, a)
  {
    hide EnvironmentEnabled, EnvironmentStep, ServeEnabled, ServeStep, RetiredEnabled, RetiredStep, StandbyEnabled,
         StandbyStep, AbortEnabled, AbortStep, ReconcileEnabled, ReconcileStep, TidyEnabled, TidyStep, FollowEnabled,
         FollowStep, WaitEnabled, WaitStep, Extends, Quiet, Writer;
    if (RetiredEnabled(s, a) && t == RetiredStep(s, a)) || (StandbyEnabled(s, a) && t == StandbyStep(s, a)) {
      RolesExtend(s, t, a);
    } else if (AbortEnabled(s, a) && t == AbortStep(s, a)) || (ReconcileEnabled(s, a) && t == ReconcileStep(s, a)) {
      ReconcilingExtends(s, t, a);
    } else if (FollowEnabled(s, a) && t == FollowStep(s, a)) || (WaitEnabled(s, a) && t == WaitStep(s, a)) {
      FollowingExtends(s, t, a);
    } else {
      OnlyWritersWrite(cfg, s, a);
      EnvironmentIsQuiet(s, a);
      ServeIsQuiet(s, a);
      TidyIsQuiet(s, a);
      QuietExtends(s, t, a);
    }
  }

  lemma {:induction false} RunExtends(cfg: Config, states: seq<State>, actions: seq<Action>, i: nat, j: nat)
    requires Run(cfg, states, actions) && i <= j < |states|
    ensures states[i].w.log <= states[j].w.log
    decreases j
  {
    hide Follows, Init;
    if i < j {
      RunExtends(cfg, states, actions, i, j - 1);
      assert Follows(cfg, states[j - 1], states[j], actions[j - 1]);
      StepExtends(cfg, states[j - 1], states[j], actions[j - 1]);
    }
  }

  /**
    * Once the journal has said a container is retired, that container never acts as
    * the primary again, in that state or any later one, however free the lock is and
    * whatever the journal has moved on to.
    */
  lemma RetiredNeverActs(cfg: Config, states: seq<State>, actions: seq<Action>, i: nat, j: nat, p: Cid)
    requires Run(cfg, states, actions) && i <= j < |states|
    requires states[i].w.journal.Some? && p in RetiredBy(states[i].w.journal.value)
    requires p in states[j].procs && states[j].procs[p].resolved
    ensures !Acts(states[j], p)
  {
    hide Run, Inv, Acts, RetiredBy;
    RunKeeps(cfg, states, actions, i);
    RunKeeps(cfg, states, actions, j);
    RunExtends(cfg, states, actions, i, j);
    LastIsJournal(cfg, states[i]);
    RetiredIsIdle(cfg, states[j], |states[i].w.log| - 1, p);
  }

  lemma LastIsJournal(cfg: Config, s: State)
    requires Inv(cfg, s) && s.w.journal.Some?
    ensures |s.w.log| > 0 && s.w.log[|s.w.log| - 1].record == s.w.journal.value
  {
    hide RecordOk, EntryOk, AcceptedRun, FreshIds, PassesOk, RetiredOk, SoloOk, ProcsOk;
  }

  lemma LogEndsWithJournal(cfg: Config, s: State)
    requires Inv(cfg, s)
    ensures LogOk(s.w) && s.w.journal == RecordBefore(s.w.log, |s.w.log|)
  {
    hide RecordOk, EntryOk, AcceptedRun, FreshIds, PassesOk, RetiredOk, SoloOk, ProcsOk;
  }

  /** A successor the journal has created but not committed to never acts: what it proves, it proves from the side. */
  lemma StandbyNeverActs(cfg: Config, states: seq<State>, actions: seq<Action>, i: nat, p: Cid)
    requires Run(cfg, states, actions) && i < |states| && p in states[i].procs && states[i].procs[p].resolved
    requires states[i].w.journal.Some? && states[i].w.journal.value.phase.Created?
             && states[i].w.journal.value.successor == p
    ensures !Acts(states[i], p)
  {
    hide Run, Inv, Acts;
    RunKeeps(cfg, states, actions, i);
    if Acts(states[i], p) {
      ActingHolds(cfg, states[i], p);
      StartedIsNamed(cfg, states[i], p);
    }
  }

  // --------------------------------------------------- what the role may move onto

  /**
    * Every record a run ever wrote that says the successor was proven - committed,
    * completed, reverted, superseded or abandoned - is about a successor that passed
    * the standby checks of that very handover, runs the image and version the
    * handover is about, and is strictly newer than the predecessor. The request slot
    * was idle when the handover was prepared.
    */
  lemma OnlyProvenSuccessors(cfg: Config, states: seq<State>, actions: seq<Action>, i: nat, k: nat)
    requires Run(cfg, states, actions) && i < |states| && k < |states[i].w.log|
    ensures var s, h := states[i].w, states[i].w.log[k].record;
            && Newer(h.version, h.predecessorVersion) && h.image != h.predecessorImage
            && Builds(s, h.predecessor, h.predecessorImage, h.predecessorVersion)
            && SlotIsIdle(h.requestDigest, s.done)
            && (CarriesProof(h.phase) ==> ProvenBy(s, h))
            && (h.phase.Abandoned? ==> h.predecessor !in s.boxes)
  {
    hide Run, Inv, Builds, ProvenBy, Newer, SlotIsIdle;
    RunKeeps(cfg, states, actions, i);
    EntryIsOk(cfg, states[i], k);
  }

  lemma EntryIsOk(cfg: Config, s: State, k: nat)
    requires Inv(cfg, s) && k < |s.w.log|
    ensures RecordOk(s.w, s.w.log[k].record) && EntryOk(s.w.log[k])
  {
    hide RecordOk, EntryOk, AcceptedRun, FreshIds, PassesOk, RetiredOk, SoloOk, ProcsOk;
  }

  /** Whoever passed the standby checks ran the version it passed them for. */
  lemma PassIsOfVersion(cfg: Config, states: seq<State>, actions: seq<Action>, i: nat, x: Pass)
    requires Run(cfg, states, actions) && i < |states| && x in states[i].w.passed
    ensures x.successor in states[i].w.ever && states[i].w.ever[x.successor].version == x.version
  {
    hide Run, LogOk, RetiredOk, SoloOk, ProcsOk;
    RunKeeps(cfg, states, actions, i);
  }

  /** Every commit was decided on a reading of the request slot equal to the one the handover was prepared on. */
  lemma CommitsReadTheSlotLast(cfg: Config, states: seq<State>, actions: seq<Action>, i: nat, k: nat)
    requires Run(cfg, states, actions) && i < |states| && k < |states[i].w.log|
             && states[i].w.log[k].record.phase.Committed?
    ensures states[i].w.log[k].read == states[i].w.log[k].record.requestDigest
  {
    hide Run, Inv, RecordOk;
    RunKeeps(cfg, states, actions, i);
    EntryIsOk(cfg, states[i], k);
  }

  /** Records of the log through which the role passes from container to container. */
  ghost predicate Chain(w: World, path: seq<nat>) {
    && (forall n :: 0 <= n < |path| ==> path[n] < |w.log| && CarriesProof(w.log[path[n]].record.phase))
    && (forall n :: 0 < n < |path| ==> w.log[path[n]].record.predecessor == w.log[path[n - 1]].record.successor)
  }

  lemma {:induction false} ChainClimbs(cfg: Config, s: State, path: seq<nat>, m: nat, n: nat)
    requires Inv(cfg, s) && Chain(s.w, path) && m <= n < |path|
    ensures Newer(s.w.log[path[n]].record.version, s.w.log[path[m]].record.predecessorVersion)
    decreases n
  {
    hide Inv, Newer, RecordOk;
    EntryIsOk(cfg, s, path[n]);
    LinkClimbs(s.w, s.w.log[path[n]].record);
    if m < n {
      EntryIsOk(cfg, s, path[n - 1]);
      ChainClimbs(cfg, s, path, m, n - 1);
      LinkJoins(s.w, s.w.log[path[n - 1]].record, s.w.log[path[n]].record);
      NewerIsTransitive(s.w.log[path[n]].record.version, s.w.log[path[n - 1]].record.version,
                        s.w.log[path[m]].record.predecessorVersion);
    }
  }

  lemma LinkClimbs(w: World, h: Handover)
    requires RecordOk(w, h)
    ensures Newer(h.version, h.predecessorVersion)
  {
    hide Newer;
  }

  lemma LinkJoins(w: World, a: Handover, b: Handover)
    requires RecordOk(w, a) && RecordOk(w, b) && CarriesProof(a.phase) && b.predecessor == a.successor
    ensures b.predecessorVersion == a.version
  {
    hide Newer;
  }

  /** However often the role passes on, it never comes back to a release it has left. */
  lemma NeverRevisitsARelease(cfg: Config, states: seq<State>, actions: seq<Action>, i: nat, path: seq<nat>, m: nat,
                              n: nat)
    requires Run(cfg, states, actions) && i < |states| && Chain(states[i].w, path) && m <= n < |path|
    ensures states[i].w.log[path[n]].record.version != states[i].w.log[path[m]].record.predecessorVersion
    ensures m < n ==> Newer(states[i].w.log[path[n]].record.version, states[i].w.log[path[m]].record.version)
  {
    hide Run, Inv, Newer, RecordOk, EntryOk;
    var s := states[i];
    RunKeeps(cfg, states, actions, i);
    ChainClimbs(cfg, s, path, m, n);
    NewerIsIrreflexive(s.w.log[path[n]].record.version);
    if m < n {
      EntryIsOk(cfg, s, path[m]);
      EntryIsOk(cfg, s, path[m + 1]);
      ChainClimbs(cfg, s, path, m + 1, n);
      LinkJoins(s.w, s.w.log[path[m]].record, s.w.log[path[m + 1]].record);
    }
  }

  // -------------------------------------------------------------- the journal's run

  /** The records of a run, in the order they landed, are ones the writer accepted, with identifiers of their own. */
  lemma RunIsAccepted(cfg: Config, states: seq<State>, actions: seq<Action>, i: nat)
    requires Run(cfg, states, actions) && i < |states|
    ensures AcceptedRun(states[i].w.log) && FreshIds(states[i].w.log)
    ensures states[i].w.journal == RecordBefore(states[i].w.log, |states[i].w.log|)
  {
    hide Run, Inv, AcceptedRun, FreshIds;
    RunKeeps(cfg, states, actions, i);
    LogEndsWithJournal(cfg, states[i]);
  }

  /** In every run: within one handover records only move forward, keep its identity, and are at most four. */
  lemma HandoversOnlyMoveForward(cfg: Config, states: seq<State>, actions: seq<Action>, i: nat, k: nat, l: nat)
    requires Run(cfg, states, actions) && i < |states|
    requires var log := states[i].w.log; k < l < |log| && log[k].record.id == log[l].record.id
    ensures var a, b := states[i].w.log[k].record, states[i].w.log[l].record;
            && Rank(a.phase) + (l - k) <= Rank(b.phase) && l - k <= 3 && Identity(a) == Identity(b)
            && (a.successor != "" ==> b.successor == a.successor)
  {
    hide Run, AcceptedRun, FreshIds, Identity;
    RunIsAccepted(cfg, states, actions, i);
    ForwardOnly(states[i].w.log, k, l);
    AtMostFourRecords(states[i].w.log, k, l);
  }

  /** In every run: for one predecessor and image, at most three attempts fail other than by giving way to a request. */
  lemma AttemptsAreBounded(cfg: Config, states: seq<State>, actions: seq<Action>, i: nat, lo: nat, hi: nat,
                           predecessor: string, image: string)
    requires Run(cfg, states, actions) && i < |states| && OnePair(states[i].w.log, lo, hi, predecessor, image)
    ensures Failures(states[i].w.log, lo, hi) <= MAX_ATTEMPTS
  {
    hide Run, AcceptedRun, FreshIds;
    RunIsAccepted(cfg, states, actions, i);
    AtMostThreeFailures(states[i].w.log, lo, hi, predecessor, image);
  }

  /**
    * In every run: the attempt after a failed one of the same pair is ten minutes later if it was
    * the first, an hour if not.
    */
  lemma RetriesWait(cfg: Config, states: seq<State>, actions: seq<Action>, i: nat, k: nat)
    requires Run(cfg, states, actions) && i < |states| && 0 < k < |states[i].w.log|
    requires var a, b := states[i].w.log[k - 1].record, states[i].w.log[k].record;
             a.id != b.id && Failed(a) && a.predecessor == b.predecessor && a.image == b.image
    ensures var a, b := states[i].w.log[k - 1], states[i].w.log[k];
            b.at >= a.at + (if a.record.attempt <= 1 then 600 else 3600) && b.record.attempt == a.record.attempt + 1
  {
    hide Run, Inv, AcceptedRun, FreshIds, RecordOk, Preemption;
    var log := states[i].w.log;
    RunKeeps(cfg, states, actions, i);
    RunIsAccepted(cfg, states, actions, i);
    BackoffRespected(log, k);
    EntryIsOk(cfg, states[i], k - 1);
    OnlyAbortsPreempt(log, k - 1);
  }

  // ----------------------------------------------------- who touches containers and journal

  /** The container an action stops or removes, and who does it. */
  function Victim(a: Action): Option<(Cid, Cid)> {
    match a
    case ReclaimStop(p, h, _) => Some((p, h.successor))
    case ReclaimRemove(p, h, _) => Some((p, h.successor))
    case AbortStop(p, _, target, _, _) => Some((p, target))
    case AbortRemove(p, _, target, _, _) => Some((p, target))
    case FinishStop(p, h, _, _) => Some((p, h.predecessor))
    case TidyStop(p, _, target, _, _) => Some((p, target))
    case TidyRemove(p, _, target, _, _) => Some((p, target))
    case _ => None
  }

  /**
    * Whoever ends a container knows what it is, holds the lock, and ends another updater's, never
    * the agent's; to abort a handover, never its predecessor's; and to tidy up, only one that a
    * finished handover names.
    */
  predicate EndsAnother(s: State, a: Action) {
    Victim(a).Some? ==>
      var (p, target) := Victim(a).value;
      && p in s.procs && s.procs[p].resolved && s.w.lock == Some(p)
      && target != p && target in s.w.ever && target != s.w.agent.id
      && (a.AbortStop? || a.AbortRemove? ==> target != a.h.predecessor)
      && (a.TidyStop? || a.TidyRemove? ==> Terminal(a.j.phase) && LeftBy(s.w, p, a.j, target))
  }

  /**
    * No updater of any run stops or removes itself or the agent, or aborts a handover by ending its
    * predecessor, and only a lock holder that knows what it is stops or removes anything.
    */
  lemma NoUpdaterEndsItself(cfg: Config, states: seq<State>, actions: seq<Action>, i: nat)
    requires Run(cfg, states, actions) && i < |actions|
    ensures EndsAnother(states[i], actions[i])
  {
    hide Inv, Follows, Init, EndsAnother;
    RunKeeps(cfg, states, actions, i);
    assert Follows(cfg, states[i], states[i + 1], actions[i]);
    VictimIsAnother(cfg, states[i], states[i + 1], actions[i]);
  }

  lemma VictimIsAnother(cfg: Config, s: State, t: State, a: Action)
    requires Inv(cfg, s) && Follows(cfg, s, t, a)
    ensures EndsAnother(s, a)
  {
    hide Inv, EnvironmentEnabled, EnvironmentStep, ServeEnabled, ServeStep, RetiredEnabled, RetiredStep, StandbyEnabled,
         StandbyStep, AbortEnabled, AbortStep, ReconcileEnabled, ReconcileStep, TidyEnabled, TidyStep, FollowEnabled,
         FollowStep, WaitEnabled, WaitStep, EndsAnother;
    if RetiredEnabled(s, a) {
      RetiredEndsAnother(cfg, s, a);
    } else if AbortEnabled(s, a) {
      AbortEndsAnother(cfg, s, a);
    } else if ReconcileEnabled(s, a) {
      FinishEndsAnother(cfg, s, a);
    } else if TidyEnabled(s, a) {
      TidyEndsAnother(cfg, s, a);
    } else {
      OthersEndNobody(cfg, s, a);
    }
  }

  lemma UpdaterIsNotAgent(cfg: Config, w: World, c: Cid)
    requires WorldOk(cfg, w) && c in w.ever
    ensures c != w.agent.id
  {
    hide LogOk, SoloOk, RetiredOk, PassesOk;
  }

  lemma RetiredEndsAnother(cfg: Config, s: State, a: Action)
    requires Inv(cfg, s) && RetiredEnabled(s, a)
    ensures EndsAnother(s, a)
  {
    hide Inv, WorldOk, Rightful, CanWrite, StageOk;
    if a.ReclaimStop? || a.ReclaimRemove? {
      Recalls(cfg, s, a.p);
      Ready(cfg, s, a.p);
      UpdaterIsNotAgent(cfg, s.w, a.h.successor);
    }
  }

  lemma AbortEndsAnother(cfg: Config, s: State, a: Action)
    requires Inv(cfg, s) && AbortEnabled(s, a)
    ensures EndsAnother(s, a)
  {
    hide Inv, WorldOk, Rightful, CanWrite, UnmistakablySuccessor;
    if a.AbortStop? {
      AtStageOk(cfg, s, a.p, AbortStopping(a.h, a.target, a.reason));
      UpdaterIsNotAgent(cfg, s.w, a.target);
    } else if a.AbortRemove? {
      AtStageOk(cfg, s, a.p, AbortRemoving(a.h, a.target, a.reason));
      UpdaterIsNotAgent(cfg, s.w, a.target);
    }
  }

  lemma FinishEndsAnother(cfg: Config, s: State, a: Action)
    requires Inv(cfg, s) && ReconcileEnabled(s, a)
    ensures EndsAnother(s, a)
  {
    hide Inv, WorldOk, Rightful, CanWrite;
    if a.FinishStop? {
      AtStageOk(cfg, s, a.p, FinishStopping(a.h));
      PredecessorIsOther(cfg, s.w, a.p, a.h);
      UpdaterIsNotAgent(cfg, s.w, a.h.predecessor);
    }
  }

  lemma TidiesAnother(cfg: Config, s: State, p: Cid, stage: Stage)
    requires Inv(cfg, s) && AtStage(s, p, stage) && (stage.TidyStopping? || stage.TidyRemoving?)
    ensures p in s.procs && s.procs[p].resolved && s.w.lock == Some(p)
    ensures stage.target != p && stage.target in s.w.ever && stage.target != s.w.agent.id
    ensures Terminal(stage.j.phase) && LeftBy(s.w, p, stage.j, stage.target)
  {
    hide Inv, WorldOk, Rightful;
    AtStageOk(cfg, s, p, stage);
    UpdaterIsNotAgent(cfg, s.w, stage.target);
  }

  lemma TidyEndsAnother(cfg: Config, s: State, a: Action)
    requires Inv(cfg, s) && TidyEnabled(s, a)
    ensures EndsAnother(s, a)
  {
    hide Inv, AtStage, Terminal;
    match a
    case TidyStop(p, j, target, rest, _) => TidiesAnother(cfg, s, p, TidyStopping(j, target, rest));
    case TidyRemove(p, j, target, rest, _) => TidiesAnother(cfg, s, p, TidyRemoving(j, target, rest));
    case _ =>
  }

  lemma OthersEndNobody(cfg: Config, s: State, a: Action)
    requires EnvironmentEnabled(cfg, s, a) || ServeEnabled(cfg, s, a) || StandbyEnabled(s, a) || FollowEnabled(s, a)
             || WaitEnabled(s, a)
    ensures EndsAnother(s, a)
  {
    hide CanWrite, Eligible, PassesStandbyChecks, IsWhatWasCreated, At, AtStage, MayGiveUp;
  }

  lemma PredecessorIsOther(cfg: Config, w: World, p: Cid, h: Handover)
    requires WorldOk(cfg, w) && Finishes(w, p, h)
    ensures h.predecessor != p && h.predecessor in w.ever
  {
    hide WorldOk, RecordOk;
    JournalNames(cfg, w);
  }

  /** The journal changes only by a process that knows what it is and holds the lock. */
  lemma OnlyTheHolderWrites(cfg: Config, states: seq<State>, actions: seq<Action>, i: nat)
    requires Run(cfg, states, actions) && i < |actions| && states[i + 1].w.journal != states[i].w.journal
    ensures Writer(actions[i]).Some?
    ensures var p := Writer(actions[i]).value;
            p in states[i].procs && states[i].procs[p].resolved && states[i].w.lock == Some(p)
  {
    hide Inv, Follows, Init, Writer;
    RunKeeps(cfg, states, actions, i);
    assert Follows(cfg, states[i], states[i + 1], actions[i]);
    StepExtends(cfg, states[i], states[i + 1], actions[i]);
    WriterHolds(cfg, states[i], states[i + 1], actions[i]);
  }

  predicate WritesAsHolder(s: State, a: Action) {
    Writer(a).Some? ==> var p := Writer(a).value; p in s.procs && s.procs[p].resolved && s.w.lock == Some(p)
  }

  lemma WriterHolds(cfg: Config, s: State, t: State, a: Action)
    requires Inv(cfg, s) && Follows(cfg, s, t, a)
    ensures WritesAsHolder(s, a)
  {
    hide Inv, EnvironmentEnabled, EnvironmentStep, ServeEnabled, ServeStep, RetiredEnabled, RetiredStep, StandbyEnabled,
         StandbyStep, AbortEnabled, AbortStep, ReconcileEnabled, ReconcileStep, TidyEnabled, TidyStep, FollowEnabled,
         FollowStep, WaitEnabled, WaitStep, WritesAsHolder;
    if EnvironmentEnabled(cfg, s, a) || ServeEnabled(cfg, s, a) || TidyEnabled(s, a) {
      OthersWriteNothing(cfg, s, a);
    } else if RetiredEnabled(s, a) || StandbyEnabled(s, a) {
      RolesWriteAsHolder(cfg, s, a);
    } else if AbortEnabled(s, a) {
      AbortWritesAsHolder(cfg, s, a);
    } else if ReconcileEnabled(s, a) {
      ReconcileWritesAsHolder(cfg, s, a);
    } else if FollowEnabled(s, a) {
      FollowWritesAsHolder(cfg, s, a);
    } else {
      WaitWritesAsHolder(cfg, s, a);
    }
  }

  lemma OthersWriteNothing(cfg: Config, s: State, a: Action)
    requires EnvironmentEnabled(cfg, s, a) || ServeEnabled(cfg, s, a) || TidyEnabled(s, a)
    ensures WritesAsHolder(s, a)
  {
    hide At, AtStage;
  }

  lemma RolesWriteAsHolder(cfg: Config, s: State, a: Action)
    requires Inv(cfg, s) && (RetiredEnabled(s, a) || StandbyEnabled(s, a))
    ensures WritesAsHolder(s, a)
  {
    hide Inv, WorldOk, Rightful, CanWrite, StageOk, PassesStandbyChecks;
    if Writer(a).Some? {
      Recalls(cfg, s, Writer(a).value);
      Ready(cfg, s, Writer(a).value);
    }
  }

  lemma AbortWritesAsHolder(cfg: Config, s: State, a: Action)
    requires Inv(cfg, s) && AbortEnabled(s, a)
    ensures WritesAsHolder(s, a)
  {
    hide Inv, CanWrite, UnmistakablySuccessor, AtStage;
    if a.AbortWrite? {
      StageIsHolders(cfg, s, a.p, AbortWriting(a.h, a.reason));
    }
  }

  /** A resolved stage is the lock holder's. */
  lemma StageIsHolders(cfg: Config, s: State, p: Cid, stage: Stage)
    requires Inv(cfg, s) && AtStage(s, p, stage) && !Unconcerned(stage)
    ensures p in s.procs && s.procs[p].resolved && s.w.lock == Some(p)
  {
    hide Inv, WorldOk, Rightful, StageOk;
    AtStageOk(cfg, s, p, stage);
  }

  lemma ReconcileWritesAsHolder(cfg: Config, s: State, a: Action)
    requires Inv(cfg, s) && ReconcileEnabled(s, a)
    ensures WritesAsHolder(s, a)
  {
    hide Inv, CanWrite, AtStage;
    if a.FinishWrite? {
      StageIsHolders(cfg, s, a.p, FinishWriting(a.h));
    } else if a.SupersedeWrite? {
      StageIsHolders(cfg, s, a.p, SupersedeWriting(a.h));
    }
  }

  lemma FollowWritesAsHolder(cfg: Config, s: State, a: Action)
    requires Inv(cfg, s) && FollowEnabled(s, a)
    ensures WritesAsHolder(s, a)
  {
    hide Inv, CanWrite, Eligible, IsWhatWasCreated, MayGiveUp, AtStage;
    if a.WritePrepared? {
      StageIsHolders(cfg, s, a.p, Evaluated(a.h));
    } else if a.WriteCreated? {
      StageIsHolders(cfg, s, a.p, RecordingSuccessor(a.h, a.c));
    }
  }

  lemma WaitWritesAsHolder(cfg: Config, s: State, a: Action)
    requires Inv(cfg, s) && WaitEnabled(s, a)
    ensures WritesAsHolder(s, a)
  {
    hide Inv, CanWrite, AtStage;
    if a.WriteCommitted? {
      StageIsHolders(cfg, s, a.p, Committing(a.h, a.read));
    }
  }

  /** The process that creates, starts or renames a container in an action, if any does. */
  function Maker(a: Action): Option<Cid> {
    match a
    case CreateSuccessor(p, _, _, _, _, _) => Some(p)
    case StartSuccessor(p, _, _, _) => Some(p)
    case TidyRename(p, _, _, _, _) => Some(p)
    case _ => None
  }

  predicate MakesAsHolder(s: State, a: Action) {
    && (Maker(a).Some? ==> var p := Maker(a).value; p in s.procs && s.procs[p].resolved && s.w.lock == Some(p))
    && (a.TidyRename? ==> Terminal(a.j.phase) && NamesRightly(a.p, a.j, a.target, a.name))
  }

  /** A container of a finished handover takes the name its side of it goes by. */
  predicate NamesRightly(p: Cid, j: Handover, target: Cid, name: string) {
    && (p == j.predecessor || p == j.successor)
    && (if target == p then name == j.canonicalName else target == j.predecessor && name == j.retiredName)
  }

  /**
    * Every container an updater creates, starts or renames, it does while it knows what it is and
    * holds the lock; and what it renames is itself or its predecessor, each by its side of a finished
    * handover.
    */
  lemma OnlyTheHolderMakes(cfg: Config, states: seq<State>, actions: seq<Action>, i: nat)
    requires Run(cfg, states, actions) && i < |actions|
    ensures MakesAsHolder(states[i], actions[i])
  {
    hide Inv, Follows, Init, MakesAsHolder;
    RunKeeps(cfg, states, actions, i);
    assert Follows(cfg, states[i], states[i + 1], actions[i]);
    MakerHolds(cfg, states[i], states[i + 1], actions[i]);
  }

  lemma MakerHolds(cfg: Config, s: State, t: State, a: Action)
    requires Inv(cfg, s) && Follows(cfg, s, t, a)
    ensures MakesAsHolder(s, a)
  {
    hide Inv, EnvironmentEnabled, EnvironmentStep, ServeEnabled, ServeStep, RetiredEnabled, RetiredStep, StandbyEnabled,
         StandbyStep, AbortEnabled, AbortStep, ReconcileEnabled, ReconcileStep, TidyEnabled, TidyStep, FollowEnabled,
         FollowStep, WaitEnabled, WaitStep, MakesAsHolder;
    if FollowEnabled(s, a) {
      FollowMakesAsHolder(cfg, s, a);
    } else if TidyEnabled(s, a) {
      TidyMakesAsHolder(cfg, s, a);
    } else {
      OthersMakeNothing(cfg, s, a);
    }
  }

  lemma FollowMakesAsHolder(cfg: Config, s: State, a: Action)
    requires Inv(cfg, s) && FollowEnabled(s, a)
    ensures MakesAsHolder(s, a)
  {
    hide Inv, CanWrite, Eligible, IsWhatWasCreated, MayGiveUp, AtStage;
    if a.CreateSuccessor? {
      StageIsHolders(cfg, s, a.p, CreatingSuccessor(a.h));
    } else if a.StartSuccessor? {
      StageIsHolders(cfg, s, a.p, StartingSuccessor(a.h));
    }
  }

  lemma TidyMakesAsHolder(cfg: Config, s: State, a: Action)
    requires Inv(cfg, s) && TidyEnabled(s, a)
    ensures MakesAsHolder(s, a)
  {
    hide Inv, Terminal, AtStage;
    if a.TidyRename? {
      StageIsHolders(cfg, s, a.p, Tidying(a.j, []));
      TidiesWhatIsFinished(cfg, s, a.p, a.j, []);
    }
  }

  lemma TidiesWhatIsFinished(cfg: Config, s: State, p: Cid, j: Handover, todo: seq<Cid>)
    requires Inv(cfg, s) && AtStage(s, p, Tidying(j, todo))
    ensures Terminal(j.phase)
  {
    hide Inv, WorldOk, Rightful, Terminal;
    AtStageOk(cfg, s, p, Tidying(j, todo));
  }

  lemma OthersMakeNothing(cfg: Config, s: State, a: Action)
    requires || EnvironmentEnabled(cfg, s, a) || ServeEnabled(cfg, s, a) || RetiredEnabled(s, a) || StandbyEnabled(s, a)
             || AbortEnabled(s, a) || ReconcileEnabled(s, a) || WaitEnabled(s, a)
    ensures MakesAsHolder(s, a)
  {
    hide CanWrite, PassesStandbyChecks, UnmistakablySuccessor, At, AtStage;
  }
}
