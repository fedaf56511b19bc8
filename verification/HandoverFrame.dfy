/** How one step of one process, or of the environment, leaves the others in order. */
module HandoverFrame {
  import opened Wrappers
  import opened HandoverJournal
  import opened HandoverModel
  import opened HandoverInvariant
  import opened HandoverWorld

  /** A process changes only its own memory. */
  lemma LocalKeeps(cfg: Config, s: State, p: Cid, proc: Proc)
    requires Inv(cfg, s) && p in s.procs && ProcOk(cfg, s.w, p, proc)
    ensures Inv(cfg, s.(procs := s.procs[p := proc]))
  {
    hide WorldOk, ProcOk;
  }

  lemma GoKeeps(cfg: Config, s: State, p: Cid, pc: Pc)
    requires Inv(cfg, s) && p in s.procs && ProcOk(cfg, s.w, p, s.procs[p].(pc := pc))
    ensures Inv(cfg, Go(s, p, pc))
  {
    hide Inv, ProcOk;
    LocalKeeps(cfg, s, p, s.procs[p].(pc := pc));
  }

  /** What is shared changes, and no process notices. */
  lemma ChangeKeeps(cfg: Config, s: State, v: World)
    requires Inv(cfg, s) && WorldOk(cfg, v) && v.lock == s.w.lock
    requires forall q :: q in s.procs ==> Bears(cfg, s.w, v, q, s.procs[q])
    ensures Inv(cfg, s.(w := v))
  {
    hide LogOk, ProcOk, Bears, SoloOk, RetiredOk, PassesOk;
    forall q | q in s.procs ensures ProcOk(cfg, v, q, s.procs[q]) {
      ProcStays(cfg, s.w, v, q, s.procs[q]);
    }
  }

  /** A process moves on, having changed what is shared. */
  lemma TurnKeeps(cfg: Config, s: State, v: World, p: Cid, pc: Pc)
    requires Inv(cfg, s) && p in s.procs && WorldOk(cfg, v) && (v.lock.Some? ==> v.lock.value in s.procs)
    requires ProcOk(cfg, v, p, s.procs[p].(pc := pc))
    requires forall q :: q in s.procs && q != p ==> Bears(cfg, s.w, v, q, s.procs[q])
    ensures Inv(cfg, Turn(s, v, p, pc))
  {
    hide LogOk, ProcOk, Bears, SoloOk, RetiredOk, PassesOk;
    forall q | q in s.procs && q != p ensures ProcOk(cfg, v, q, s.procs[q]) {
      ProcStays(cfg, s.w, v, q, s.procs[q]);
    }
  }

  /** A process ends. */
  lemma HaltKeeps(cfg: Config, s: State, v: World, c: Cid)
    requires Inv(cfg, s) && WorldOk(cfg, v) && v.lock == (if s.w.lock == Some(c) then None else s.w.lock)
    requires forall q :: q in s.procs && q != c ==> Bears(cfg, s.w, v, q, s.procs[q])
    ensures Inv(cfg, State(v, s.procs - {c}))
  {
    hide LogOk, ProcOk, Bears, SoloOk, RetiredOk, PassesOk;
    forall q | q in s.procs && q != c ensures ProcOk(cfg, v, q, s.procs[q]) {
      ProcStays(cfg, s.w, v, q, s.procs[q]);
    }
  }

  // ---------------------------------------------------- containers come and go

  /** A change of the containers only: nothing comes back, and nothing is started that was not. */
  ghost predicate Fewer(w: World, v: World) {
    && v == w.(lock := v.lock, boxes := v.boxes)
    && v.boxes.Keys <= w.boxes.Keys && forall c :: IsStarted(v, c) ==> IsStarted(w, c)
  }

  lemma FewerKeeps(cfg: Config, w: World, v: World)
    requires WorldOk(cfg, w) && Fewer(w, v)
    ensures WorldOk(cfg, v) && Grows(w, v)
  {
    hide LogOk, SoloOk, RetiredOk, IsStarted;
    CalmKeeps(cfg, w, v);
  }

  lemma FewerBears(cfg: Config, w: World, v: World, p: Cid, proc: Proc)
    requires Fewer(w, v) && Grows(w, v)
    requires IsStarted(w, p) ==> IsStarted(v, p)
    requires v.lock == Some(p) <==> w.lock == Some(p)
    ensures Bears(cfg, w, v, p, proc)
  {
    hide Grows, IsStarted;
  }

  lemma KilledKeeps(cfg: Config, s: State, c: Cid)
    requires Inv(cfg, s)
    ensures Inv(cfg, Killed(s, c))
  {
    hide WorldOk, Bears, ProcOk, Grows;
    var v := Freed(s.w, c);
    FewerKeeps(cfg, s.w, v);
    forall q | q in s.procs && q != c ensures Bears(cfg, s.w, v, q, s.procs[q]) {
      FewerBears(cfg, s.w, v, q, s.procs[q]);
    }
    HaltKeeps(cfg, s, v, c);
  }

  lemma StoppedKeeps(cfg: Config, s: State, c: Cid)
    requires Inv(cfg, s)
    ensures Inv(cfg, Stopped(s, c))
  {
    hide WorldOk, Bears, ProcOk, Grows;
    if c in s.w.boxes {
      var v := WithBox(Freed(s.w, c), c, s.w.boxes[c].(up := false));
      FewerKeeps(cfg, s.w, v);
      forall q | q in s.procs && q != c ensures Bears(cfg, s.w, v, q, s.procs[q]) {
        FewerBears(cfg, s.w, v, q, s.procs[q]);
      }
      HaltKeeps(cfg, s, v, c);
    }
  }

  lemma RemovedKeeps(cfg: Config, s: State, c: Cid)
    requires Inv(cfg, s)
    ensures Inv(cfg, Removed(s, c))
  {
    hide WorldOk, Bears, ProcOk, Grows;
    var v := WithoutBox(Freed(s.w, c), c);
    FewerKeeps(cfg, s.w, v);
    forall q | q in s.procs && q != c ensures Bears(cfg, s.w, v, q, s.procs[q]) {
      FewerBears(cfg, s.w, v, q, s.procs[q]);
    }
    HaltKeeps(cfg, s, v, c);
  }

  /** A container is renamed, or a started one started again. */
  lemma RestartKeeps(cfg: Config, s: State, c: Cid, box: Box)
    requires Inv(cfg, s) && c in s.w.boxes && box.started == s.w.boxes[c].started
    ensures Inv(cfg, s.(w := WithBox(s.w, c, box)))
  {
    hide WorldOk, Bears, ProcOk, Grows;
    var v := WithBox(s.w, c, box);
    FewerKeeps(cfg, s.w, v);
    forall q | q in s.procs ensures Bears(cfg, s.w, v, q, s.procs[q]) {
      FewerBears(cfg, s.w, v, q, s.procs[q]);
    }
    ChangeKeeps(cfg, s, v);
  }

  /** A change that starts nothing, or starts where no process works without the lock. */
  lemma QuietBears(cfg: Config, w: World, v: World, p: Cid, proc: Proc)
    requires Grows(w, v) && v.journal == w.journal && v.lock == w.lock
    requires forall c :: IsStarted(w, c) ==> IsStarted(v, c)
    requires proc.pc.Unlocked? ==> forall c :: IsStarted(v, c) ==> IsStarted(w, c)
    ensures Bears(cfg, w, v, p, proc)
  {
    hide Grows, IsStarted;
  }

  lemma StartedBears(cfg: Config, w: World, c: Cid, q: Cid, proc: Proc)
    requires Grows(w, Started(w, c)) && !proc.pc.Unlocked?
    ensures Bears(cfg, w, Started(w, c), q, proc)
  {
    hide Grows;
    QuietBears(cfg, w, Started(w, c), q, proc);
  }

  /** A new container appears. */
  lemma MadeKeeps(cfg: Config, s: State, c: Cid, build: Build, box: Box)
    requires Inv(cfg, s) && c != "" && c !in s.w.ever && c != s.w.agent.id && (box.started ==> cfg.flockWorks)
    ensures Inv(cfg, s.(w := Made(s.w, c, build, box)))
  {
    hide LogOk, SoloOk, RetiredOk, Bears;
    var v := Made(s.w, c, build, box);
    MadeGrows(cfg, s.w, c, build, box);
    CalmKeeps(cfg, s.w, v);
    forall q | q in s.procs ensures Bears(cfg, s.w, v, q, s.procs[q]) {
      assert ProcOk(cfg, s.w, q, s.procs[q]);
      UnlockedMeansNoLock(cfg, s.w, q, s.procs[q]);
      MadeBears(cfg, s.w, c, build, box, q, s.procs[q]);
    }
    hide WorldOk, ProcOk;
    ChangeKeeps(cfg, s, v);
  }

  lemma MadeBears(cfg: Config, w: World, c: Cid, build: Build, box: Box, q: Cid, proc: Proc)
    requires Grows(w, Made(w, c, build, box)) && c !in w.boxes && (proc.pc.Unlocked? ==> !box.started)
    ensures Bears(cfg, w, Made(w, c, build, box), q, proc)
  {
    QuietBears(cfg, w, Made(w, c, build, box), q, proc);
  }

  lemma MadeGrows(cfg: Config, w: World, c: Cid, build: Build, box: Box)
    requires BoxesOk(w) && PassesOk(w) && c != "" && c !in w.ever && c != w.agent.id
             && (box.started ==> cfg.flockWorks)
    ensures var v := Made(w, c, build, box);
            Grows(w, v) && Calm(w, v) && StartsOk(cfg, w, v) && BoxesOk(v) && PassesOk(v)
  {
  }

  lemma UnlockedMeansNoLock(cfg: Config, w: World, p: Cid, proc: Proc)
    requires ProcOk(cfg, w, p, proc)
    ensures proc.pc.Unlocked? ==> !cfg.flockWorks && OnlyStarted(w, p)
  {
  }

  // --------------------------------------------------------------- the lock holder

  lemma Ready(cfg: Config, s: State, p: Cid)
    requires Inv(cfg, s) && p in s.procs
    ensures ProcOk(cfg, s.w, p, s.procs[p]) && WorldOk(cfg, s.w)
  {
    hide WorldOk, ProcOk;
  }

  lemma HolderIsUnique(cfg: Config, s: State, p: Cid, q: Cid)
    requires Inv(cfg, s) && p in s.procs && q in s.procs && p != q && s.w.lock == Some(p)
    ensures !HoldsLock(s.procs[q].pc) && !s.procs[q].pc.Unlocked?
  {
    hide WorldOk, Remembers, Rightful, HoldsLock;
    assert ProcOk(cfg, s.w, p, s.procs[p]) && ProcOk(cfg, s.w, q, s.procs[q]);
    UnlockedMeansNoLock(cfg, s.w, q, s.procs[q]);
  }

  lemma AloneMeans(cfg: Config, s: State, q: Cid)
    requires Inv(cfg, s) && q in s.procs && (s.procs[q].pc.AlonePredecessor? || s.procs[q].pc.AloneSuccessor?)
    ensures !cfg.flockWorks && s.w.journal.Some? && Terminal(s.w.journal.value.phase) && IsStarted(s.w, q)
  {
    hide WorldOk, Rightful, HoldsLock;
    assert ProcOk(cfg, s.w, q, s.procs[q]);
  }

  /** Nobody else relies on the journal while a handover is in progress or its leftovers are gone. */
  lemma NobodyElseRelies(cfg: Config, s: State, p: Cid, q: Cid)
    requires Inv(cfg, s) && p in s.procs && q in s.procs && p != q && s.w.lock == Some(p)
    requires s.w.journal.Some? ==> !Terminal(s.w.journal.value.phase) || NamedAreGone(s.w, p)
    ensures !Relies(s.procs[q].pc)
  {
    hide Inv, HoldsLock, Named, Terminal;
    HolderIsUnique(cfg, s, p, q);
    if s.procs[q].pc.AlonePredecessor? || s.procs[q].pc.AloneSuccessor? {
      AloneMeans(cfg, s, q);
      NamedIfStarted(cfg, s, q);
    }
  }

  lemma NamedIfStarted(cfg: Config, s: State, q: Cid)
    requires Inv(cfg, s) && !cfg.flockWorks && s.w.journal.Some? && IsStarted(s.w, q)
    ensures q in Named(s.w.journal.value)
  {
    hide LogOk, PassesOk, RetiredOk, ProcsOk;
  }

  /** The world after a record landed, with or without the lock let go. */
  predicate LandedAs(w: World, v: World, next: Handover) {
    v == Landed(w, next, "").(lock := v.lock, log := v.log)
  }

  lemma LandBears(cfg: Config, w: World, v: World, next: Handover, q: Cid, proc: Proc)
    requires LandedAs(w, v, next) && !Relies(proc.pc) && (v.lock == Some(q) <==> w.lock == Some(q))
    requires next.id !in w.ids || (w.journal.Some? && Identity(next) == Identity(w.journal.value))
    ensures Bears(cfg, w, v, q, proc)
  {
    hide Identity, RetiredBy;
  }

  /** The lock holder's record lands and it moves on, keeping the lock or letting it go. */
  lemma LandKeeps(cfg: Config, s: State, v: World, next: Handover, p: Cid, pc: Pc)
    requires Inv(cfg, s) && p in s.procs && s.w.lock == Some(p) && (v.lock == Some(p) || v.lock == None)
    requires LandedAs(s.w, v, next) && WorldOk(cfg, v)
    requires next.id !in s.w.ids || (s.w.journal.Some? && Identity(next) == Identity(s.w.journal.value))
    requires s.w.journal.Some? ==> !Terminal(s.w.journal.value.phase) || NamedAreGone(s.w, p)
    requires ProcOk(cfg, v, p, s.procs[p].(pc := pc))
    ensures Inv(cfg, Turn(s, v, p, pc))
  {
    hide Inv, WorldOk, ProcOk, NamedAreGone, Relies, LandedAs, Identity;
    forall q | q in s.procs && q != p ensures Bears(cfg, s.w, v, q, s.procs[q]) {
      hide Bears;
      NobodyElseRelies(cfg, s, p, q);
      LandBears(cfg, s.w, v, next, q, s.procs[q]);
    }
    TurnKeeps(cfg, s, v, p, pc);
  }

  /** The lock is taken or let go. */
  lemma LockKeeps(cfg: Config, s: State, p: Cid, lock: Option<Cid>, pc: Pc)
    requires Inv(cfg, s) && p in s.procs
    requires (s.w.lock == None && lock == Some(p)) || (s.w.lock == Some(p) && lock == None)
    requires ProcOk(cfg, s.w.(lock := lock), p, s.procs[p].(pc := pc))
    ensures Inv(cfg, Turn(s, s.w.(lock := lock), p, pc))
  {
    hide WorldOk, ProcOk, Bears, Grows;
    var v := s.w.(lock := lock);
    FewerKeeps(cfg, s.w, v);
    forall q | q in s.procs && q != p ensures Bears(cfg, s.w, v, q, s.procs[q]) {
      FewerBears(cfg, s.w, v, q, s.procs[q]);
    }
    TurnKeeps(cfg, s, v, p, pc);
  }
}
