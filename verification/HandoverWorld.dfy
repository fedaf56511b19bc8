/** How each kind of change to what is shared keeps it in order. */
module HandoverWorld {
  import opened Wrappers
  import opened VersionOrder
  import opened HandoverJournal
  import opened HandoverModel
  import opened HandoverInvariant

  lemma RecordStays(w: World, v: World, h: Handover)
    requires RecordOk(w, h) && Grows(w, v)
    ensures RecordOk(v, h)
  {
  }

  lemma RecordsStay(w: World, v: World)
    requires Grows(w, v)
    ensures forall h :: RecordOk(w, h) ==> RecordOk(v, h)
  {
    hide RecordOk, Grows;
    forall h | RecordOk(w, h) ensures RecordOk(v, h) {
      RecordStays(w, v, h);
    }
  }

  /** A change that leaves the journal and its history alone. */
  predicate Calm(w: World, v: World) {
    v.journal == w.journal && v.log == w.log
  }

  /** Whatever is newly started is a container of the journal's handover, unless strangers may appear. */
  ghost predicate StartsOk(cfg: Config, w: World, v: World) {
    forall c :: IsStarted(v, c) && !IsStarted(w, c) ==>
      cfg.flockWorks || (w.journal.Some? && (c == w.journal.value.predecessor || c == w.journal.value.successor))
  }

  lemma CalmKeepsLog(w: World, v: World)
    requires LogOk(w) && Grows(w, v) && Calm(w, v)
    ensures LogOk(v)
  {
    hide RecordOk, Grows, EntryOk, AcceptedRun, FreshIds;
    RecordsStay(w, v);
  }

  lemma CalmKeepsBoxes(cfg: Config, w: World, v: World)
    requires LogOk(w) && RetiredOk(w) && SoloOk(cfg, w) && Grows(w, v) && Calm(w, v) && StartsOk(cfg, w, v)
    ensures RetiredOk(v) && SoloOk(cfg, v)
  {
    hide RetiredBy, RecordOk, EntryOk, AcceptedRun, FreshIds;
    assert forall c :: IsStarted(v, c) ==> IsStarted(w, c) || !IsStarted(w, c);
    forall i | 0 <= i < |w.log| ensures RetiredBy(w.log[i].record) <= w.ever.Keys {
      RetiresNamed(w, w.log[i].record);
    }
  }

  lemma CalmKeeps(cfg: Config, w: World, v: World)
    requires WorldOk(cfg, w) && Grows(w, v) && Calm(w, v) && StartsOk(cfg, w, v) && BoxesOk(v) && PassesOk(v)
    ensures WorldOk(cfg, v)
  {
    hide LogOk, RetiredOk, SoloOk, Grows, Calm, StartsOk, PassesOk, BoxesOk;
    CalmKeepsLog(w, v);
    CalmKeepsBoxes(cfg, w, v);
  }

  // ------------------------------------------------------------- a record lands

  /** What the writer's rule says about a record that is not the first of its handover. */
  lemma MoveFacts(prev: Handover, next: Handover, now: int)
    requires Accepted(Some(prev), next, now) && !next.phase.Prepared?
    ensures prev.id == next.id && !Terminal(prev.phase) && Identity(prev) == Identity(next) && ValidSuccessor(next)
    ensures next.successor == prev.successor || (prev.phase.Prepared? && next.phase.Created?)
    ensures next.phase in Transitions(prev.phase)
  {
    hide ValidText, Preemption, NextAttempt;
  }

  /** What the writer's rule says about the first record of a handover. */
  lemma NewFacts(prev: Option<Handover>, next: Handover, now: int)
    requires Accepted(prev, next, now) && next.phase.Prepared?
    ensures Valid(next) && (prev.Some? ==> prev.value.id != next.id && Terminal(prev.value.phase))
  {
    hide ValidText, Preemption, NextAttempt;
  }

  lemma {:induction false} RunGrows(log: seq<Entry>, e: Entry)
    requires AcceptedRun(log) && Accepted(RecordBefore(log, |log|), e.record, e.at)
    ensures AcceptedRun(log + [e])
  {
    hide Accepted;
    var longer := log + [e];
    forall i | 0 <= i < |longer| ensures Accepted(RecordBefore(longer, i), longer[i].record, longer[i].at) {
      assert RecordBefore(longer, i) == RecordBefore(log, i);
    }
  }

  lemma IdsStayFresh(log: seq<Entry>, e: Entry)
    requires FreshIds(log)
    requires forall i :: 0 <= i < |log| && (|log| == 0 || log[|log| - 1].record.id != e.record.id) ==>
                           log[i].record.id != e.record.id
    ensures FreshIds(log + [e])
  {
  }

  lemma LandGrows(w: World, next: Handover, read: string)
    ensures Grows(w, Landed(w, next, read))
  {
  }

  /** The history stays in order when an accepted record joins it. */
  lemma LandKeepsLog(w: World, next: Handover, read: string)
    requires LogOk(w) && Accepted(w.journal, next, w.now)
    requires next.id in w.ids ==> w.journal.Some? && w.journal.value.id == next.id
    requires RecordOk(Landed(w, next, read), next) && EntryOk(Entry(next, w.now, read))
    ensures LogOk(Landed(w, next, read))
  {
    hide RecordOk, Grows, EntryOk, AcceptedRun, FreshIds, Accepted, RetiredBy;
    var v := Landed(w, next, read);
    LandGrows(w, next, read);
    RecordsStay(w, v);
    RunGrows(w.log, Entry(next, w.now, read));
    IdsInLog(w);
    IdsStayFresh(w.log, Entry(next, w.now, read));
  }

  lemma IdsInLog(w: World)
    requires LogOk(w)
    ensures forall i :: 0 <= i < |w.log| ==> w.log[i].record.id in w.ids
  {
    hide Newer, SlotIsIdle, NamesOk, AcceptedRun, FreshIds, EntryOk;
  }

  lemma UnfinishedRetiresNobody(h: Handover)
    requires !Terminal(h.phase)
    ensures RetiredBy(h) == {}
  {
  }

  /** A record of the handover in progress lands. */
  lemma MoveLands(cfg: Config, w: World, next: Handover, read: string)
    requires WorldOk(cfg, w) && w.journal.Some? && Accepted(w.journal, next, w.now) && !next.phase.Prepared?
    requires next.successor != "" ==> next.successor in w.ever
    requires CarriesProof(next.phase) ==> ProvenBy(w, next)
    requires next.phase.Abandoned? ==> next.predecessor !in w.boxes
    requires EntryOk(Entry(next, w.now, read))
    ensures WorldOk(cfg, Landed(w, next, read))
  {
    hide LogOk, EntryOk, Accepted, PassesOk, CarriesProof, ProvenBy, RetiredOk, SoloOk, RecordOk, NamesOk, Identity,
         BoxesOk;
    var prev := w.journal.value;
    JournalIsOk(w);
    MoveFacts(prev, next, w.now);
    MoveRecordOk(w, prev, next, read);
    SameId(prev, next);
    LandKeepsLog(w, next, read);
    PassesLand(w, next, read);
    MoveKeepsRetired(w, prev, next, read);
    MoveKeepsSolo(cfg, w, prev, next, read);
    BoxesLand(w, next, read);
  }

  lemma SameId(prev: Handover, next: Handover)
    requires Identity(prev) == Identity(next)
    ensures prev.id == next.id && prev.predecessor == next.predecessor
  {
  }

  lemma BoxesLand(w: World, next: Handover, read: string)
    requires BoxesOk(w)
    ensures BoxesOk(Landed(w, next, read))
  {
  }

  lemma MoveKeepsRetired(w: World, prev: Handover, next: Handover, read: string)
    requires RetiredOk(w) && w.journal == Some(prev) && !Terminal(prev.phase)
    ensures RetiredOk(Landed(w, next, read))
  {
    hide RetiredBy;
    UnfinishedRetiresNobody(prev);
  }

  lemma MoveKeepsSolo(cfg: Config, w: World, prev: Handover, next: Handover, read: string)
    requires SoloOk(cfg, w) && w.journal == Some(prev) && prev.predecessor == next.predecessor && RecordOk(w, prev)
             && BoxesOk(w)
    requires next.successor == prev.successor || prev.phase.Prepared?
    ensures SoloOk(cfg, Landed(w, next, read))
  {
    hide RetiredBy;
    assert forall c :: IsStarted(Landed(w, next, read), c) ==> IsStarted(w, c) && c != "";
  }

  lemma PassesLand(w: World, next: Handover, read: string)
    requires PassesOk(w)
    ensures PassesOk(Landed(w, next, read))
  {
  }

  lemma RetiresNamed(w: World, h: Handover)
    requires RecordOk(w, h)
    ensures RetiredBy(h) <= w.ever.Keys
  {
  }

  lemma MoveRecordOk(w: World, prev: Handover, next: Handover, read: string)
    requires RecordOk(w, prev) && Identity(prev) == Identity(next) && ValidSuccessor(next)
    requires next.successor != "" ==> next.successor in w.ever
    requires CarriesProof(next.phase) ==> ProvenBy(w, next)
    requires next.phase.Abandoned? ==> next.predecessor !in w.boxes
    ensures RecordOk(Landed(w, next, read), next) && NamesOk(w, next)
  {
    hide RetiredBy;
  }

  /** The first record of a handover lands. */
  lemma BeginLands(cfg: Config, w: World, p: Cid, next: Handover, read: string)
    requires WorldOk(cfg, w) && Accepted(w.journal, next, w.now) && next.id !in w.ids
    requires EvaluatedOk(w, p, next) && IsStarted(w, p) && Rightful(w.journal, p)
    ensures WorldOk(cfg, Landed(w, next, read))
  {
    hide LogOk, EntryOk, Accepted, PassesOk, Valid, RetiredOk, SoloOk, RecordOk, NamesOk, BoxesOk, NamedAreGone,
         Rightful, Builds;
    NewFacts(w.journal, next, w.now);
    PredecessorIsNamed(next);
    BeginRecordOk(w, p, next, read);
    LandKeepsLog(w, next, read);
    PassesLand(w, next, read);
    BoxesLand(w, next, read);
    if w.journal.Some? {
      JournalIsOk(w);
      RecordNames(w, w.journal.value);
      RightfulIsNotRetired(w, w.journal.value, p);
    }
    BeginKeepsRetired(w, next, read);
    BeginKeepsSolo(cfg, w, p, next, read);
  }

  lemma RecordNames(w: World, h: Handover)
    requires RecordOk(w, h)
    ensures NamesOk(w, h)
  {
  }

  lemma BeginKeepsRetired(w: World, next: Handover, read: string)
    requires RetiredOk(w) && next.phase.Prepared?
    requires w.journal.Some? ==> forall c :: c in RetiredBy(w.journal.value) ==> c !in w.boxes
    ensures RetiredOk(Landed(w, next, read))
  {
    hide RetiredBy;
    UnfinishedRetiresNobody(next);
  }

  lemma BeginKeepsSolo(cfg: Config, w: World, p: Cid, next: Handover, read: string)
    requires SoloOk(cfg, w) && IsStarted(w, p) && next.predecessor == p
    requires w.journal.Some? ==>
               forall c :: (c == w.journal.value.predecessor || c == w.journal.value.successor) && c in w.boxes ==>
                             c == p
    ensures SoloOk(cfg, Landed(w, next, read))
  {
    hide RetiredBy;
    assert forall c :: IsStarted(Landed(w, next, read), c) ==> IsStarted(w, c);
  }

  lemma BeginRecordOk(w: World, p: Cid, next: Handover, read: string)
    requires EvaluatedOk(w, p, next) && next.predecessor != ""
    ensures RecordOk(Landed(w, next, read), next) && EntryOk(Entry(next, w.now, read))
  {
    hide RetiredBy;
  }

  /** A container with the right to the role is not one the finished record retired; nobody else it names is left. */
  lemma RightfulIsNotRetired(w: World, j: Handover, p: Cid)
    requires w.journal == Some(j) && NamesOk(w, j) && Rightful(w.journal, p) && NamedAreGone(w, p) && BoxesOk(w)
             && p != ""
    ensures forall c :: c in RetiredBy(j) ==> c !in w.boxes
    ensures forall c :: (c == j.predecessor || c == j.successor) && c in w.boxes ==> c == p
  {
  }
}
