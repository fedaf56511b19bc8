/**
  * The handover journal: its shape, the writer's rule, the retry policy and the
  * role table (internal/upgrade/docker_handover_state.go).
  */
module HandoverJournal {
  import opened Wrappers
  import opened ReleaseId

  datatype Phase =
    | Prepared | Created | Committed
    | Completed | Aborted | Reverted | Abandoned | Superseded

  predicate Terminal(phase: Phase) {
    phase.Completed? || phase.Aborted? || phase.Reverted? || phase.Abandoned? || phase.Superseded?
  }

  /** Every move the journal may make within one handover. */
  function Transitions(phase: Phase): seq<Phase> {
    match phase
    case Prepared => [Created, Aborted]
    case Created => [Committed, Aborted, Abandoned]
    case Committed => [Completed, Reverted, Superseded]
    case _ => []
  }

  const MAX_ATTEMPTS: nat := 3
  const FIRST_BACKOFF: int := 600
  const LATER_BACKOFF: int := 3600
  const MAX_REASON: nat := 256
  const PREEMPTED := "preempted by agent request"

  /** The reason that ends a handover giving way to an agent request. */
  predicate Preemption(reason: string) {
    reason == PREEMPTED
  }

  lemma BeginsOtherwise(reason: string)
    requires |reason| > 0 && reason[0] != 'p'
    ensures !Preemption(reason)
  {
    assert PREEMPTED[0] == 'p';
  }

  const REPOSITORY := "ghcr.io/kazuhahub/passwall-node"

  datatype Handover = Handover(
    id: string, phase: Phase, attempt: int, notBefore: int,
    canonicalName: string, successorName: string, retiredName: string,
    predecessor: string, predecessorImage: string, predecessorVersion: string,
    successor: string, image: string, imageReference: string, version: string,
    agentContainer: string, agentBinary: string, evidenceTask: string,
    requestDigest: string, reason: string)

  // -------------------------------------------------------------------- shape

  predicate HexDigit(c: char) {
    '0' <= c <= '9' || 'a' <= c <= 'f'
  }

  predicate LowerHex(value: string, n: nat) {
    |value| == n && forall i :: 0 <= i < n ==> HexDigit(value[i])
  }

  predicate ImageId(value: string) {
    "sha256:" <= value && LowerHex(value[7..], 64)
  }

  predicate NameChar(c: char) {
    'A' <= c <= 'Z' || 'a' <= c <= 'z' || '0' <= c <= '9'
  }

  /** A name the engine accepts: a letter or digit, then up to 127 letters, digits, '_', '.' or '-'. */
  predicate ObjectName(value: string) {
    && 1 <= |value| <= 128 && NameChar(value[0])
    && forall i :: 0 < i < |value| ==> NameChar(value[i]) || value[i] in "_.-"
  }

  predicate ReceiptTaskId(value: string) {
    && 1 <= |value| <= 128
    && forall i :: 0 <= i < |value| ==>
         || 'a' <= value[i] <= 'z' || '0' <= value[i] <= '9'
         || (i > 0 && value[i] in "_-.:")
  }

  predicate Printable(value: string) {
    forall i :: 0 <= i < |value| ==> value[i] >= ' ' && value[i] != 0x7f as char
  }

  predicate ValidNames(h: Handover)
    requires LowerHex(h.id, 32)
  {
    && ObjectName(h.canonicalName) && ObjectName(h.successorName) && ObjectName(h.retiredName)
    && h.successorName == h.canonicalName + "-next-" + h.id[..8]
    && h.retiredName == h.canonicalName + "-retired-" + h.id[..8]
  }

  /** The text fields decode to what they should name. */
  predicate ValidText(h: Handover) {
    && LowerHex(h.id, 32)
    && ValidNames(h)
    && LowerHex(h.predecessor, 64) && ImageId(h.predecessorImage) && IsVersion(h.predecessorVersion)
    && ImageId(h.image) && IsVersion(h.version) && h.imageReference == REPOSITORY + ":" + h.version
    && LowerHex(h.agentContainer, 64) && LowerHex(h.agentBinary, 64) && ReceiptTaskId(h.evidenceTask)
    && (h.requestDigest != "" ==> LowerHex(h.requestDigest, 64))
    && |h.reason| <= MAX_REASON && Printable(h.reason)
    && (h.successor != "" ==> LowerHex(h.successor, 64))
  }

  /** The successor exists from created on; an abort may come before or after it was created. */
  predicate ValidSuccessor(h: Handover) {
    && (h.phase.Prepared? ==> h.successor == "")
    && (h.successor == "" ==> h.phase.Prepared? || h.phase.Aborted?)
    && h.successor != h.predecessor
  }

  predicate Valid(h: Handover) {
    && ValidText(h)
    && 1 <= h.attempt <= MAX_ATTEMPTS && h.notBefore >= 0
    && (Preemption(h.reason) ==> h.phase.Aborted? && h.notBefore == 0)
    && ValidSuccessor(h)
  }

  /** A record's predecessor is a container: its name is never empty. */
  lemma PredecessorIsNamed(h: Handover)
    requires Valid(h)
    ensures h.predecessor != ""
  {
  }

  // ------------------------------------------------------------- retry policy

  datatype JournalError =
    | InvalidRecord | InProgress | NotPrepared | Exhausted | BackingOff
    | WrongAttempt | WrongMove | IdentityChanged | NotStored

  /** A handover that ended in failure, other than by giving way to an agent request. */
  predicate Failed(h: Handover) {
    (h.phase.Aborted? && !Preemption(h.reason)) || h.phase.Reverted?
  }

  /** The number of a new handover of the predecessor onto the image, given the journal it replaces. */
  function NextAttempt(prev: Option<Handover>, predecessor: string, image: string, now: int): Result<int,
  JournalError> {
    if prev.None? || (!prev.value.phase.Aborted? && !prev.value.phase.Reverted?)
       || prev.value.predecessor != predecessor || prev.value.image != image then Success(1)
    else if Preemption(prev.value.reason) then Success(prev.value.attempt)
    else if prev.value.attempt >= MAX_ATTEMPTS then Failure(Exhausted)
    else if now < prev.value.notBefore then Failure(BackingOff)
    else Success(prev.value.attempt + 1)
  }

  /** The earliest second another attempt may start after this one failed at now. */
  function NotBefore(attempt: int, reason: string, now: int): int {
    if Preemption(reason) then 0
    else if attempt <= 1 then now + FIRST_BACKOFF
    else now + LATER_BACKOFF
  }

  // ------------------------------------------------------------------- writer

  /** What a handover keeps from its first record to its last. */
  function Identity(h: Handover): Handover {
    h.(phase := Prepared, successor := "", reason := "", notBefore := 0)
  }

  /** The record a move to next.phase must be, given what is on disk. */
  function Expected(prev: Handover, next: Handover): Handover {
    var e := prev.(phase := next.phase);
    var e := if next.phase.Created? && prev.successor == "" then e.(successor := next.successor) else e;
    var e := if Terminal(next.phase) then e.(reason := next.reason) else e;
    if next.phase.Aborted? || next.phase.Reverted? then e.(notBefore := next.notBefore) else e
  }

  /** Why the writer refuses next over what is on disk, or that it accepts it. */
  function Accept(prev: Option<Handover>, next: Handover, now: int): Result<(), JournalError> {
    if !Valid(next) then Failure(InvalidRecord)
    else if prev.None? || prev.value.id != next.id then
      if prev.Some? && !Terminal(prev.value.phase) then Failure(InProgress)
      else if !next.phase.Prepared? then Failure(NotPrepared)
      else
        var attempt :- NextAttempt(prev, next.predecessor, next.image, now);
        if next.attempt != attempt || next.notBefore != 0 || next.reason != "" then Failure(WrongAttempt)
        else Success(())
    else if next.phase !in Transitions(prev.value.phase) then Failure(WrongMove)
    else if next != Expected(prev.value, next) then Failure(IdentityChanged)
    else Success(())
  }

  predicate Accepted(prev: Option<Handover>, next: Handover, now: int) {
    Accept(prev, next, now).Success?
  }

  /**
    * What became of an accepted write. The rename that replaces the file comes
    * before the directory is synced, so a write can land and still report an error.
    */
  datatype Storage = Stored | StoredUnconfirmed | NotStoredAtAll

  /** The journal file, written only by the lock holder. */
  class JournalFile {
    var record: Option<Handover>

    constructor ()
      ensures record == None
    {
      record := None;
    }

    method WriteHandover(next: Handover, now: int, storage: Storage) returns (r: Result<(), JournalError>)
      modifies this
      ensures !Accepted(old(record), next, now) ==>
                record == old(record) && r == Failure(Accept(old(record), next, now).error)
      ensures Accepted(old(record), next, now) ==>
                && record == (if storage.NotStoredAtAll? then old(record) else Some(next))
                && r == (if storage.Stored? then Success(()) else Failure(NotStored))
    {
      hide ValidText, Preemption;
      if !Valid(next) {
        return Failure(InvalidRecord);
      }
      if record.None? || record.value.id != next.id {
        if record.Some? && !Terminal(record.value.phase) {
          return Failure(InProgress);
        }
        if !next.phase.Prepared? {
          return Failure(NotPrepared);
        }
        var attempt := NextAttempt(record, next.predecessor, next.image, now);
        if attempt.Failure? {
          return Failure(attempt.error);
        }
        if next.attempt != attempt.value || next.notBefore != 0 || next.reason != "" {
          return Failure(WrongAttempt);
        }
        r := Store(next, storage);
        return;
      }
      var allowed, moves := false, Transitions(record.value.phase);
      for i := 0 to |moves|
        invariant allowed <==> next.phase in moves[..i]
        invariant record == old(record)
      {
        allowed := allowed || moves[i] == next.phase;
      }
      assert moves[..|moves|] == moves;
      if !allowed {
        return Failure(WrongMove);
      }
      if next != Expected(record.value, next) {
        return Failure(IdentityChanged);
      }
      r := Store(next, storage);
    }

    method Store(next: Handover, storage: Storage) returns (r: Result<(), JournalError>)
      modifies this
      ensures record == (if storage.NotStoredAtAll? then old(record) else Some(next))
      ensures r == (if storage.Stored? then Success(()) else Failure(NotStored))
    {
      if storage.NotStoredAtAll? {
        return Failure(NotStored);
      }
      record := Some(next);
      return if storage.Stored? then Success(()) else Failure(NotStored);
    }
  }

  // ------------------------------------------------------------- journal runs

  /** A record that landed, when, and the request digest its writer had read last when it decided. */
  datatype Entry = Entry(record: Handover, at: int, read: string)

  function RecordBefore(log: seq<Entry>, i: nat): Option<Handover>
    requires i <= |log|
  {
    if i == 0 then None else Some(log[i - 1].record)
  }

  /** The records that landed, each accepted over the one before it. */
  ghost predicate AcceptedRun(log: seq<Entry>) {
    forall i :: 0 <= i < |log| ==> Accepted(RecordBefore(log, i), log[i].record, log[i].at)
  }

  /** Handover identifiers are drawn at random, and taken never to repeat: a new one was not used before. */
  ghost predicate FreshIds(log: seq<Entry>) {
    forall i, j :: 0 <= i < j < |log| && log[j].record.id != log[j - 1].record.id ==>
                     log[i].record.id != log[j].record.id
  }

  function Rank(phase: Phase): nat {
    match phase
    case Prepared => 0
    case Created => 1
    case Committed => 2
    case _ => 3
  }

  /** One accepted move within a handover: forward, same identity, and a successor is never replaced. */
  lemma MoveWithin(prev: Handover, next: Handover, now: int)
    requires Accepted(Some(prev), next, now) && prev.id == next.id
    ensures Rank(prev.phase) < Rank(next.phase)
    ensures Identity(prev) == Identity(next)
    ensures prev.successor != next.successor ==> prev.phase.Prepared? && prev.successor == "" && next.phase.Created?
    ensures !Terminal(next.phase) ==> next.reason == prev.reason && next.notBefore == prev.notBefore
  {
    hide ValidText, Preemption;
  }

  /** The last step between two records of one handover is itself within it. */
  lemma StepOfRun(log: seq<Entry>, j: nat)
    requires AcceptedRun(log) && 0 < j < |log| && log[j - 1].record.id == log[j].record.id
    ensures Rank(log[j - 1].record.phase) < Rank(log[j].record.phase)
    ensures Identity(log[j - 1].record) == Identity(log[j].record)
    ensures log[j - 1].record.successor != "" ==> log[j].record.successor == log[j - 1].record.successor
  {
    hide Accept, Accepted, Identity, Rank;
    assert Accepted(RecordBefore(log, j), log[j].record, log[j].at);
    MoveWithin(log[j - 1].record, log[j].record, log[j].at);
  }

  /**
    * Within the records of one handover, later is further on, the identity is frozen and the
    * successor is set at most once.
    */
  lemma {:induction false} ForwardOnly(log: seq<Entry>, i: nat, j: nat)
    requires AcceptedRun(log) && FreshIds(log) && i < j < |log| && log[i].record.id == log[j].record.id
    ensures Rank(log[i].record.phase) + (j - i) <= Rank(log[j].record.phase)
    ensures Identity(log[i].record) == Identity(log[j].record)
    ensures log[i].record.successor != "" ==> log[j].record.successor == log[i].record.successor
  {
    hide AcceptedRun, Identity, Rank;
    StepOfRun(log, j);
    if i < j - 1 {
      ForwardOnly(log, i, j - 1);
    }
  }

  /** A handover has at most four records: any two of them are at most three apart. */
  lemma AtMostFourRecords(log: seq<Entry>, i: nat, j: nat)
    requires AcceptedRun(log) && FreshIds(log) && i <= j < |log| && log[i].record.id == log[j].record.id
    ensures j - i <= 3
  {
    hide Accept, Accepted, Identity;
    if i < j {
      ForwardOnly(log, i, j);
    }
  }

  /** Failures among the records from lo on. */
  function Failures(log: seq<Entry>, lo: nat, hi: nat): nat
    requires lo <= hi <= |log|
    decreases hi
  {
    if hi == lo then 0 else Failures(log, lo, hi - 1) + if Failed(log[hi - 1].record) then 1 else 0
  }

  /** A stretch of the journal about one predecessor and image only, in which no handover gave the role away. */
  ghost predicate OnePair(log: seq<Entry>, lo: nat, hi: nat, predecessor: string, image: string) {
    && lo <= hi <= |log|
    && forall i :: lo <= i < hi ==>
         && log[i].record.predecessor == predecessor && log[i].record.image == image
         && !log[i].record.phase.Completed? && !log[i].record.phase.Abandoned? && !log[i].record.phase.Superseded?
  }

  lemma {:induction false} FailuresBoundedByAttempt(log: seq<Entry>, lo: nat, hi: nat, predecessor: string,
                                                    image: string)
    requires AcceptedRun(log) && OnePair(log, lo, hi, predecessor, image) && lo < hi
    ensures var last := log[hi - 1].record;
            Failures(log, lo, hi) <= (if Failed(last) then last.attempt else last.attempt - 1)
    ensures 1 <= log[hi - 1].record.attempt <= MAX_ATTEMPTS
    decreases hi
  {
    hide AcceptedRun, Failed;
    AttemptAfter(log, hi - 1, predecessor, image);
    if hi - 1 > lo {
      FailuresBoundedByAttempt(log, lo, hi - 1, predecessor, image);
    } else {
      assert Failures(log, lo, lo) == 0;
    }
  }

  /** How the attempt number moves from one record to the next about the same pair. */
  lemma AttemptAfter(log: seq<Entry>, i: nat, predecessor: string, image: string)
    requires AcceptedRun(log) && i < |log|
    ensures 1 <= log[i].record.attempt <= MAX_ATTEMPTS
    ensures i > 0 && OnePair(log, i - 1, i + 1, predecessor, image) ==>
              var prev, next := log[i - 1].record, log[i].record;
              && next.attempt == (if Failed(prev) then prev.attempt + 1 else prev.attempt)
              && (Failed(prev) ==> !Failed(next))
              && (Failed(prev) ==> log[i].at >= prev.notBefore)
  {
    hide Accept, Valid;
    assert Accepted(RecordBefore(log, i), log[i].record, log[i].at);
    if i > 0 {
      assert Accepted(RecordBefore(log, i - 1), log[i - 1].record, log[i - 1].at);
      AcceptedIsValid(RecordBefore(log, i - 1), log[i - 1].record, log[i - 1].at);
    }
    AcceptedAttempt(RecordBefore(log, i), log[i].record, log[i].at);
  }

  lemma AcceptedIsValid(prev: Option<Handover>, next: Handover, now: int)
    requires Accepted(prev, next, now)
    ensures Valid(next)
  {
  }

  lemma AcceptedAttempt(prev: Option<Handover>, next: Handover, now: int)
    requires Accepted(prev, next, now) && (prev.Some? ==> Valid(prev.value))
    ensures 1 <= next.attempt <= MAX_ATTEMPTS
    ensures prev.Some? && prev.value.predecessor == next.predecessor && prev.value.image == next.image
            && !prev.value.phase.Completed? && !prev.value.phase.Abandoned? && !prev.value.phase.Superseded? ==>
              && next.attempt == (if Failed(prev.value) then prev.value.attempt + 1 else prev.value.attempt)
              && (Failed(prev.value) ==> !Failed(next) && now >= prev.value.notBefore)
  {
    hide ValidText, Preemption;
  }

  /** For one predecessor and image, at most three attempts fail other than by pre-emption. */
  lemma AtMostThreeFailures(log: seq<Entry>, lo: nat, hi: nat, predecessor: string, image: string)
    requires AcceptedRun(log) && OnePair(log, lo, hi, predecessor, image)
    ensures Failures(log, lo, hi) <= MAX_ATTEMPTS
  {
    if lo < hi {
      FailuresBoundedByAttempt(log, lo, hi, predecessor, image);
    }
  }

  /** The attempt after a failure of the same pair starts no sooner than the failure's record allows. */
  lemma BackoffRespected(log: seq<Entry>, i: nat)
    requires AcceptedRun(log) && 0 < i < |log|
    requires log[i - 1].record.id != log[i].record.id && Failed(log[i - 1].record)
    requires log[i - 1].record.predecessor == log[i].record.predecessor
             && log[i - 1].record.image == log[i].record.image
    ensures log[i].at >= log[i - 1].record.notBefore
    ensures log[i].record.attempt == log[i - 1].record.attempt + 1
  {
    hide AcceptedRun;
    AttemptAfter(log, i, log[i].record.predecessor, log[i].record.image);
    assert OnePair(log, i - 1, i + 1, log[i].record.predecessor, log[i].record.image) by {
      hide AcceptedRun;
      NewRecordIsPrepared(log, i);
    }
  }

  lemma NewRecordIsPrepared(log: seq<Entry>, i: nat)
    requires AcceptedRun(log) && 0 < i < |log| && log[i - 1].record.id != log[i].record.id
    ensures log[i].record.phase.Prepared?
  {
    hide ValidText, Preemption, NextAttempt;
    assert Accepted(RecordBefore(log, i), log[i].record, log[i].at);
  }

  // ------------------------------------------------- exactly when another may start

  /** The stretch of the journal's end that is about this predecessor and image, as far back as it goes. */
  ghost predicate Stretch(log: seq<Entry>, lo: nat, predecessor: string, image: string) {
    OnePair(log, lo, |log|, predecessor, image) && (lo > 0 ==> !OnePair(log, lo - 1, lo, predecessor, image))
  }

  /** What does not belong to the stretch before it is finished, and the stretch begins with a first attempt. */
  lemma StretchBegins(prev: Option<Handover>, next: Handover, now: int)
    requires Accepted(prev, next, now)
    requires prev.Some? ==>
               || prev.value.predecessor != next.predecessor || prev.value.image != next.image
               || prev.value.phase.Completed? || prev.value.phase.Abandoned? || prev.value.phase.Superseded?
    ensures next.attempt == 1
  {
    hide ValidText, Preemption;
    if prev.Some? && prev.value.id == next.id {
      MoveWithin(prev.value, next, now);
    }
  }

  /** Within the stretch, a record is numbered one above the failures before it. */
  lemma {:induction false} NumberedByFailures(log: seq<Entry>, lo: nat, i: nat, predecessor: string, image: string)
    requires AcceptedRun(log) && Stretch(log, lo, predecessor, image) && lo <= i < |log|
    ensures log[i].record.attempt == Failures(log, lo, i) + 1
    decreases i
  {
    hide AcceptedRun, Failed;
    AttemptAfter(log, i, predecessor, image);
    if i == lo {
      assert Failures(log, lo, lo) == 0;
      FirstOfStretch(log, lo, predecessor, image);
    } else {
      NumberedByFailures(log, lo, i - 1, predecessor, image);
    }
  }

  lemma FirstOfStretch(log: seq<Entry>, lo: nat, predecessor: string, image: string)
    requires AcceptedRun(log) && Stretch(log, lo, predecessor, image) && lo < |log|
    ensures log[lo].record.attempt == 1
  {
    hide Accepted, Accept;
    assert Accepted(RecordBefore(log, lo), log[lo].record, log[lo].at);
    StretchBegins(RecordBefore(log, lo), log[lo].record, log[lo].at);
  }

  /**
    * Whether another handover of a predecessor onto an image may start, told from the journal's whole
    * history: not after three failures, not before the last failure allows, and else as one more than
    * the failures so far.
    */
  lemma NextAttemptCountsFailures(log: seq<Entry>, lo: nat, predecessor: string, image: string, now: int)
    requires AcceptedRun(log) && Stretch(log, lo, predecessor, image)
    requires log != [] ==> Terminal(log[|log| - 1].record.phase)
    ensures NextAttempt(RecordBefore(log, |log|), predecessor, image, now)
            == if Failures(log, lo, |log|) >= MAX_ATTEMPTS then Failure(Exhausted)
               else if Waits(log, now, predecessor, image) then Failure(BackingOff)
               else Success(Failures(log, lo, |log|) + 1)
  {
    hide AcceptedRun, Preemption;
    if lo < |log| {
      NumberedByFailures(log, lo, |log| - 1, predecessor, image);
      AttemptAfter(log, |log| - 1, predecessor, image);
      OnlyAbortsPreempt(log, |log| - 1);
    }
  }

  lemma OnlyAbortsPreempt(log: seq<Entry>, i: nat)
    requires AcceptedRun(log) && i < |log|
    ensures Preemption(log[i].record.reason) ==> log[i].record.phase.Aborted?
  {
    hide Accept, ValidText, Preemption;
    assert Accepted(RecordBefore(log, i), log[i].record, log[i].at);
    AcceptedIsValid(RecordBefore(log, i), log[i].record, log[i].at);
  }

  /** The journal's last record is a failure of this pair whose time has not come. */
  predicate Waits(log: seq<Entry>, now: int, predecessor: string, image: string) {
    && log != []
    && var last := log[|log| - 1].record;
       Failed(last) && last.predecessor == predecessor && last.image == image && now < last.notBefore
  }

  /** The writer accepts a new handover exactly if nothing is unfinished, it is well formed, and it is due. */
  lemma NewHandoverAcceptedExactly(log: seq<Entry>, lo: nat, next: Handover, now: int)
    requires AcceptedRun(log) && Stretch(log, lo, next.predecessor, next.image)
    requires log != [] ==> log[|log| - 1].record.id != next.id
    ensures Accepted(RecordBefore(log, |log|), next, now) <==>
              && Valid(next) && next.phase.Prepared? && next.notBefore == 0 && next.reason == ""
              && (log != [] ==> Terminal(log[|log| - 1].record.phase))
              && Failures(log, lo, |log|) < MAX_ATTEMPTS && !Waits(log, now, next.predecessor, next.image)
              && next.attempt == Failures(log, lo, |log|) + 1
  {
    hide AcceptedRun, Valid, NextAttempt, Failed, Stretch;
    if log == [] || Terminal(log[|log| - 1].record.phase) {
      NextAttemptCountsFailures(log, lo, next.predecessor, next.image, now);
    }
  }

  // --------------------------------------------------------------------- roles

  datatype Role = Candidate | Standby | Retired | RetiredWatch
  datatype Reconcile = DoNothing | DoAbort | DoFinish | DoSupersede | DoTidy

  /** The role table: what a process is, from the journal and its own container alone. */
  function ClassifyRole(journal: Option<Handover>, self: string): (Role, Reconcile) {
    if self == "" || journal.None? then (Candidate, DoNothing) else
      var h := journal.value;
      var predecessor := self == h.predecessor;
      var successor := h.successor != "" && self == h.successor;
      match h.phase
      case Prepared => (Candidate, DoAbort)
      case Created => if successor then (Standby, DoNothing) else (Candidate, DoAbort)
      case Committed =>
        if predecessor then (RetiredWatch, DoNothing)
        else if successor then (Candidate, DoFinish)
        else (Candidate, DoSupersede)
      case Completed | Abandoned =>
        if predecessor then (Retired, DoNothing)
        else if successor then (Candidate, DoNothing)
        else (Candidate, DoTidy)
      case Aborted | Reverted =>
        if successor then (Retired, DoNothing) else (Candidate, DoTidy)
      case Superseded =>
        if predecessor || successor then (Retired, DoNothing) else (Candidate, DoTidy)
  }

  function RoleOf(journal: Option<Handover>, self: string): Role {
    ClassifyRole(journal, self).0
  }

  /** The containers a record retires for good. */
  function RetiredBy(h: Handover): set<string> {
    match h.phase
    case Completed | Abandoned => {h.predecessor}
    case Aborted | Reverted => if h.successor == "" then {} else {h.successor}
    case Superseded => {h.predecessor, h.successor}
    case _ => {}
  }

  /** A container named by a handover, other than the empty name. */
  function Named(h: Handover): set<string> {
    {h.predecessor, h.successor} - {""}
  }

  /** The table retires a container exactly when the finished record says so. */
  lemma RetiredIsTheTable(h: Handover, self: string)
    requires Valid(h) && self != ""
    ensures self in RetiredBy(h) <==> RoleOf(Some(h), self).Retired?
    ensures RetiredBy(h) != {} ==> Terminal(h.phase)
  {
    hide ValidText, Preemption;
    PredecessorIsNamed(h);
  }

  /**
    * Whatever the phase, at most one of the two containers a record names may act
    * on it: no record makes candidates of both once the role has been given away.
    */
  lemma OneSideOfACommit(h: Handover)
    requires Valid(h) && Rank(h.phase) >= 2 && h.successor != ""
    ensures !(RoleOf(Some(h), h.predecessor).Candidate? && RoleOf(Some(h), h.successor).Candidate?)
  {
    hide ValidText, Preemption;
    PredecessorIsNamed(h);
  }
}
