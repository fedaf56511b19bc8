/**
  * Numbered release candidates (releaseid/candidate.go and AdvanceRelease in
  * releaseid/release_stage.go). Both work on the printed text of versions, so
  * the first half of this module says what their prefix tests mean.
  */
module Candidates {
  import opened Wrappers
  import opened Text
  import opened ReleaseId
  import opened VersionOrder
  import opened Allocation

  // --------------------------------------------------------- text and versions

  predicate SameBase(v: Version, w: Version) {
    v.major == w.major && v.minor == w.minor && v.patch == w.patch
  }

  /** What follows the three base segments in a version's text. */
  function Tail(v: Version): string {
    if v.build > 0 then "." + Decimal(v.build)
    else if v.prerelease != "" then "-" + v.prerelease
    else ""
  }

  function LineText(line: Line): string
    requires line.major >= 0 && line.minor >= 0
  {
    Decimal(line.major) + "." + Decimal(line.minor)
  }

  lemma PrefixOfShorter(a: string, b: string, s: string)
    requires a + b <= s
    ensures a <= s
  {
  }

  /** A numeral and a dot in front of more text is a prefix exactly when the first numerals agree and the rest is. */
  lemma FieldPrefix(m: nat, x: string, n: nat, y: string)
    ensures Decimal(m) + "." + x <= Decimal(n) + "." + y <==> m == n && x <= y
  {
    var s := Decimal(n) + "." + y;
    assert s == Decimal(n) + ("." + y);
    NumeralPrefix(Decimal(n), "." + y, Decimal(m), '.');
    if Decimal(m) + "." + x <= s {
      PrefixOfShorter(Decimal(m) + ".", x, s);
      DecimalInjective(m, n);
    }
    PrefixAfterCommon(Decimal(n) + ".", x, y);
  }

  lemma TextOfVersion(v: Version)
    ensures Render(v) == Base(v) + Tail(v)
    ensures Render(v) == Decimal(v.major) + "." + (Decimal(v.minor) + "." + (Decimal(v.patch) + Tail(v)))
    ensures Base(v) == Decimal(v.major) + "." + (Decimal(v.minor) + "." + Decimal(v.patch))
    ensures Tail(v) != "" ==> !IsDigit(Tail(v)[0])
  {
  }

  /** The line's text and a dot start a version's text exactly when the version is on the line. */
  lemma OnLineByPrefix(v: Version, line: Line)
    requires line.major >= 0 && line.minor >= 0
    ensures LineText(line) + "." <= Render(v) <==> OnLine(v, line)
  {
    TextOfVersion(v);
    var rest := Decimal(v.patch) + Tail(v);
    assert LineText(line) + "." == Decimal(line.major) + "." + (Decimal(line.minor) + "." + "");
    FieldPrefix(line.major, Decimal(line.minor) + "." + "", v.major, Decimal(v.minor) + "." + rest);
    FieldPrefix(line.minor, "", v.minor, rest);
  }

  /** A base and a separator start a version's text exactly when it has that base and its tail starts so. */
  lemma BaseByPrefix(v: Version, b: Version, d: char)
    requires !IsDigit(d)
    ensures Base(b) + [d] <= Render(v) <==> SameBase(v, b) && Tail(v) != "" && Tail(v)[0] == d
  {
    TextOfVersion(v);
    TextOfVersion(b);
    assert Base(b) + [d] == Decimal(b.major) + "." + (Decimal(b.minor) + "." + (Decimal(b.patch) + [d]));
    var rest := Decimal(v.patch) + Tail(v);
    FieldPrefix(b.major, Decimal(b.minor) + "." + (Decimal(b.patch) + [d]), v.major, Decimal(v.minor) + "." + rest);
    FieldPrefix(b.minor, Decimal(b.patch) + [d], v.minor, rest);
    NumeralPrefix(Decimal(v.patch), Tail(v), Decimal(b.patch), d);
    if Decimal(v.patch) == Decimal(b.patch) {
      DecimalInjective(v.patch, b.patch);
    }
  }

  predicate Plain(v: Version) {
    v.build == 0 && v.prerelease == ""
  }

  lemma PlainText(b: Version, v: Version)
    requires Plain(b) && WellFormed(b) && WellFormed(v)
    ensures Render(v) == Base(b) <==> SameBase(v, b) && Plain(v)
  {
    if Render(v) == Base(b) {
      RenderInjective(v, b);
    }
  }

  lemma CandidateText(v: Version, b: Version)
    requires SameBase(v, b) && v.build == 0 && v.prerelease != ""
    ensures Render(v)[|Base(b)| + 1..] == v.prerelease
  {
    assert Render(v) == (Base(b) + "-") + v.prerelease;
  }

  function Numbers(v: Version): seq<nat> {
    if v.build > 0 then [v.major, v.minor, v.patch, v.build] else [v.major, v.minor, v.patch]
  }

  /** The dotted part of a version's text. */
  function Dotted(v: Version): string {
    if v.build > 0 then Base(v) + "." + Decimal(v.build) else Base(v)
  }

  lemma DottedText(v: Version)
    ensures Dotted(v) == Join(Numerals(Numbers(v)), '.')
    ensures '-' !in Dotted(v)
    ensures Split(Dotted(v), '.') == Numerals(Numbers(v))
    ensures |Split(Dotted(v), '.')| == if v.build > 0 then 4 else 3
  {
    JoinedNumerals(Numbers(v));
    DottedNumerals(Numbers(v));
  }

  /** Where a version's text is cut at its hyphen. */
  lemma CutVersion(v: Version)
    requires WellFormed(v)
    ensures Before(Render(v), '-') == Dotted(v)
    ensures After(Render(v), '-') == v.prerelease
    ensures '-' in Render(v) <==> v.prerelease != ""
  {
    DottedText(v);
    if v.prerelease == "" {
      CutAbsent(Dotted(v), '-');
    } else {
      CutJoined(Dotted(v), '-', v.prerelease);
      assert Render(v)[|Dotted(v)|] == '-';
    }
  }

  // ---------------------------------------------------------------- candidates

  datatype CandidateError =
    | InvalidLine | InvalidStage | InvalidTarget | PatchExhausted
    | AlreadyReleased | ReachedRc | CounterExhausted | DoesNotAdvance

  /** The two stages a candidate is published at, by name and by order. */
  datatype Stage = Beta | Rc
  {
    function Name(): string {
      if Beta? then "beta" else "rc"
    }

    function Rank(): int {
      if Beta? then 0 else 1
    }
  }

  predicate IsStage(stage: string) {
    stage == "beta" || stage == "rc"
  }

  function StageNamed(stage: string): Stage {
    if stage == "beta" then Beta else Rc
  }

  /** The nth candidate of a base at a stage. */
  function Candidate(b: Version, stage: Stage, n: nat): Version {
    Version(b.major, b.minor, b.patch, 0, stage.Name() + "." + Decimal(n))
  }

  lemma CandidateParts(stage: Stage, n: nat)
    ensures var pre := stage.Name() + "." + Decimal(n);
            '.' in pre && Before(pre, '.') == stage.Name() && After(pre, '.') == Decimal(n)
            && StageRank(pre) == stage.Rank()
  {
    var name := stage.Name();
    assert name + ['.'] + Decimal(n) == name + "." + Decimal(n);
    CutJoined(name, '.', Decimal(n));
    assert (name + "." + Decimal(n))[|name|] == '.';
  }

  lemma CandidateIsPrerelease(stage: Stage, n: nat)
    requires 0 < n <= MAX_SEGMENT
    ensures var pre := stage.Name() + "." + Decimal(n);
            pre != "" && IsPrerelease(pre) && StageRank(pre) == stage.Rank() && StageNumber(pre) == n
  {
    CandidateParts(stage, n);
    SegmentOfDecimal(n);
    hide Decimal, SegmentOf, Before, After;
  }

  lemma CandidateIsWellFormed(b: Version, stage: Stage, n: nat)
    requires WellFormed(b) && 0 < n <= MAX_SEGMENT
    ensures var v := Candidate(b, stage, n);
            && WellFormed(v) && v.prerelease != "" && StageRank(v.prerelease) == stage.Rank()
            && StageNumber(v.prerelease) == n
            && Render(v) == Base(b) + "-" + stage.Name() + "." + Decimal(n)
  {
    hide Decimal, IsPrerelease, StageRank, StageNumber, Render;
    CandidateIsPrerelease(stage, n);
    CandidateSpelling(b, stage, n);
  }

  lemma CandidateSpelling(b: Version, stage: Stage, n: nat)
    requires stage.Name() + "." + Decimal(n) != ""
    ensures Render(Candidate(b, stage, n)) == Base(b) + "-" + stage.Name() + "." + Decimal(n)
  {
    hide Decimal;
    Regroup(Base(b), "-", stage.Name(), ".", Decimal(n));
  }

  lemma Regroup(a: string, b: string, c: string, d: string, e: string)
    ensures a + b + (c + d + e) == a + b + c + d + e
  {
  }

  lemma ValidCandidate(b: Version, stage: Stage, n: nat)
    requires WellFormed(b) && b.major > 0 && 0 < n <= MAX_SEGMENT
    ensures IsVersion(Render(Candidate(b, stage, n)))
  {
    CandidateIsWellFormed(b, stage, n);
    ValidVersionsAreRenderings(Render(Candidate(b, stage, n)));
  }

  /** The base, or a historical build of it, is released. */
  predicate Finalized(p: Version, b: Version) {
    SameBase(p, b) && p.prerelease == ""
  }

  predicate CandidateOf(p: Version, b: Version, stage: Stage) {
    SameBase(p, b) && p.prerelease != "" && StageRank(p.prerelease) == stage.Rank()
  }

  /** What the tags taken so far say about the base: nothing final, no rc in the way, and the next counter. */
  ghost predicate Counted(tags: seq<string>, b: Version, stage: Stage, next: nat) {
    && next >= 1
    && (forall p :: Taken(tags, p) ==> !Finalized(p, b))
    && (forall p :: Taken(tags, p) && stage.Beta? ==> !CandidateOf(p, b, Rc))
    && (forall p :: Taken(tags, p) && CandidateOf(p, b, stage) ==> StageNumber(p.prerelease) < next)
    && (next > 1 ==> Taken(tags, Candidate(b, stage, next - 1)))
  }

  /** The numeric comparison of two versions' texts; text that does not parse counts as the zero version. */
  function OrderText(a: string, b: string): int {
    var zero := Version(0, 0, 0, 0, "");
    Compare(if Parse(a).Success? then Parse(a).value else zero, if Parse(b).Success? then Parse(b).value else zero)
  }

  method OrderCandidate(a: string, b: string) returns (r: int)
    ensures r == OrderText(a, b)
  {
    var av := ParseProductVersion(a);
    var bv := ParseProductVersion(b);
    var zero := Version(0, 0, 0, 0, "");
    r := CompareProductVersion(if av.Success? then av.value else zero, if bv.Success? then bv.value else zero);
  }

  lemma OrderOfTexts(v: Version, w: Version)
    requires WellFormed(v) && WellFormed(w)
    ensures OrderText(Render(v), Render(w)) == Compare(v, w)
  {
    ParseUndoesRender(v);
    ParseUndoesRender(w);
  }

  method ReadCandidateTag(tag: string) returns (v: Option<string>)
    ensures v == if TagOf(tag).Success? then Some(Render(TagOf(tag).value.product)) else None
  {
    var t := ParseReleaseTag(tag);
    return if t.Success? then Some(Render(t.value.product)) else None;
  }

  /** The text of the highest version the tags name on the line, "" when they name none. */
  method FindHighest(line: Line, existing: seq<string>) returns (highest: string, ghost h: Option<Version>)
    requires line.major >= 0 && line.minor >= 0
    ensures HighestOn(existing, line, h)
    ensures highest == if h.Some? then Render(h.value) else ""
  {
    var prefix := LineText(line) + ".";
    highest, h := "", None;
    for i := 0 to |existing|
      invariant HighestOn(existing[..i], line, h)
      invariant highest == if h.Some? then Render(h.value) else ""
    {
      var v := ReadCandidateTag(existing[i]);
      HighestSnoc(existing[..i], existing[i], line, h);
      assert existing[..i + 1] == existing[..i] + [existing[i]];
      if v.Some? {
        ghost var p := TagOf(existing[i]).value.product;
        OnLineByPrefix(p, line);
        if prefix <= v.value {
          var c := OrderCandidate(v.value, highest);
          HigherText(existing[..i], existing[i], h);
          if highest == "" || c > 0 {
            highest, h := v.value, Some(p);
          }
        }
      }
    }
    assert existing[..|existing|] == existing;
  }

  lemma HigherText(tags: seq<string>, tag: string, h: Option<Version>)
    requires TagOf(tag).Success? && (h.Some? ==> Taken(tags, h.value))
    ensures h.Some? ==> Render(h.value) != ""
    ensures h.Some? ==> OrderText(Render(TagOf(tag).value.product),
                                  Render(h.value)) == Compare(TagOf(tag).value.product, h.value)
  {
    ReadableTag(tag);
    if h.Some? {
      TakenIsWellFormed(tags, h.value);
      OrderOfTexts(TagOf(tag).value.product, h.value);
    }
  }

  /** What the second scan learns from one more readable tag. */
  lemma CountedSnoc(tags: seq<string>, tag: string, b: Version, stage: Stage, next: nat)
    requires Counted(tags, b, stage, next)
    requires TagOf(tag).Success? ==> !Finalized(TagOf(tag).value.product, b)
    requires TagOf(tag).Success? && stage.Beta? ==> !CandidateOf(TagOf(tag).value.product, b, Rc)
    ensures var p := if TagOf(tag).Success? then Some(TagOf(tag).value.product) else None;
            var n := if p.Some? && CandidateOf(p.value, b, stage) then StageNumber(p.value.prerelease) else 0;
            Counted(tags + [tag], b, stage, if n >= next then n + 1 else next)
  {
    hide Taken, TagOf, Parse, StageRank, StageNumber, Decimal;
    forall w ensures Taken(tags + [tag], w) <==> Taken(tags, w) || Names(tag, w) {
      TakenSnoc(tags, tag, w);
    }
    if TagOf(tag).Success? {
      ReadableTag(tag);
      if CandidateOf(TagOf(tag).value.product, b, stage) {
        CandidateFromParts(TagOf(tag).value.product, b, stage);
      }
    }
  }

  lemma CandidateFromParts(p: Version, b: Version, stage: Stage)
    requires WellFormed(p) && CandidateOf(p, b, stage)
    ensures p == Candidate(b, stage, StageNumber(p.prerelease))
  {
    CutRejoins(p.prerelease, '.');
    CanonicalDecimal(After(p.prerelease, '.'));
  }

  /** One tag of the second scan: the counter after it, or why there is none. */
  method CountTag(ghost tags: seq<string>, tag: string, ghost b: Version, base: string, stage: string, next: nat)
    returns (r: Result<nat, CandidateError>)
    requires WellFormed(b) && Plain(b) && base == Base(b) && IsStage(stage)
    requires next >= 1 && Counted(tags, b, StageNamed(stage), next)
    ensures r.Success? ==> r.value >= 1 && Counted(tags + [tag], b, StageNamed(stage), r.value)
    ensures r.Failure? ==> TagOf(tag).Success?
    ensures r.Failure? ==>
              || (r.error == AlreadyReleased && Finalized(TagOf(tag).value.product, b))
              || (r.error == ReachedRc && stage == "beta" && CandidateOf(TagOf(tag).value.product, b, Rc))
  {
    hide Counted, Taken, Parse, TagOf, Split, Decimal, LenientInt;
    var v := ReadCandidateTag(tag);
    if v.None? {
      CountedSnoc(tags, tag, b, StageNamed(stage), next);
      return Success(next);
    }
    ReadsAgainstBase(tag, b);
    if v.value == base || base + "." <= v.value {
      return Failure(AlreadyReleased);
    }
    if !(base + "-" <= v.value) {
      CountedSnoc(tags, tag, b, StageNamed(stage), next);
      return Success(next);
    }
    var pre := v.value[|base + "-"|..];
    var name, number := Before(pre, '.'), After(pre, '.');
    if name == "rc" && stage == "beta" {
      return Failure(ReachedRc);
    }
    CountedSnoc(tags, tag, b, StageNamed(stage), next);
    if name == stage {
      var n := LenientInt(number);
      if n >= next {
        return Success(n + 1);
      }
    }
    return Success(next);
  }

  /** The second scan: the next counter of the base at the stage, or why there is none. */
  method CountCandidates(ghost b: Version, base: string, stage: string, existing: seq<string>)
    returns (r: Result<nat, CandidateError>)
    requires WellFormed(b) && Plain(b) && base == Base(b) && IsStage(stage)
    ensures CountAnswer(existing, b, StageNamed(stage), r)
  {
    hide Counted, Taken, TagOf, Finalized, CandidateOf, CountAnswer, Base, Plain, WellFormed;
    var next: nat := 1;
    NothingCounted(b, StageNamed(stage));
    for i := 0 to |existing|
      invariant next >= 1 && Counted(existing[..i], b, StageNamed(stage), next)
    {
      var counted := CountTag(existing[..i], existing[i], b, base, stage, next);
      assert existing[..i + 1] == existing[..i] + [existing[i]];
      if counted.Failure? {
        StoppedAt(existing, i, b, StageNamed(stage), counted.error);
        return counted;
      }
      next := counted.value;
    }
    assert existing[..|existing|] == existing;
    r := Success(next);
    CountedThrough(existing, b, StageNamed(stage), next);
  }

  lemma NothingCounted(b: Version, stage: Stage)
    ensures Counted([], b, stage, 1)
  {
  }

  lemma CountedThrough(tags: seq<string>, b: Version, stage: Stage, next: nat)
    requires Counted(tags, b, stage, next)
    ensures CountAnswer(tags, b, stage, Success(next))
  {
  }

  lemma StoppedAt(tags: seq<string>, i: nat, b: Version, stage: Stage, error: CandidateError)
    requires i < |tags| && TagOf(tags[i]).Success?
    requires || (error == AlreadyReleased && Finalized(TagOf(tags[i]).value.product, b))
             || (error == ReachedRc && stage.Beta? && CandidateOf(TagOf(tags[i]).value.product, b, Rc))
    ensures CountAnswer(tags, b, stage, Failure(error))
  {
    var p := TagOf(tags[i]).value.product;
    assert Names(tags[i], p);
    assert Taken(tags, p);
  }

  /** The three prefix tests of the scan, on a readable tag's text. */
  lemma ReadsAgainstBase(tag: string, b: Version)
    requires TagOf(tag).Success? && WellFormed(b) && Plain(b)
    ensures var p := TagOf(tag).value.product;
            var v := Render(p);
            && WellFormed(p)
            && (v == Base(b) || Base(b) + "." <= v <==> Finalized(p, b))
            && (Base(b) + "-" <= v <==> SameBase(p, b) && p.prerelease != "")
            && (Base(b) + "-" <= v ==> v[|Base(b) + "-"|..] == p.prerelease
                                       && LenientInt(After(p.prerelease, '.')) == StageNumber(p.prerelease)
                                       && (Before(p.prerelease, '.') == "beta" <==> StageRank(p.prerelease) == 0)
                                       && (Before(p.prerelease, '.') == "rc" <==> StageRank(p.prerelease) == 1))
  {
    ReadableTag(tag);
    var p := TagOf(tag).value.product;
    PlainText(b, p);
    BaseByPrefix(p, b, '.');
    BaseByPrefix(p, b, '-');
    if SameBase(p, b) && p.prerelease != "" {
      CandidateText(p, b);
      LenientNumber(After(p.prerelease, '.'));
    }
  }

  // ------------------------------------------------------------------ the base

  /** The base an allocation with no target works on, given the line's highest version. */
  function BaseAfter(line: Line, h: Option<Version>): Version
    requires line.major >= 0 && line.minor >= 0
  {
    if h.None? then Version(line.major, line.minor, 0, 0, "")
    else if h.value.prerelease != "" then Version(line.major, line.minor, h.value.patch, 0, "")
    else Version(line.major, line.minor, h.value.patch + 1, 0, "")
  }

  predicate ValidLine(line: Line) {
    1 <= line.major <= MAX_SEGMENT && 0 <= line.minor <= MAX_SEGMENT
  }

  /** The text of the base an allocation with no target works on. */
  method ChooseBase(line: Line, highest: string, ghost h: Option<Version>, ghost existing: seq<string>)
    returns (r: Result<string, CandidateError>)
    requires ValidLine(line) && HighestOn(existing, line, h)
    requires highest == if h.Some? then Render(h.value) else ""
    ensures r == if h.Some? && h.value.prerelease == "" && h.value.patch == MAX_SEGMENT then Failure(PatchExhausted)
                 else Success(Base(BaseAfter(line, h)))
  {
    hide Split, Before, After, LenientInt, HighestOn, Decimal, Base, Render, LineText, IsPrerelease;
    var prefix := LineText(line) + ".";
    if h.Some? {
      TextIsNotEmpty(h.value);
      HighestText(existing, line, h.value);
    }
    if highest == "" {
      LinePatchText(line, 0);
      return Success(prefix + "0");
    }
    var numeric, pre := Before(highest, '-'), After(highest, '-');
    if pre != "" {
      return Success(numeric);
    }
    var patch := LenientInt(Split(numeric, '.')[2]);
    if patch >= MAX_SEGMENT {
      return Failure(PatchExhausted);
    }
    LinePatchText(line, patch + 1);
    return Success(prefix + Decimal(patch + 1));
  }

  lemma ChosenBase(tags: seq<string>, line: Line, h: Option<Version>)
    requires ValidLine(line) && HighestOn(tags, line, h)
    requires !(h.Some? && h.value.prerelease == "" && h.value.patch == MAX_SEGMENT)
    ensures WellFormed(BaseAfter(line, h)) && Plain(BaseAfter(line, h)) && OnLine(BaseAfter(line, h), line)
  {
    if h.Some? {
      TakenIsWellFormed(tags, h.value);
    }
  }

  /**
    * The base an allocation with no target works on is the least release of three segments above
    * everything the tags name on the line.
    */
  lemma BaseIsLeast(tags: seq<string>, line: Line, h: Option<Version>, v: Version)
    requires ValidLine(line) && HighestOn(tags, line, h)
    requires !(h.Some? && h.value.prerelease == "" && h.value.patch == MAX_SEGMENT)
    requires WellFormed(v) && Plain(v) && OnLine(v, line)
    ensures AboveLine(tags, line, v) <==> Compare(BaseAfter(line, h), v) <= 0
  {
    hide Compare, IsPrerelease, HighestOn;
    var b := BaseAfter(line, h);
    ChosenBase(tags, line, h);
    CompareOnLine(b, v);
    if h.Some? {
      HighestIsTaken(tags, line, h.value);
      CompareOnLine(v, h.value);
      if Compare(v, h.value) > 0 {
        AboveHighest(tags, line, h.value, v);
      }
    } else {
      NothingTaken(tags, line, v);
    }
  }

  lemma HighestIsTaken(tags: seq<string>, line: Line, h: Version)
    requires HighestOn(tags, line, Some(h))
    ensures WellFormed(h) && OnLine(h, line) && Taken(tags, h)
  {
    TakenIsWellFormed(tags, h);
  }

  lemma NothingTaken(tags: seq<string>, line: Line, v: Version)
    requires HighestOn(tags, line, None) && OnLine(v, line)
    ensures AboveLine(tags, line, v)
  {
  }

  lemma LinePatchText(line: Line, patch: nat)
    requires line.major >= 0 && line.minor >= 0
    ensures LineText(line) + "." + Decimal(patch) == Base(Version(line.major, line.minor, patch, 0, ""))
    ensures patch == 0 ==> Decimal(patch) == "0"
  {
  }

  lemma TextIsNotEmpty(v: Version)
    ensures Render(v) != ""
  {
    assert |Base(v)| > 0;
  }

  /** How the highest version's text is taken apart. */
  lemma HighestText(tags: seq<string>, line: Line, h: Version)
    requires ValidLine(line) && HighestOn(tags, line, Some(h))
    ensures WellFormed(h) && After(Render(h), '-') == h.prerelease
    ensures h.prerelease != "" ==> Before(Render(h), '-') == Base(h) == Base(BaseAfter(line, Some(h)))
    ensures var fields := Split(Before(Render(h), '-'), '.');
            |fields| >= 3 && LenientInt(fields[2]) == h.patch
  {
    TakenIsWellFormed(tags, h);
    CutVersion(h);
    DottedText(h);
    SegmentOfDecimal(h.patch);
    LenientNumber(Decimal(h.patch));
  }

  function OnLineVersion(line: Line, patch: nat): Version
    requires ValidLine(line)
  {
    Version(line.major, line.minor, patch, 0, "")
  }

  /** The target is the three-segment version of the line with this patch. */
  predicate TargetIs(target: string, line: Line, patch: nat) {
    ValidLine(line) && patch <= MAX_SEGMENT && target == Base(OnLineVersion(line, patch))
  }

  predicate ValidTarget(target: string, line: Line) {
    exists p: nat | p <= MAX_SEGMENT :: TargetIs(target, line, p)
  }

  method CheckTarget(target: string, line: Line) returns (ok: bool, ghost b: Version)
    requires ValidLine(line)
    ensures ok == ValidTarget(target, line)
    ensures ok ==> WellFormed(b) && Plain(b) && OnLine(b, line) && target == Base(b) && Parse(target) == Success(b)
  {
    var prefix := LineText(line) + ".";
    var valid := ValidVersion(target);
    ok := valid && '-' !in target && |Split(target, '.')| == 3 && prefix <= target;
    b := if Parse(target).Success? then Parse(target).value else Version(0, 0, 0, 0, "");
    TargetMeaning(target, line);
  }

  predicate TargetTests(target: string, line: Line)
    requires ValidLine(line)
  {
    IsVersion(target) && '-' !in target && |Split(target, '.')| == 3 && LineText(line) + "." <= target
  }

  lemma TargetMeaning(target: string, line: Line)
    requires ValidLine(line)
    ensures TargetTests(target, line) == ValidTarget(target, line)
    ensures TargetTests(target, line) ==> Parse(target).Success? && var b := Parse(target).value;
              WellFormed(b) && Plain(b) && OnLine(b, line) && target == Base(b)
  {
    hide TargetTests, Base, Parse;
    if TargetTests(target, line) {
      TestedTarget(target, line);
      assert TargetIs(target, line, Parse(target).value.patch);
    }
    if ValidTarget(target, line) {
      var p: nat :| p <= MAX_SEGMENT && TargetIs(target, line, p);
      TargetIsTested(line, p);
    }
  }

  lemma TestedTarget(target: string, line: Line)
    requires ValidLine(line) && TargetTests(target, line)
    ensures Parse(target).Success? && var b := Parse(target).value;
            WellFormed(b) && b == Version(line.major, line.minor, b.patch, 0, "") && target == Base(b)
  {
    var b := Parse(target).value;
    assert target == Render(b);
    ParsesExactlySpellings(target, b);
    hide Parse, Spells, LineText, Decimal;
    CutVersion(b);
    DottedText(b);
    OnLineByPrefix(b, line);
    CutAbsent(target, '-');
  }

  lemma TargetIsTested(line: Line, p: nat)
    requires ValidLine(line) && p <= MAX_SEGMENT
    ensures var b := Version(line.major, line.minor, p, 0, "");
            Render(b) == Base(b) && TargetTests(Base(b), line) && Parse(Base(b)) == Success(b)
  {
    var b := Version(line.major, line.minor, p, 0, "");
    assert Render(b) == Base(b) == Dotted(b);
    ValidVersionsAreRenderings(Base(b));
    ParseUndoesRender(b);
    DottedText(b);
    OnLineByPrefix(b, line);
  }

  // ------------------------------------------------------------- the allocation

  /** The allocation with no target, as a function of the line's highest version alone. */
  function NextCandidate(line: Line, stage: Stage, h: Option<Version>): Result<string, CandidateError>
    requires ValidLine(line)
  {
    var b := BaseAfter(line, h);
    if h.None? then Success(Render(Candidate(b, stage, 1)))
    else if h.value.prerelease == "" then
      (if h.value.patch == MAX_SEGMENT then Failure(PatchExhausted) else Success(Render(Candidate(b, stage, 1))))
    else if StageRank(h.value.prerelease) == stage.Rank() then
      (if StageNumber(h.value.prerelease) >= MAX_SEGMENT then Failure(CounterExhausted)
       else Success(Render(Candidate(b, stage, StageNumber(h.value.prerelease) + 1))))
    else if stage.Beta? then Failure(ReachedRc)
    else Success(Render(Candidate(b, stage, 1)))
  }

  /** A result is a valid candidate of the asked stage on the asked line, above every version the tags name there. */
  ghost predicate Fresh(text: string, line: Line, stage: Stage, tags: seq<string>) {
    && IsVersion(text)
    && AboveLine(tags, line, Parse(text).value)
    && Parse(text).value.prerelease != "" && StageRank(Parse(text).value.prerelease) == stage.Rank()
  }

  /**
    * The candidate an allocation on base b gives: the next counter the tags
    * leave, when nothing on the base is final, no rc stands in a beta's way, the
    * counter is not used up, and the candidate is above the whole line.
    */
  ghost predicate Allocates(tags: seq<string>, line: Line, b: Version, stage: Stage, n: nat) {
    Counted(tags, b, stage, n) && n <= MAX_SEGMENT && AboveLine(tags, line, Candidate(b, stage, n))
  }

  /** An answer that succeeds exactly when some candidate can be allocated on the base, and names it. */
  ghost predicate AllocatesExactly(tags: seq<string>, line: Line, b: Version, stage: string, r: Result<string,
                                   CandidateError>) {
    && (r.Success? <==> exists n: nat :: Allocates(tags, line, b, StageNamed(stage), n))
    && (forall n: nat :: Allocates(tags, line, b, StageNamed(stage), n) ==>
                           r == Success(Base(b) + "-" + stage + "." + Decimal(n)))
  }

  method CandidateOnBase(line: Line, highest: string, ghost h: Option<Version>, ghost b: Version, base: string,
                         stage: string, existing: seq<string>)
    returns (r: Result<string, CandidateError>)
    requires ValidLine(line) && IsStage(stage) && HighestOn(existing, line, h)
    requires highest == if h.Some? then Render(h.value) else ""
    requires WellFormed(b) && Plain(b) && OnLine(b, line) && base == Base(b)
    ensures r.Failure? ==> r.error in {AlreadyReleased, ReachedRc, CounterExhausted, DoesNotAdvance}
    ensures AllocatesExactly(existing, line, b, stage, r)
    ensures r.Success? ==> Fresh(r.value, line, StageNamed(stage), existing)
    ensures b == BaseAfter(line, h) ==> r == NextCandidate(line, StageNamed(stage), h)
  {
    hide Parse, Compare, Decimal, HighestOn, Taken, CountAnswer, Counted, Candidate, StageRank, StageNumber, Fresh,
         OrderText, Render, AboveLine, TagOf, Names;
    if h.Some? {
      TextIsNotEmpty(h.value);
    }
    var counted := CountCandidates(b, base, stage, existing);
    ghost var s := StageNamed(stage);
    assert stage == s.Name();
    if b == BaseAfter(line, h) {
      CountsFromHighest(existing, line, h, s, counted);
    }
    CountedOnce(existing, b, s, counted);
    if counted.Failure? {
      return Failure(counted.error);
    }
    var next := counted.value;
    if next > MAX_SEGMENT {
      return Failure(CounterExhausted);
    }
    var result := base + "-" + stage + "." + Decimal(next);
    CandidateIsWellFormed(b, s, next);
    var order := OrderCandidate(result, highest);
    if highest != "" {
      OrderAgainstHighest(existing, line, h.value, Candidate(b, s, next));
      if order <= 0 {
        return Failure(DoesNotAdvance);
      }
    }
    FreshCandidate(existing, line, h, b, s, next);
    assert Allocates(existing, line, b, s, next);
    return Success(result);
  }

  /** The counter the scan reports is the only one the tags leave. */
  lemma CountedOnce(tags: seq<string>, b: Version, stage: Stage, counted: Result<nat, CandidateError>)
    requires CountAnswer(tags, b, stage, counted)
    ensures forall n: nat :: Counted(tags, b, stage, n) ==> counted == Success(n)
    ensures counted.Success? ==> counted.value >= 1 && Counted(tags, b, stage, counted.value)
    ensures counted.Failure? ==> counted.error in {AlreadyReleased, ReachedRc}
  {
    hide Taken, CandidateOf, Finalized, Candidate;
    forall n: nat | Counted(tags, b, stage, n) ensures counted == Success(n) {
      if counted.Success? {
        if n < counted.value {
          PreviousCounter(tags, b, stage, counted.value);
        } else if counted.value < n {
          PreviousCounter(tags, b, stage, n);
        }
      }
    }
  }

  method AllocateCandidate(line: Line, stage: string, target: string, existing: seq<string>)
    returns (r: Result<string, CandidateError>)
    ensures r == Failure(InvalidLine) <==> !ValidLine(line)
    ensures r == Failure(InvalidStage) <==> ValidLine(line) && !IsStage(stage)
    ensures r == Failure(InvalidTarget) <==>
              ValidLine(line) && IsStage(stage) && target != "" && !ValidTarget(target, line)
    ensures r.Success? ==> Fresh(r.value, line, StageNamed(stage), existing)
    ensures target == "" && ValidLine(line) && IsStage(stage) ==>
              forall h :: HighestOn(existing, line, h) ==> r == NextCandidate(line, StageNamed(stage), h)
    ensures forall p: nat :: target != "" && IsStage(stage) && TargetIs(target, line, p) ==>
              AllocatesExactly(existing, line, OnLineVersion(line, p), stage, r)
  {
    if line.major < 1 || line.minor < 0 || line.major > MAX_SEGMENT || line.minor > MAX_SEGMENT {
      return Failure(InvalidLine);
    }
    if stage != "beta" && stage != "rc" {
      return Failure(InvalidStage);
    }
    hide Parse, Decimal, HighestOn, Fresh, Render, ValidTarget, NextCandidate, AllocatesExactly, Base;
    var highest, h := FindHighest(line, existing);
    forall g | HighestOn(existing, line, g) ensures g == h {
      HighestUnique(existing, line, g, h);
    }
    if target != "" {
      var ok, b := CheckTarget(target, line);
      NamedTarget(target, line);
      if !ok {
        return Failure(InvalidTarget);
      }
      r := CandidateOnBase(line, highest, h, b, target, stage, existing);
    } else {
      var base := ChooseBase(line, highest, h, existing);
      if base.Failure? {
        ExhaustedPatch(line, StageNamed(stage), h);
        return Failure(base.error);
      }
      ChosenBase(existing, line, h);
      r := CandidateOnBase(line, highest, h, BaseAfter(line, h), base.value, stage, existing);
    }
  }

  lemma NamedTarget(target: string, line: Line)
    requires ValidLine(line)
    ensures forall p: nat :: TargetIs(target, line, p) ==>
                               ValidTarget(target, line) && Parse(target) == Success(OnLineVersion(line, p))
  {
    forall p: nat | TargetIs(target, line, p) ensures ValidTarget(target, line)
    && Parse(target) == Success(OnLineVersion(line, p)) {
      ParseUndoesRender(OnLineVersion(line, p));
    }
  }

  lemma ExhaustedPatch(line: Line, stage: Stage, h: Option<Version>)
    requires ValidLine(line) && h.Some? && h.value.prerelease == "" && h.value.patch == MAX_SEGMENT
    ensures NextCandidate(line, stage, h) == Failure(PatchExhausted)
  {
  }

  lemma OrderAgainstHighest(tags: seq<string>, line: Line, h: Version, v: Version)
    requires HighestOn(tags, line, Some(h)) && WellFormed(v)
    ensures Render(h) != ""
    ensures OrderText(Render(v), Render(h)) == Compare(v, h)
    ensures Compare(v, h) <= 0 ==> !AboveLine(tags, line, v)
  {
    TakenIsWellFormed(tags, h);
    OrderOfTexts(v, h);
    TextIsNotEmpty(h);
  }

  lemma FreshCandidate(tags: seq<string>, line: Line, h: Option<Version>, b: Version, stage: Stage, n: nat)
    requires HighestOn(tags, line, h) && WellFormed(b) && b.major > 0 && OnLine(b, line) && 0 < n <= MAX_SEGMENT
    requires h.Some? ==> Compare(Candidate(b, stage, n), h.value) > 0
    ensures Fresh(Render(Candidate(b, stage, n)), line, stage, tags)
    ensures AboveLine(tags, line, Candidate(b, stage, n))
  {
    CandidateIsWellFormed(b, stage, n);
    ValidCandidate(b, stage, n);
    ParseUndoesRender(Candidate(b, stage, n));
    if h.Some? {
      AboveHighest(tags, line, h.value, Candidate(b, stage, n));
    }
  }

  // ------------------------------------------- the counter follows the highest

  lemma AboveByPatch(v: Version, w: Version)
    requires v.major == w.major && v.minor == w.minor && v.patch > w.patch
    ensures Compare(v, w) > 0
  {
    FirstDifference(Segments(v), Segments(w), 2);
  }

  lemma AboveByBuild(v: Version, w: Version)
    requires SameBase(v, w) && v.build > w.build
    ensures Compare(v, w) > 0
  {
    FirstDifference(Segments(v), Segments(w), 3);
  }

  lemma AboveByStage(v: Version, w: Version)
    requires WellFormed(v) && WellFormed(w) && SameBase(v, w) && v.build == w.build == 0
    ensures StageRank(v.prerelease) == StageRank(w.prerelease) && StageNumber(v.prerelease) == StageNumber(w.prerelease)
            ==> v == w
    ensures StageRank(v.prerelease) > StageRank(w.prerelease) ==> Compare(v, w) > 0
    ensures StageRank(v.prerelease) == StageRank(w.prerelease) && StageNumber(v.prerelease) > StageNumber(w.prerelease)
            ==> Compare(v, w) > 0
  {
    assert Segments(v) == Segments(w);
    PrereleaseByKey(v.prerelease, w.prerelease);
    LexPair(StageRank(v.prerelease), StageNumber(v.prerelease), StageRank(w.prerelease), StageNumber(w.prerelease));
    if (StageRank(v.prerelease), StageNumber(v.prerelease)) == (StageRank(w.prerelease), StageNumber(w.prerelease)) {
      PrereleaseFromKey(v.prerelease, w.prerelease);
    }
  }

  /** With no target, nothing taken on the chosen base is final, and its candidates are at most the highest. */
  lemma TakenOnChosenBase(tags: seq<string>, line: Line, h: Option<Version>, p: Version)
    requires ValidLine(line) && HighestOn(tags, line, h) && Taken(tags, p) && SameBase(p, BaseAfter(line, h))
    ensures h.Some? && h.value.prerelease != "" && p.prerelease != "" && SameBase(h.value, p)
    ensures StageRank(p.prerelease) <= StageRank(h.value.prerelease)
    ensures StageRank(p.prerelease) == StageRank(h.value.prerelease) ==>
              StageNumber(p.prerelease) <= StageNumber(h.value.prerelease)
  {
    assert OnLine(p, line);
    TakenIsWellFormed(tags, p);
    TakenIsWellFormed(tags, h.value);
    assert Compare(p, h.value) <= 0;
    if h.value.prerelease == "" {
      AboveByPatch(p, h.value);
    } else {
      if p.build > 0 {
        AboveByBuild(p, h.value);
      }
      AboveByStage(p, h.value);
    }
  }

  /** What the scan may answer about a base, given what the tags name. */
  ghost predicate CountAnswer(tags: seq<string>, b: Version, stage: Stage, counted: Result<nat, CandidateError>) {
    match counted
    case Success(next) => Counted(tags, b, stage, next)
    case Failure(AlreadyReleased) => exists p :: Taken(tags, p) && Finalized(p, b)
    case Failure(ReachedRc) => stage.Beta? && exists p :: Taken(tags, p) && CandidateOf(p, b, Rc)
    case Failure(_) => false
  }

  /** Nothing is taken on a base above the highest: the scan starts at one. */
  lemma CountsFromOne(tags: seq<string>, line: Line, h: Option<Version>, stage: Stage, counted: Result<nat,
                      CandidateError>)
    requires ValidLine(line) && HighestOn(tags, line, h)
    requires h.None? || h.value.prerelease == ""
    requires CountAnswer(tags, BaseAfter(line, h), stage, counted)
    ensures counted == Success(1)
  {
    hide Taken, HighestOn, TagOf, Decimal;
    var b := BaseAfter(line, h);
    forall p | Taken(tags, p) ensures !SameBase(p, b) {
      if SameBase(p, b) {
        TakenOnChosenBase(tags, line, h, p);
      }
    }
    assert forall n :: SameBase(Candidate(b, stage, n), b);
  }

  lemma HighestCandidate(tags: seq<string>, line: Line, h: Version)
    requires ValidLine(line) && HighestOn(tags, line, Some(h)) && h.prerelease != ""
    ensures Taken(tags, h) && SameBase(h, BaseAfter(line, Some(h)))
    ensures CandidateOf(h, BaseAfter(line, Some(h)), if StageRank(h.prerelease) == 0 then Beta else Rc)
    ensures StageNumber(h.prerelease) > 0
  {
    TakenIsWellFormed(tags, h);
  }

  /** The highest is a candidate of the base: the scan follows its stage and counter. */
  lemma CountsFromCandidate(tags: seq<string>, line: Line, h: Version, stage: Stage, counted: Result<nat,
                            CandidateError>)
    requires ValidLine(line) && HighestOn(tags, line, Some(h)) && h.prerelease != ""
    requires CountAnswer(tags, BaseAfter(line, Some(h)), stage, counted)
    ensures counted == if StageRank(h.prerelease) == stage.Rank() then Success(StageNumber(h.prerelease) + 1)
                       else if stage.Beta? then Failure(ReachedRc) else Success(1)
  {
    hide Taken, HighestOn, TagOf, Decimal, StageRank, StageNumber, Candidate, Before, After, BaseAfter, SameBase;
    var b := BaseAfter(line, Some(h));
    HighestCandidate(tags, line, h);
    match counted {
      case Failure(AlreadyReleased) =>
        var p :| Taken(tags, p) && Finalized(p, b);
        TakenOnChosenBase(tags, line, Some(h), p);
      case Failure(ReachedRc) =>
        var p :| Taken(tags, p) && CandidateOf(p, b, Rc);
        TakenOnChosenBase(tags, line, Some(h), p);
      case Failure(_) =>
      case Success(next) =>
        if next > 1 {
          PreviousCounter(tags, b, stage, next);
          TakenOnChosenBase(tags, line, Some(h), Candidate(b, stage, next - 1));
        }
    }
  }

  /** The candidate after the highest is above it. */
  lemma CountAdvances(tags: seq<string>, line: Line, h: Version, stage: Stage, n: nat)
    requires ValidLine(line) && HighestOn(tags, line, Some(h)) && 0 < n <= MAX_SEGMENT
    requires WellFormed(BaseAfter(line, Some(h)))
    requires h.prerelease != "" ==> StageRank(h.prerelease) <= stage.Rank()
    requires h.prerelease != "" && StageRank(h.prerelease) == stage.Rank() ==> n > StageNumber(h.prerelease)
    ensures Compare(Candidate(BaseAfter(line, Some(h)), stage, n), h) > 0
  {
    var b := BaseAfter(line, Some(h));
    TakenIsWellFormed(tags, h);
    CandidateIsWellFormed(b, stage, n);
    if h.prerelease == "" {
      AboveByPatch(Candidate(b, stage, n), h);
    } else {
      AboveByStage(Candidate(b, stage, n), h);
    }
  }

  lemma StageRankRange(pre: string)
    ensures 0 <= StageRank(pre) <= 2 && (StageRank(pre) == 2 <==> pre == "")
  {
    hide Before;
  }

  /** With no target, the scan and the comparison with the highest give what NextCandidate says. */
  lemma CountsFromHighest(tags: seq<string>, line: Line, h: Option<Version>, stage: Stage,
                          counted: Result<nat, CandidateError>)
    requires ValidLine(line) && HighestOn(tags, line, h)
    requires CountAnswer(tags, BaseAfter(line, h), stage, counted)
    ensures h.None? || h.value.prerelease == "" ==> counted == Success(1)
    ensures h.Some? && h.value.prerelease != "" ==>
              counted == if StageRank(h.value.prerelease) == stage.Rank()
                         then Success(StageNumber(h.value.prerelease) + 1)
                         else if stage.Beta? then Failure(ReachedRc) else Success(1)
    ensures counted.Success? && counted.value <= MAX_SEGMENT && h.Some? && WellFormed(BaseAfter(line, h)) ==>
              Compare(Candidate(BaseAfter(line, h), stage, counted.value), h.value) > 0
  {
    hide HighestOn, CountAnswer, StageRank, StageNumber, Compare, Candidate;
    if h.Some? { StageRankRange(h.value.prerelease); }
    if h.None? || h.value.prerelease == "" {
      CountsFromOne(tags, line, h, stage, counted);
    } else {
      CountsFromCandidate(tags, line, h.value, stage, counted);
    }
    if counted.Success? && counted.value <= MAX_SEGMENT && h.Some? && WellFormed(BaseAfter(line, h)) {
      CountAdvances(tags, line, h.value, stage, counted.value);
    }
  }

  lemma PreviousCounter(tags: seq<string>, b: Version, stage: Stage, next: nat)
    requires Counted(tags, b, stage, next) && next > 1
    ensures var p := Candidate(b, stage, next - 1);
            Taken(tags, p) && CandidateOf(p, b, stage) && StageNumber(p.prerelease) == next - 1
  {
    TakenIsWellFormed(tags, Candidate(b, stage, next - 1));
    CandidateParts(stage, next - 1);
    DecimalCanonical(next - 1);
  }

  // ------------------------------------------------------------------ advancing

  datatype AdvanceError = BadSource | Superseded | NotAllowed | TargetFinalized

  /** The candidate a source tag names: current namespace, prerelease. */
  predicate CandidateSource(source: string) {
    TagOf(source).Success? && TAG_PREFIX <= source && TagOf(source).value.product.prerelease != ""
  }

  /** A candidate of v's base above v is among the tags. */
  predicate SupersededBy(tags: seq<string>, v: Version) {
    exists i :: 0 <= i < |tags| && NewerCandidate(tags[i], v)
  }

  predicate NewerCandidate(tag: string, v: Version) {
    && TagOf(tag).Success?
    && var p := TagOf(tag).value.product;
       SameBase(p, v) && p.prerelease != "" && Compare(p, v) > 0
  }

  predicate FinalizedBy(tags: seq<string>, v: Version) {
    exists i :: 0 <= i < |tags| && TagOf(tags[i]).Success? && Finalized(TagOf(tags[i]).value.product, v)
  }

  method AdvanceRelease(source: string, stage: string, tags: seq<string>) returns (r: Result<string, AdvanceError>)
    ensures r == Failure(BadSource) <==> !CandidateSource(source)
    ensures CandidateSource(source) ==> var v := TagOf(source).value.product;
              r == if SupersededBy(tags, v) then Failure(Superseded)
                   else if stage == "stable" then Success(Base(v))
                   else if stage != "rc" || Before(v.prerelease, '.') != "beta" then Failure(NotAllowed)
                   else if FinalizedBy(tags, v) then Failure(TargetFinalized)
                   else Success(Base(v) + "-rc.1")
    ensures r.Success? ==> IsVersion(r.value) && Compare(Parse(r.value).value, TagOf(source).value.product) > 0
    ensures r.Success? && stage == "rc" ==> !Taken(tags, Parse(r.value).value)
  {
    var read := ReadCandidateTag(source);
    if read.None? {
      return Failure(BadSource);
    }
    ghost var v := TagOf(source).value.product;
    SourceText(source);
    hide Render, Base, TagOf, Parse, Compare, SupersededBy, FinalizedBy, Taken, IsVersion, Split, Before, After;
    if !(TAG_PREFIX <= source) || '-' !in read.value {
      return Failure(BadSource);
    }
    var base, pre := Before(read.value, '-'), After(read.value, '-');
    if |Split(base, '.')| != 3 {
      return Failure(BadSource);
    }
    var superseded := AnySuperseding(v, read.value, base, tags);
    if superseded {
      return Failure(Superseded);
    }
    AdvancedVersions(v, tags);
    if stage == "stable" {
      return Success(base);
    }
    BetaText(v.prerelease);
    if stage != "rc" || !("beta." <= pre) {
      return Failure(NotAllowed);
    }
    var finalized := AnyFinal(v, base, tags);
    if finalized {
      return Failure(TargetFinalized);
    }
    return Success(base + "-rc.1");
  }

  /** How a readable source tag's text is taken apart. */
  lemma SourceText(source: string)
    requires TagOf(source).Success?
    ensures var v := TagOf(source).value.product;
            && WellFormed(v) && v.major > 0
            && ('-' in Render(v) <==> v.prerelease != "")
            && After(Render(v), '-') == v.prerelease
            && (v.prerelease != "" ==> Before(Render(v), '-') == Base(v) && |Split(Base(v), '.')| == 3)
  {
    ReadableTag(source);
    var v := TagOf(source).value.product;
    hide TagOf;
    CutVersion(v);
    DottedText(v);
  }

  method AnySuperseding(ghost v: Version, text: string, base: string, tags: seq<string>) returns (found: bool)
    requires WellFormed(v) && v.prerelease != "" && text == Render(v) && base == Base(v)
    ensures found == SupersededBy(tags, v)
  {
    hide NewerCandidate, TagOf, OrderText, Render, Base;
    for i := 0 to |tags|
      invariant forall k :: 0 <= k < i ==> !NewerCandidate(tags[k], v)
    {
      var other := ReadCandidateTag(tags[i]);
      if other.Some? {
        SupersedingText(tags[i], v);
        var order := OrderCandidate(other.value, text);
        if base + "-" <= other.value && order > 0 {
          return true;
        }
      } else {
        UnreadableTag(tags[i], v);
      }
    }
    return false;
  }

  lemma UnreadableTag(tag: string, v: Version)
    requires TagOf(tag).Failure?
    ensures !NewerCandidate(tag, v)
  {
  }

  lemma SupersedingText(tag: string, v: Version)
    requires TagOf(tag).Success? && WellFormed(v)
    ensures var p := TagOf(tag).value.product;
            NewerCandidate(tag, v) <==> Base(v) + "-" <= Render(p) && OrderText(Render(p), Render(v)) > 0
  {
    ReadableTag(tag);
    var p := TagOf(tag).value.product;
    BaseByPrefix(p, v, '-');
    OrderOfTexts(p, v);
    hide Compare, Render, OrderText, TagOf;
  }

  method AnyFinal(ghost v: Version, base: string, tags: seq<string>) returns (found: bool)
    requires WellFormed(v) && base == Base(v)
    ensures found == FinalizedBy(tags, v)
  {
    hide TagOf, Render, Base;
    ghost var b := Version(v.major, v.minor, v.patch, 0, "");
    SameText(v, b);
    for i := 0 to |tags|
      invariant forall k :: 0 <= k < i && TagOf(tags[k]).Success? ==> !Finalized(TagOf(tags[k]).value.product, v)
    {
      var other := ReadCandidateTag(tags[i]);
      if other.Some? {
        ReadsAgainstBase(tags[i], b);
        if other.value == base || base + "." <= other.value {
          return true;
        }
      }
    }
    return false;
  }

  lemma SameText(v: Version, w: Version)
    requires SameBase(v, w)
    ensures Base(v) == Base(w)
  {
  }

  lemma BetaText(pre: string)
    requires IsPrerelease(pre)
    ensures "beta." <= pre <==> Before(pre, '.') == "beta"
  {
    CutRejoins(pre, '.');
    if Before(pre, '.') == "rc" {
      assert pre[0] == 'r' && "beta."[0] == 'b';
    } else {
      assert "beta" + ['.'] == "beta.";
    }
  }

  /** The two results an advance can have, against the candidate it starts from and the tags it saw. */
  lemma AdvancedVersions(v: Version, tags: seq<string>)
    requires WellFormed(v) && v.major > 0 && v.prerelease != "" && !SupersededBy(tags, v)
    ensures IsVersion(Base(v)) && Compare(Parse(Base(v)).value, v) > 0
    ensures var rc := Base(v) + "-rc.1";
            && IsVersion(rc)
            && (Before(v.prerelease, '.') == "beta" ==>
                  Compare(Parse(rc).value, v) > 0 && !Taken(tags, Parse(rc).value))
  {
    var final, rc := Version(v.major, v.minor, v.patch, 0, ""), Candidate(v, Rc, 1);
    AdvancedTexts(v);
    AboveByStage(final, v);
    CandidateIsWellFormed(v, Rc, 1);
    AboveByStage(rc, v);
    if Before(v.prerelease, '.') == "beta" && Taken(tags, rc) {
      assert Compare(rc, v) > 0;
      NotTakenAbove(tags, v, rc);
    }
  }

  lemma NotTakenAbove(tags: seq<string>, v: Version, w: Version)
    requires !SupersededBy(tags, v) && SameBase(w, v) && w.prerelease != "" && Compare(w, v) > 0
    ensures !Taken(tags, w)
  {
    forall i | 0 <= i < |tags| ensures !Names(tags[i], w) {
      if Names(tags[i], w) {
        assert NewerCandidate(tags[i], v);
      }
    }
  }

  lemma AdvancedTexts(v: Version)
    requires WellFormed(v) && v.major > 0
    ensures IsVersion(Base(v)) && Parse(Base(v)) == Success(Version(v.major, v.minor, v.patch, 0, ""))
    ensures IsVersion(Base(v) + "-rc.1") && Parse(Base(v) + "-rc.1") == Success(Candidate(v, Rc, 1))
  {
    var final := Version(v.major, v.minor, v.patch, 0, "");
    assert Render(final) == Base(v);
    ValidVersionsAreRenderings(Base(v));
    ParseUndoesRender(final);
    RcText(v);
    ValidCandidate(v, Rc, 1);
    CandidateIsWellFormed(v, Rc, 1);
    ParseUndoesRender(Candidate(v, Rc, 1));
  }

  lemma RcText(v: Version)
    requires WellFormed(v)
    ensures Render(Candidate(v, Rc, 1)) == Base(v) + "-rc.1"
  {
    CandidateIsWellFormed(v, Rc, 1);
    assert Decimal(1) == "1";
    assert Rc.Name() == "rc";
    assert Base(v) + "-" + "rc" + "." + "1" == Base(v) + "-rc.1";
  }
}
