/**
  * Product versions and release tags: parsing, printing and order
  * (releaseid/releaseid.go).
  */
module ReleaseId {
  import opened Wrappers
  import opened Text

  const MAX_SEGMENT: nat := 2147483647
  const MAX_INT64: nat := 0x7fff_ffff_ffff_ffff

  datatype ParseError = UnknownFormat | SegmentRange

  /** A normalized version. A zero build means there is no fourth segment. */
  datatype Version = Version(major: nat, minor: nat, patch: nat, build: nat, prerelease: string)

  predicate WellFormed(v: Version) {
    && v.major <= MAX_SEGMENT && v.minor <= MAX_SEGMENT && v.patch <= MAX_SEGMENT && v.build <= MAX_SEGMENT
    && (v.prerelease != "" ==> v.build == 0 && IsPrerelease(v.prerelease))
  }

  /** beta.N or rc.N with a positive bounded N in its one spelling. */
  predicate IsPrerelease(pre: string) {
    && '.' in pre
    && (Before(pre, '.') == "beta" || Before(pre, '.') == "rc")
    && SegmentOf(After(pre, '.')).Success?
    && SegmentOf(After(pre, '.')).value > 0
  }

  // ----------------------------------------------------------------- printing

  function Base(v: Version): string {
    Decimal(v.major) + "." + Decimal(v.minor) + "." + Decimal(v.patch)
  }

  function Render(v: Version): string {
    if v.build > 0 then Base(v) + "." + Decimal(v.build)
    else if v.prerelease != "" then Base(v) + "-" + v.prerelease
    else Base(v)
  }

  // ------------------------------------------------------------------ parsing

  function SegmentOf(part: string): Result<nat, ParseError> {
    if !Canonical(part) then Failure(UnknownFormat)
    else if Value(part) > MAX_SEGMENT then Failure(SegmentRange)
    else Success(Value(part))
  }

  /** Every segment's number, or the first segment's error. */
  function SegmentsOf(parts: seq<string>): Result<seq<nat>, ParseError> {
    if parts == [] then Success([]) else
      var n :- SegmentOf(parts[0]);
      var rest :- SegmentsOf(parts[1..]);
      Success([n] + rest)
  }

  function Padded(segments: seq<nat>, i: nat): nat {
    if i < |segments| then segments[i] else 0
  }

  function Parse(s: string): Result<Version, ParseError> {
    var base, pre := Before(s, '-'), After(s, '-');
    var parts := Split(base, '.');
    if s == "" then Failure(UnknownFormat)
    else if '-' in s && !IsPrerelease(pre) then Failure(UnknownFormat)
    else if '-' in s && |parts| != 3 then Failure(UnknownFormat)
    else if |parts| > 4 then Failure(UnknownFormat)
    else
      var n :- SegmentsOf(parts);
      if |parts| == 4 && Padded(n, 3) == 0 then Failure(UnknownFormat)
      else Success(Version(Padded(n, 0), Padded(n, 1), Padded(n, 2), Padded(n, 3), pre))
  }

  /** The signed 64-bit conversion of digits: none when the number does not fit. */
  method ParseInt(part: string) returns (n: Option<nat>)
    requires AllDigits(part)
    ensures n == if Value(part) <= MAX_INT64 then Some(Value(part)) else None
  {
    var acc: nat := 0;
    for i := 0 to |part|
      invariant acc == Value(part[..i]) <= MAX_INT64
    {
      var d := DigitValue(part[i]);
      assert part[..i + 1][..i] == part[..i];
      if acc > (MAX_INT64 - d) / 10 {
        ValueOfPrefix(part, i + 1);
        return None;
      }
      acc := 10 * acc + d;
    }
    assert part[..|part|] == part;
    return Some(acc);
  }

  method ParseSegment(part: string) returns (r: Result<nat, ParseError>)
    ensures r == SegmentOf(part)
  {
    if part == "" {
      return Failure(UnknownFormat);
    }
    for i := 0 to |part|
      invariant AllDigits(part[..i])
    {
      if part[i] < '0' || part[i] > '9' {
        assert !IsDigit(part[i]);
        return Failure(UnknownFormat);
      }
      assert part[..i + 1] == part[..i] + [part[i]];
    }
    assert part[..|part|] == part;
    if |part| > 1 && part[0] == '0' {
      return Failure(UnknownFormat);
    }
    var n := ParseInt(part);
    if n.None? || n.value > MAX_SEGMENT {
      return Failure(SegmentRange);
    }
    return Success(n.value);
  }

  method CheckPrerelease(pre: string) returns (ok: bool)
    ensures ok == IsPrerelease(pre)
  {
    var stage, number := Before(pre, '.'), After(pre, '.');
    if '.' !in pre || (stage != "beta" && stage != "rc") {
      return false;
    }
    var n := ParseSegment(number);
    return n.Success? && n.value > 0;
  }

  /** The loop over a version's segments: the four numbers, absent ones zero, or the first error. */
  method ParseSegments(parts: seq<string>) returns (out: array<nat>, failed: Option<ParseError>)
    requires |parts| <= 4
    ensures out.Length == 4
    ensures failed.Some? ==> SegmentsOf(parts) == Failure(failed.value)
    ensures failed.None? ==> SegmentsOf(parts).Success?
    ensures failed.None? ==> forall k :: 0 <= k < 4 ==> out[k] == Padded(SegmentsOf(parts).value, k)
  {
    out := new nat[4](_ => 0);
    for i := 0 to |parts|
      invariant SegmentsOf(parts[..i]) == Success(out[..i])
      invariant forall k :: i <= k < 4 ==> out[k] == 0
    {
      var n := ParseSegment(parts[i]);
      SegmentsOfSnoc(parts[..i], parts[i]);
      assert parts[..i + 1] == parts[..i] + [parts[i]];
      if n.Failure? {
        SegmentsOfFailsAt(parts, i + 1);
        return out, Some(n.error);
      }
      out[i] := n.value;
      assert out[..i + 1] == out[..i] + [n.value];
    }
    assert parts[..|parts|] == parts;
    return out, None;
  }

  method ParseProductVersion(s: string) returns (r: Result<Version, ParseError>)
    ensures r == Parse(s)
  {
    if s == "" {
      return Failure(UnknownFormat);
    }
    var base, pre, hasPre := Before(s, '-'), After(s, '-'), '-' in s;
    if hasPre {
      var ok := CheckPrerelease(pre);
      if !ok {
        return Failure(UnknownFormat);
      }
    }
    var parts := Split(base, '.');
    if hasPre && |parts| != 3 {
      return Failure(UnknownFormat);
    }
    if |parts| > 4 {
      return Failure(UnknownFormat);
    }
    var out, failed := ParseSegments(parts);
    if failed.Some? {
      return Failure(failed.value);
    }
    if |parts| == 4 && out[3] == 0 {
      return Failure(UnknownFormat);
    }
    return Success(Version(out[0], out[1], out[2], out[3], pre));
  }

  lemma {:induction false} SegmentsOfSnoc(parts: seq<string>, last: string)
    ensures SegmentsOf(parts).Success? ==> |SegmentsOf(parts).value| == |parts|
    ensures SegmentsOf(parts + [last]) ==
            if SegmentsOf(parts).Failure? then SegmentsOf(parts)
            else if SegmentOf(last).Failure? then Failure(SegmentOf(last).error)
            else Success(SegmentsOf(parts).value + [SegmentOf(last).value])
  {
    if parts == [] {
      assert parts + [last] == [last];
      assert [last][1..] == [];
      if SegmentOf(last).Success? {
        var n := SegmentOf(last).value;
        assert [n] + [] == [] + [n];
      }
    } else {
      SegmentsOfSnoc(parts[1..], last);
      assert (parts + [last])[1..] == parts[1..] + [last];
      if SegmentOf(parts[0]).Success? && SegmentsOf(parts[1..]).Success? && SegmentOf(last).Success? {
        var n, rest, l := SegmentOf(parts[0]).value, SegmentsOf(parts[1..]).value, SegmentOf(last).value;
        assert [n] + (rest + [l]) == ([n] + rest) + [l];
      }
    }
  }

  lemma {:induction false} SegmentsOfFailsAt(parts: seq<string>, i: nat)
    requires i <= |parts| && SegmentsOf(parts[..i]).Failure?
    ensures SegmentsOf(parts) == Failure(SegmentsOf(parts[..i]).error)
    decreases |parts| - i
  {
    if i == |parts| {
      assert parts[..i] == parts;
    } else {
      SegmentsOfSnoc(parts[..i], parts[i]);
      assert parts[..i + 1] == parts[..i] + [parts[i]];
      SegmentsOfFailsAt(parts, i + 1);
    }
  }

  // ------------------------------------------- parsing and printing are inverse

  /** How a version may be written: as it prints, or with trailing zero segments left off. */
  predicate Spells(s: string, v: Version) {
    || s == Render(v)
    || (&& v.patch == 0 && v.build == 0 && v.prerelease == ""
        && (|| s == Decimal(v.major) + "." + Decimal(v.minor)
            || (v.minor == 0 && s == Decimal(v.major))))
  }

  lemma SegmentOfDecimal(n: nat)
    requires n <= MAX_SEGMENT
    ensures SegmentOf(Decimal(n)) == Success(n)
    ensures '.' !in Decimal(n) && '-' !in Decimal(n)
  {
    DecimalCanonical(n);
  }

  function Numerals(segments: seq<nat>): (parts: seq<string>)
    ensures |parts| == |segments|
    ensures forall i :: 0 <= i < |segments| ==> parts[i] == Decimal(segments[i])
  {
    seq(|segments|, i requires 0 <= i < |segments| => Decimal(segments[i]))
  }

  predicate Bounded(segments: seq<nat>) {
    forall i :: 0 <= i < |segments| ==> segments[i] <= MAX_SEGMENT
  }

  lemma {:induction false} SegmentsOfNumerals(segments: seq<nat>)
    requires Bounded(segments)
    ensures SegmentsOf(Numerals(segments)) == Success(segments)
  {
    if segments != [] {
      SegmentOfDecimal(segments[0]);
      SegmentsOfNumerals(segments[1..]);
      assert Numerals(segments)[1..] == Numerals(segments[1..]);
      assert segments == [segments[0]] + segments[1..];
    }
  }

  lemma {:induction false} NumeralsOfSegments(parts: seq<string>)
    requires SegmentsOf(parts).Success?
    ensures |SegmentsOf(parts).value| == |parts|
    ensures Bounded(SegmentsOf(parts).value) && Numerals(SegmentsOf(parts).value) == parts
  {
    if parts != [] {
      NumeralsOfSegments(parts[1..]);
      CanonicalDecimal(parts[0]);
      var n := SegmentsOf(parts).value;
      assert n[1..] == SegmentsOf(parts[1..]).value;
      assert parts == [parts[0]] + parts[1..];
      forall i | 0 <= i < |n| ensures n[i] <= MAX_SEGMENT && Numerals(n)[i] == parts[i] {
        if i > 0 {
          assert n[i] == n[1..][i - 1];
          assert Numerals(n[1..])[i - 1] == parts[1..][i - 1];
        }
      }
    }
  }

  /** The dotted text of one to four numerals. */
  lemma JoinedNumerals(n: seq<nat>)
    requires 1 <= |n| <= 4
    ensures var t := Join(Numerals(n), '.');
            && (|n| == 1 ==> t == Decimal(n[0]))
            && (|n| == 2 ==> t == Decimal(n[0]) + "." + Decimal(n[1]))
            && (|n| == 3 ==> t == Base(Version(n[0], n[1], n[2], 0, "")))
            && (|n| == 4 ==> t == Base(Version(n[0], n[1], n[2], 0, "")) + "." + Decimal(n[3]))
  {
    var p := Numerals(n);
    if |n| >= 2 {
      assert p[1..][0] == Decimal(n[1]);
      if |n| >= 3 {
        assert p[1..][1..] == p[2..] && p[2..][0] == Decimal(n[2]);
        if |n| == 4 {
          assert p[2..][1..] == [Decimal(n[3])];
          assert Join(p[2..], '.') == Decimal(n[2]) + "." + Decimal(n[3]);
          assert Join(p[1..], '.') == Decimal(n[1]) + "." + Join(p[2..], '.');
        }
      }
    }
  }

  /** Numerals joined by dots contain no hyphen and split back into themselves. */
  lemma {:induction false} DottedNumerals(n: seq<nat>)
    requires |n| >= 1
    ensures '-' !in Join(Numerals(n), '.')
    ensures Split(Join(Numerals(n), '.'), '.') == Numerals(n)
  {
    JoinSplits(Numerals(n), '.') by {
      forall p | p in Numerals(n) ensures '.' !in p {
        var i :| 0 <= i < |n| && p == Decimal(n[i]);
        NotADigit(p, '.');
      }
    }
    NotADigit(Decimal(n[0]), '-');
    if |n| > 1 {
      DottedNumerals(n[1..]);
      assert Numerals(n)[1..] == Numerals(n[1..]);
    }
  }

  /** What Parse makes of dotted numerals, with or without a prerelease. */
  lemma ParseDotted(n: seq<nat>, pre: string)
    requires 1 <= |n| <= 4 && Bounded(n)
    requires |n| == 4 ==> n[3] > 0
    requires pre != "" ==> |n| == 3 && IsPrerelease(pre)
    ensures var base := Join(Numerals(n), '.');
            Parse(if pre == "" then base else base + "-" + pre)
            == Success(Version(Padded(n, 0), Padded(n, 1), Padded(n, 2), Padded(n, 3), pre))
  {
    var base := Join(Numerals(n), '.');
    DottedNumerals(n);
    SegmentsOfNumerals(n);
    assert base != "" by {
      JoinedNumerals(n);
    }
    if pre == "" {
      CutAbsent(base, '-');
    } else {
      CutJoined(base, '-', pre);
      assert (base + "-" + pre)[|base|] == '-';
    }
  }

  /** Parse accepts exactly the spellings of well-formed versions, and reads each as its version. */
  lemma ParsesExactlySpellings(s: string, v: Version)
    ensures Parse(s) == Success(v) <==> WellFormed(v) && Spells(s, v)
  {
    if WellFormed(v) && Spells(s, v) {
      SpellingParses(s, v);
    }
    if Parse(s) == Success(v) {
      ParsedSpells(s, v);
    }
  }

  lemma SpellingParses(s: string, v: Version)
    requires WellFormed(v) && Spells(s, v)
    ensures Parse(s) == Success(v)
  {
    var n :=
      if s == Render(v) then
        if v.build > 0 then [v.major, v.minor, v.patch, v.build] else [v.major, v.minor, v.patch]
      else if s == Decimal(v.major) + "." + Decimal(v.minor) then [v.major, v.minor]
      else [v.major];
    JoinedNumerals(n);
    ParseDotted(n, v.prerelease);
  }

  lemma ParsedSpells(s: string, v: Version)
    requires Parse(s) == Success(v)
    ensures WellFormed(v) && Spells(s, v)
  {
    var base, pre := Before(s, '-'), After(s, '-');
    var parts := Split(base, '.');
    NumeralsOfSegments(parts);
    var n := SegmentsOf(parts).value;
    SplitJoins(base, '.');
    JoinedNumerals(n);
    if '-' in s {
      CutRejoins(s, '-');
    } else {
      CutAbsent(s, '-');
    }
    assert v == Version(Padded(n, 0), Padded(n, 1), Padded(n, 2), Padded(n, 3), pre);
  }

  /** Printing a well-formed version and parsing it back changes nothing. */
  lemma ParseUndoesRender(v: Version)
    requires WellFormed(v)
    ensures Parse(Render(v)) == Success(v)
  {
    ParsesExactlySpellings(Render(v), v);
  }

  lemma RenderInjective(v: Version, w: Version)
    requires WellFormed(v) && WellFormed(w) && Render(v) == Render(w)
    ensures v == w
  {
    ParseUndoesRender(v);
    ParseUndoesRender(w);
  }

  predicate ThreeOrFour(text: string) {
    var parts := |Split(Before(text, '-'), '.')|;
    parts == 3 || parts == 4
  }

  method ValidVersion(value: string) returns (ok: bool)
    ensures ok == IsVersion(value)
  {
    if !ThreeOrFour(value) {
      return false;
    }
    var parsed := ParseProductVersion(value);
    return parsed.Success? && parsed.value.major != 0 && Render(parsed.value) == value;
  }

  predicate IsVersion(value: string) {
    ThreeOrFour(value) && Parse(value).Success? && Parse(value).value.major != 0 && Render(Parse(value).value) == value
  }

  lemma RenderIsThreeOrFour(v: Version)
    requires WellFormed(v)
    ensures ThreeOrFour(Render(v))
  {
    var n := if v.build > 0 then [v.major, v.minor, v.patch, v.build] else [v.major, v.minor, v.patch];
    JoinedNumerals(n);
    DottedNumerals(n);
    var base := Join(Numerals(n), '.');
    if v.prerelease == "" {
      CutAbsent(base, '-');
    } else {
      CutJoined(base, '-', v.prerelease);
    }
  }

  /** A valid version string is the printed form of a well-formed version with a positive major, and nothing else. */
  lemma ValidVersionsAreRenderings(s: string)
    ensures IsVersion(s) <==> exists v :: WellFormed(v) && v.major > 0 && s == Render(v)
  {
    if IsVersion(s) {
      ParsesExactlySpellings(s, Parse(s).value);
    }
    if v :| WellFormed(v) && v.major > 0 && s == Render(v) {
      ParseUndoesRender(v);
      RenderIsThreeOrFour(v);
    }
  }

  // --------------------------------------------------------------------- tags

  const TAG_PREFIX := "v"
  const HISTORICAL_TAG_PREFIX := "release/"

  datatype Tag = Tag(raw: string, product: Version)

  /** The version part of a tag under either namespace. */
  function BodyOf(raw: string): Option<string> {
    if TAG_PREFIX <= raw then Some(raw[|TAG_PREFIX|..])
    else if HISTORICAL_TAG_PREFIX <= raw then Some(raw[|HISTORICAL_TAG_PREFIX|..])
    else None
  }

  method TagBody(raw: string) returns (body: Option<string>)
    ensures body == BodyOf(raw)
  {
    var prefixes := [TAG_PREFIX, HISTORICAL_TAG_PREFIX];
    for i := 0 to |prefixes|
      invariant forall k :: 0 <= k < i ==> !(prefixes[k] <= raw)
    {
      if prefixes[i] <= raw {
        assert i == 1 ==> !(prefixes[0] <= raw);
        assert prefixes[i] == if i == 0 then TAG_PREFIX else HISTORICAL_TAG_PREFIX;
        return Some(raw[|prefixes[i]|..]);
      }
    }
    assert prefixes[0] == TAG_PREFIX && prefixes[1] == HISTORICAL_TAG_PREFIX;
    assert !(prefixes[0] <= raw) && !(prefixes[1] <= raw);
    return None;
  }

  function TagOf(raw: string): Result<Tag, ParseError> {
    if BodyOf(raw).None? || !ThreeOrFour(BodyOf(raw).value) then Failure(UnknownFormat) else
      var v :- Parse(BodyOf(raw).value);
      if v.major == 0 then Failure(UnknownFormat) else Success(Tag(raw, v))
  }

  method ParseReleaseTag(raw: string) returns (r: Result<Tag, ParseError>)
    ensures r == TagOf(raw)
  {
    var body := TagBody(raw);
    if body.None? || !ThreeOrFour(body.value) {
      return Failure(UnknownFormat);
    }
    var v := ParseProductVersion(body.value);
    if v.Failure? {
      return Failure(v.error);
    }
    if v.value.major == 0 {
      return Failure(UnknownFormat);
    }
    return Success(Tag(raw, v.value));
  }

  method TagForVersion(version: string) returns (r: Result<Tag, ParseError>)
    ensures Parse(version).Failure? ==> r == Failure(Parse(version).error)
    ensures Parse(version).Success? && Parse(version).value.major == 0 ==> r == Failure(UnknownFormat)
    ensures Parse(version).Success? && Parse(version).value.major > 0 ==>
              r == Success(Tag(TAG_PREFIX + Render(Parse(version).value), Parse(version).value))
    ensures r.Success? ==> TagOf(r.value.raw) == r
  {
    var v := ParseProductVersion(version);
    if v.Failure? {
      return Failure(v.error);
    }
    if v.value.major == 0 {
      return Failure(UnknownFormat);
    }
    r := Success(Tag(TAG_PREFIX + Render(v.value), v.value));
    ParsesExactlySpellings(version, v.value);
    NamespacesAgree(v.value);
  }

  method HistoricalTagFor(version: string) returns (r: Result<Tag, ParseError>)
    ensures r.Success? <==> Parse(version).Success? && Parse(version).value.major > 0
    ensures r.Success? ==> r.value == Tag(HISTORICAL_TAG_PREFIX + Render(Parse(version).value), Parse(version).value)
    ensures r.Success? ==> TagOf(r.value.raw) == r
  {
    var tag := TagForVersion(version);
    if tag.Failure? {
      return Failure(tag.error);
    }
    r := Success(Tag(HISTORICAL_TAG_PREFIX + Render(tag.value.product), tag.value.product));
    ParsesExactlySpellings(version, tag.value.product);
    NamespacesAgree(tag.value.product);
  }

  /** Both addresses of a release parse back to its version. */
  lemma NamespacesAgree(v: Version)
    requires WellFormed(v) && v.major > 0
    ensures TagOf(TAG_PREFIX + Render(v)) == Success(Tag(TAG_PREFIX + Render(v), v))
    ensures TagOf(HISTORICAL_TAG_PREFIX + Render(v)) == Success(Tag(HISTORICAL_TAG_PREFIX + Render(v), v))
  {
    ParseUndoesRender(v);
    RenderIsThreeOrFour(v);
    hide Parse, Render, ThreeOrFour;
    BodyOfTag(Render(v));
  }

  lemma BodyOfTag(text: string)
    ensures BodyOf(TAG_PREFIX + text) == Some(text)
    ensures BodyOf(HISTORICAL_TAG_PREFIX + text) == Some(text)
  {
    var current, historical := TAG_PREFIX + text, HISTORICAL_TAG_PREFIX + text;
    assert current[|TAG_PREFIX|..] == text;
    assert historical[|HISTORICAL_TAG_PREFIX|..] == text;
    assert historical[0] == 'r' && TAG_PREFIX[0] == 'v';
  }

  /** Exactly the texts of a release's two addresses are read as tags of it. */
  lemma TagsAreAddresses(raw: string, v: Version)
    ensures TagOf(raw) == Success(Tag(raw, v)) <==>
              WellFormed(v) && v.major > 0
              && (raw == TAG_PREFIX + Render(v) || raw == HISTORICAL_TAG_PREFIX + Render(v))
  {
    hide Parse, Render, ThreeOrFour, WellFormed;
    if WellFormed(v) && v.major > 0 {
      NamespacesAgree(v);
    }
    if TagOf(raw) == Success(Tag(raw, v)) {
      ParsesExactlySpellings(BodyOf(raw).value, v);
      ShortIsNotThreeOrFour(v.major, v.minor);
      BodyRejoins(raw);
    }
  }

  lemma ShortIsNotThreeOrFour(m: nat, n: nat)
    ensures !ThreeOrFour(Decimal(m)) && !ThreeOrFour(Decimal(m) + "." + Decimal(n))
  {
    hide Decimal;
    var parts, short := [Decimal(m), Decimal(n)], Decimal(m) + "." + Decimal(n);
    NotADigit(Decimal(m), '.');
    NotADigit(Decimal(n), '.');
    NotADigit(Decimal(m), '-');
    NotADigit(Decimal(n), '-');
    CutAbsent(Decimal(m), '-');
    CutAbsent(short, '-');
    assert parts[1..] == [Decimal(n)] && Join(parts, '.') == short;
    JoinSplits(parts, '.');
  }

  lemma BodyRejoins(raw: string)
    requires BodyOf(raw).Some?
    ensures raw == TAG_PREFIX + BodyOf(raw).value || raw == HISTORICAL_TAG_PREFIX + BodyOf(raw).value
  {
  }

  /** A readable tag names a well-formed release, spelled by its body. */
  lemma ReadableTag(raw: string)
    requires TagOf(raw).Success?
    ensures WellFormed(TagOf(raw).value.product) && TagOf(raw).value.product.major > 0
    ensures TagOf(raw).value.raw == raw
  {
    ParsesExactlySpellings(BodyOf(raw).value, TagOf(raw).value.product);
  }
}
