/**
  * Allocating release numbers on a line (releaseid/allocate.go,
  * releaseid/candidate.go, releaseid/release_stage.go).
  */
module Allocation {
  import opened Wrappers
  import opened ReleaseId
  import opened VersionOrder

  /** The major and minor a maintainer names. */
  datatype Line = Line(major: int, minor: int)

  predicate OnLine(v: Version, line: Line) {
    v.major == line.major && v.minor == line.minor
  }

  /** Some tag, in either namespace, already names v. */
  predicate Taken(tags: seq<string>, v: Version) {
    exists i :: 0 <= i < |tags| && Names(tags[i], v)
  }

  predicate Names(tag: string, v: Version) {
    TagOf(tag).Success? && TagOf(tag).value.product == v
  }

  /** h is the highest version taken on the line; None when none is. */
  ghost predicate HighestOn(tags: seq<string>, line: Line, h: Option<Version>) {
    && (h.Some? ==> Taken(tags, h.value) && OnLine(h.value, line))
    && (forall w :: Taken(tags, w) && OnLine(w, line) ==> h.Some? && Compare(w, h.value) <= 0)
  }

  /** v is above every version the tags name on its line. */
  ghost predicate AboveLine(tags: seq<string>, line: Line, v: Version) {
    OnLine(v, line) && forall w :: Taken(tags, w) && OnLine(w, line) ==> Compare(v, w) > 0
  }

  lemma TakenIsWellFormed(tags: seq<string>, v: Version)
    requires Taken(tags, v)
    ensures WellFormed(v) && v.major > 0
  {
    var i :| 0 <= i < |tags| && Names(tags[i], v);
    ReadableTag(tags[i]);
  }

  lemma TakenSnoc(tags: seq<string>, tag: string, v: Version)
    ensures Taken(tags + [tag], v) <==> Taken(tags, v) || Names(tag, v)
  {
    var all := tags + [tag];
    if Taken(all, v) {
      var i :| 0 <= i < |all| && Names(all[i], v);
      assert i < |tags| ==> Names(tags[i], v);
    }
    if Taken(tags, v) {
      var i :| 0 <= i < |tags| && Names(tags[i], v);
      assert Names(all[i], v);
    }
    assert all[|tags|] == tag;
  }

  lemma AboveHighest(tags: seq<string>, line: Line, h: Version, v: Version)
    requires HighestOn(tags, line, Some(h)) && WellFormed(v) && OnLine(v, line) && Compare(v, h) > 0
    ensures AboveLine(tags, line, v)
  {
    TakenIsWellFormed(tags, h);
    forall w | Taken(tags, w) && OnLine(w, line) ensures Compare(v, w) > 0 {
      TakenIsWellFormed(tags, w);
      CompareIsTotalOrder(w, h, v);
      CompareIsTotalOrder(v, h, w);
      CompareIsTotalOrder(v, w, h);
    }
  }

  /** Scanning one more tag: the highest so far is replaced only by a higher version on the line. */
  lemma HighestSnoc(tags: seq<string>, tag: string, line: Line, h: Option<Version>)
    requires HighestOn(tags, line, h)
    ensures TagOf(tag).Failure? || !OnLine(TagOf(tag).value.product, line) ==> HighestOn(tags + [tag], line, h)
    ensures TagOf(tag).Success? && OnLine(TagOf(tag).value.product, line) ==>
              var p := TagOf(tag).value.product;
              HighestOn(tags + [tag], line, if h.None? || Compare(p, h.value) > 0 then Some(p) else h)
  {
    forall w ensures Taken(tags + [tag], w) <==> Taken(tags, w) || Names(tag, w) {
      TakenSnoc(tags, tag, w);
    }
    if TagOf(tag).Success? && OnLine(TagOf(tag).value.product, line) {
      var p := TagOf(tag).value.product;
      ReadableTag(tag);
      CompareIsTotalOrder(p, p, p);
      if h.Some? && Compare(p, h.value) > 0 {
        TakenIsWellFormed(tags, h.value);
        AboveHighest(tags, line, h.value, p);
        forall w | Taken(tags, w) && OnLine(w, line) ensures Compare(w, p) <= 0 {
          TakenIsWellFormed(tags, w);
          CompareIsTotalOrder(p, w, p);
        }
      }
    }
  }

  lemma HighestUnique(tags: seq<string>, line: Line, g: Option<Version>, h: Option<Version>)
    requires HighestOn(tags, line, g) && HighestOn(tags, line, h)
    ensures g == h
  {
    if g.Some? && h.Some? {
      TakenIsWellFormed(tags, g.value);
      TakenIsWellFormed(tags, h.value);
      CompareIsTotalOrder(g.value, h.value, g.value);
    }
  }

  // ------------------------------------------------------------ patch builds

  datatype PatchError = NoRelease | BuildExhausted

  /** The version a patch allocation gives after h. */
  function NextBuild(h: Version): Version {
    Version(h.major, h.minor, h.patch, h.build + 1, "")
  }

  lemma CompareOnLine(a: Version, b: Version)
    requires a.major == b.major && a.minor == b.minor
    ensures a.patch < b.patch ==> Compare(a, b) < 0
    ensures a.patch > b.patch ==> Compare(a, b) > 0
    ensures a.patch == b.patch && a.build < b.build ==> Compare(a, b) < 0
    ensures a.patch == b.patch && a.build > b.build ==> Compare(a, b) > 0
    ensures a.patch == b.patch && a.build == b.build ==> Compare(a, b) == CmpPrerelease(a.prerelease, b.prerelease)
  {
    hide CmpPrerelease;
    if a.patch != b.patch {
      FirstDifference(Segments(a), Segments(b), 2);
    } else if a.build != b.build {
      FirstDifference(Segments(a), Segments(b), 3);
    }
  }

  /** No patch build lies between the line and the next one; after a release, nothing at all does. */
  lemma NextBuildIsLeast(tags: seq<string>, line: Line, h: Version, v: Version)
    requires HighestOn(tags, line, Some(h)) && h.build < MAX_SEGMENT
    requires WellFormed(v) && AboveLine(tags, line, v) && (v.build > 0 || h.prerelease == "")
    ensures Compare(NextBuild(h), v) <= 0
  {
    hide Compare, IsPrerelease;
    TakenIsWellFormed(tags, h);
    CompareOnLine(v, h);
    CompareOnLine(NextBuild(h), v);
  }

  /**
    * The next build on a line: valid, on the line and above everything the tags
    * name there, and the least such build; refused exactly when the line has no release, or its highest
    * release has the last build number.
    */
  method AllocatePatch(line: Line, existing: seq<string>) returns (r: Result<Version, PatchError>)
    ensures r.Success? ==> IsVersion(Render(r.value)) && AboveLine(existing, line, r.value)
    ensures forall v :: r.Success? && WellFormed(v) && v.build > 0 && AboveLine(existing, line, v) ==>
                          Compare(r.value, v) <= 0
    ensures r == Failure(NoRelease) <==> HighestOn(existing, line, None)
    ensures forall h :: HighestOn(existing, line, Some(h)) ==>
                r == if h.build == MAX_SEGMENT then Failure(BuildExhausted) else Success(NextBuild(h))
  {
    var highest: Option<Version> := None;
    for i := 0 to |existing|
      invariant HighestOn(existing[..i], line, highest)
    {
      var tag := ParseReleaseTag(existing[i]);
      HighestSnoc(existing[..i], existing[i], line, highest);
      assert existing[..i + 1] == existing[..i] + [existing[i]];
      if tag.Failure? || !OnLine(tag.value.product, line) {
        continue;
      }
      if highest.None? {
        highest := Some(tag.value.product);
      } else {
        var c := CompareProductVersion(tag.value.product, highest.value);
        if c > 0 {
          highest := Some(tag.value.product);
        }
      }
    }
    assert existing[..|existing|] == existing;
    forall h | HighestOn(existing, line, h) ensures h == highest {
      HighestUnique(existing, line, h, highest);
    }
    if highest.None? {
      return Failure(NoRelease);
    }
    TakenIsWellFormed(existing, highest.value);
    if highest.value.build + 1 > MAX_SEGMENT {
      return Failure(BuildExhausted);
    }
    r := Success(NextBuild(highest.value));
    NextBuildIsAbove(existing, line, highest.value);
    forall v | WellFormed(v) && v.build > 0 && AboveLine(existing, line, v) ensures Compare(r.value, v) <= 0 {
      NextBuildIsLeast(existing, line, highest.value, v);
    }
  }

  lemma NextBuildIsAbove(tags: seq<string>, line: Line, h: Version)
    requires HighestOn(tags, line, Some(h)) && h.build < MAX_SEGMENT
    ensures AboveLine(tags, line, NextBuild(h)) && IsVersion(Render(NextBuild(h)))
  {
    TakenIsWellFormed(tags, h);
    FirstDifference(Segments(NextBuild(h)), Segments(h), 3);
    assert Compare(NextBuild(h), h) > 0;
    hide Compare, Render, IsVersion;
    AboveHighest(tags, line, h, NextBuild(h));
    ValidVersionsAreRenderings(Render(NextBuild(h)));
  }

  datatype ResumeError = NotAllocated | AmbiguousRevision

  /** How many tags name a release on the line. */
  function Matches(tags: seq<string>, line: Line): nat {
    if tags == [] then 0 else
      Matches(tags[..|tags| - 1], line)
      + if TagOf(tags[|tags| - 1]).Success? && OnLine(TagOf(tags[|tags| - 1]).value.product, line) then 1 else 0
  }

  lemma {:induction false} NoMatches(tags: seq<string>, line: Line)
    requires Matches(tags, line) == 0
    ensures forall tag :: tag in tags && TagOf(tag).Success? ==> !OnLine(TagOf(tag).value.product, line)
  {
    if tags != [] {
      NoMatches(tags[..|tags| - 1], line);
      assert tags == tags[..|tags| - 1] + [tags[|tags| - 1]];
    }
  }

  /** The tag a revision already carries on the line, only when there is exactly one. */
  method ResumeTag(line: Line, onCommit: seq<string>) returns (r: Result<Tag, ResumeError>)
    ensures r.Success? <==> Matches(onCommit, line) == 1
    ensures r.Success? ==>
              r.value.raw in onCommit && TagOf(r.value.raw) == Success(r.value) && OnLine(r.value.product, line)
    ensures r == Failure(NotAllocated) <==> Matches(onCommit, line) == 0
  {
    var found: Option<Tag> := None;
    var matches := 0;
    for i := 0 to |onCommit|
      invariant matches == Matches(onCommit[..i], line)
      invariant matches > 0 ==> found.Some? && found.value.raw in onCommit
      invariant matches > 0 ==> TagOf(found.value.raw) == Success(found.value) && OnLine(found.value.product, line)
    {
      var tag := ParseReleaseTag(onCommit[i]);
      assert onCommit[..i + 1][..i] == onCommit[..i];
      if tag.Failure? || !OnLine(tag.value.product, line) {
        continue;
      }
      ReadableTag(onCommit[i]);
      found := Some(tag.value);
      matches := matches + 1;
    }
    assert onCommit[..|onCommit|] == onCommit;
    if matches == 0 {
      return Failure(NotAllocated);
    }
    if matches == 1 {
      return Success(found.value);
    }
    return Failure(AmbiguousRevision);
  }
}
