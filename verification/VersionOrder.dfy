/**
  * The order of product versions (releaseid/releaseid.go, CompareProductVersion),
  * against two independent definitions: lexicographic order of a numeric key, and
  * the precedence of section 11 of Semantic Versioning 2.0.0.
  */
module VersionOrder {
  import opened Text
  import opened ReleaseId

  function Cmp(x: int, y: int): int {
    if x < y then -1 else if x > y then 1 else 0
  }

  /** Byte-wise comparison of text. */
  function CmpText(s: string, t: string): int {
    if s == t then 0
    else if s == "" then -1
    else if t == "" then 1
    else if s[0] != t[0] then (if s[0] < t[0] then -1 else 1)
    else CmpText(s[1..], t[1..])
  }

  /**
    * The value a signed 64-bit conversion leaves behind when its error is
    * ignored: zero for text that is not a number, the nearest bound for a
    * number that does not fit.
    */
  function LenientInt(s: string): int {
    var body := if s != "" && (s[0] == '+' || s[0] == '-') then s[1..] else s;
    if body == "" || !AllDigits(body) then 0
    else if s[0] == '-' then (if Value(body) > MAX_INT64 + 1 then -(MAX_INT64 as int) - 1 else -(Value(body) as int))
    else if Value(body) > MAX_INT64 then MAX_INT64
    else Value(body)
  }

  function CmpPrerelease(a: string, b: string): int {
    if a == b then 0
    else if a == "" then 1
    else if b == "" then -1
    else if Before(a, '.') != Before(b, '.') then CmpText(Before(a, '.'), Before(b, '.'))
    else if LenientInt(After(a, '.')) < LenientInt(After(b, '.')) then -1
    else 1
  }

  function Segments(v: Version): seq<int> {
    [v.major, v.minor, v.patch, v.build]
  }

  function Compare(a: Version, b: Version): int {
    if Segments(a) != Segments(b) then CmpLex(Segments(a), Segments(b))
    else CmpPrerelease(a.prerelease, b.prerelease)
  }

  method CompareProductVersion(a: Version, b: Version) returns (r: int)
    ensures r == Compare(a, b)
  {
    var pairs: seq<(int, int)> := [(a.major, b.major), (a.minor, b.minor), (a.patch, b.patch), (a.build, b.build)];
    for i := 0 to |pairs|
      invariant forall k :: 0 <= k < i ==> pairs[k].0 == pairs[k].1
    {
      if pairs[i].0 != pairs[i].1 {
        FirstDifference(Segments(a), Segments(b), i) by {
          assert forall k :: 0 <= k < 4 ==> pairs[k] == (Segments(a)[k], Segments(b)[k]);
        }
        return if pairs[i].0 < pairs[i].1 then -1 else 1;
      }
    }
    assert pairs[0].0 == pairs[0].1 && pairs[1].0 == pairs[1].1 && pairs[2].0 == pairs[2].1 && pairs[3].0 == pairs[3].1;
    return CmpPrerelease(a.prerelease, b.prerelease);
  }

  // ------------------------------------------------------- lexicographic order

  function CmpLex(x: seq<int>, y: seq<int>): int
    requires |x| == |y|
  {
    if x == [] then 0
    else if x[0] != y[0] then Cmp(x[0], y[0])
    else CmpLex(x[1..], y[1..])
  }

  lemma {:induction false} FirstDifference(x: seq<int>, y: seq<int>, i: nat)
    requires |x| == |y| && i < |x| && x[i] != y[i]
    requires forall k :: 0 <= k < i ==> x[k] == y[k]
    ensures CmpLex(x, y) == Cmp(x[i], y[i])
  {
    if i > 0 {
      assert x[1..][i - 1] == x[i] && y[1..][i - 1] == y[i];
      forall k | 0 <= k < i - 1 ensures x[1..][k] == y[1..][k] {
        assert x[1..][k] == x[k + 1] && y[1..][k] == y[k + 1];
      }
      FirstDifference(x[1..], y[1..], i - 1);
    }
  }

  lemma {:induction false} LexOrder(x: seq<int>, y: seq<int>, z: seq<int>)
    requires |x| == |y| == |z|
    ensures CmpLex(x, y) == 0 <==> x == y
    ensures CmpLex(x, y) == -CmpLex(y, x)
    ensures CmpLex(x, y) <= 0 && CmpLex(y, z) <= 0 ==> CmpLex(x, z) <= 0
  {
    if x != [] {
      LexOrder(x[1..], y[1..], z[1..]);
      if x[0] == y[0] && x[1..] == y[1..] {
        assert x == [x[0]] + x[1..] && y == [y[0]] + y[1..];
      }
    }
  }

  lemma {:induction false} LexConcat(p: seq<int>, x: seq<int>, q: seq<int>, y: seq<int>)
    requires |p| == |q| && |x| == |y|
    ensures CmpLex(p + x, q + y) == if p != q then CmpLex(p, q) else CmpLex(x, y)
  {
    if p == [] {
      assert p + x == x && q + y == y;
    } else {
      LexConcat(p[1..], x, q[1..], y);
      assert (p + x)[1..] == p[1..] + x && (q + y)[1..] == q[1..] + y;
      assert p == [p[0]] + p[1..] && q == [q[0]] + q[1..];
    }
  }

  lemma LexPair(x0: int, x1: int, y0: int, y1: int)
    ensures CmpLex([x0, x1], [y0, y1]) == if x0 != y0 then Cmp(x0, y0) else Cmp(x1, y1)
  {
    assert [x0, x1][1..] == [x1] && [y0, y1][1..] == [y1];
    assert [x1][1..] == [] && [y1][1..] == [];
    assert CmpLex([x1], [y1]) == Cmp(x1, y1);
  }

  // ------------------------------------------------- the order, by numeric key

  /** beta before rc before the release itself. */
  function StageRank(pre: string): int {
    if pre == "" then 2 else if Before(pre, '.') == "beta" then 0 else 1
  }

  function StageNumber(pre: string): nat {
    if SegmentOf(After(pre, '.')).Success? then SegmentOf(After(pre, '.')).value else 0
  }

  function Key(v: Version): (k: seq<int>)
    ensures |k| == 6
  {
    Segments(v) + [StageRank(v.prerelease), StageNumber(v.prerelease)]
  }

  lemma LenientNumber(s: string)
    requires SegmentOf(s).Success?
    ensures LenientInt(s) == SegmentOf(s).value
  {
    assert IsDigit(s[0]);
  }

  lemma PrereleaseFromKey(a: string, b: string)
    requires a != "" ==> IsPrerelease(a)
    requires b != "" ==> IsPrerelease(b)
    requires StageRank(a) == StageRank(b) && StageNumber(a) == StageNumber(b)
    ensures a == b
  {
    if a != "" && b != "" {
      CutRejoins(a, '.');
      CutRejoins(b, '.');
      CanonicalDecimal(After(a, '.'));
      CanonicalDecimal(After(b, '.'));
    }
  }

  lemma BetaBelowRc()
    ensures CmpText("beta", "rc") == -1 && CmpText("rc", "beta") == 1
  {
  }

  lemma PrereleaseByKey(a: string, b: string)
    requires a != "" ==> IsPrerelease(a)
    requires b != "" ==> IsPrerelease(b)
    ensures CmpPrerelease(a, b) == CmpLex([StageRank(a), StageNumber(a)], [StageRank(b), StageNumber(b)])
  {
    LexPair(StageRank(a), StageNumber(a), StageRank(b), StageNumber(b));
    BetaBelowRc();
    if StageRank(a) == StageRank(b) && StageNumber(a) == StageNumber(b) {
      PrereleaseFromKey(a, b);
    } else if a != "" && b != "" {
      LenientNumber(After(a, '.'));
      LenientNumber(After(b, '.'));
    }
  }

  /** On well-formed versions the comparison is lexicographic order of the key. */
  lemma CompareByKey(a: Version, b: Version)
    requires WellFormed(a) && WellFormed(b)
    ensures Compare(a, b) == CmpLex(Key(a), Key(b))
    ensures Key(a) == Key(b) ==> a == b
  {
    var x, y := [StageRank(a.prerelease), StageNumber(a.prerelease) as int],
                [StageRank(b.prerelease), StageNumber(b.prerelease) as int];
    LexConcat(Segments(a), x, Segments(b), y);
    PrereleaseByKey(a.prerelease, b.prerelease);
    if Key(a) == Key(b) {
      assert Key(a)[..4] == Segments(a) && Key(b)[..4] == Segments(b);
      assert Segments(a)[0] == Segments(b)[0] && Segments(a)[1] == Segments(b)[1];
      assert Segments(a)[2] == Segments(b)[2] && Segments(a)[3] == Segments(b)[3];
      assert Key(a)[4] == Key(b)[4] && Key(a)[5] == Key(b)[5];
      PrereleaseFromKey(a.prerelease, b.prerelease);
    }
  }

  /** A total order on well-formed versions, zero only on equality. */
  lemma CompareIsTotalOrder(a: Version, b: Version, c: Version)
    requires WellFormed(a) && WellFormed(b) && WellFormed(c)
    ensures Compare(a, b) == 0 <==> a == b
    ensures Compare(a, b) == -Compare(b, a)
    ensures -1 <= Compare(a, b) <= 1
    ensures Compare(a, b) <= 0 && Compare(b, c) <= 0 ==> Compare(a, c) <= 0
    ensures Compare(a, b) < 0 && Compare(b, c) <= 0 ==> Compare(a, c) < 0
    ensures Compare(a, b) <= 0 && Compare(b, c) < 0 ==> Compare(a, c) < 0
  {
    CompareByKey(a, b);
    CompareByKey(b, a);
    CompareByKey(b, c);
    CompareByKey(c, b);
    CompareByKey(a, c);
    CompareByKey(c, a);
    LexOrder(Key(a), Key(b), Key(c));
    LexOrder(Key(c), Key(a), Key(b));
    LexOrder(Key(b), Key(c), Key(a));
    LexBounded(Key(a), Key(b));
  }

  lemma {:induction false} LexBounded(x: seq<int>, y: seq<int>)
    requires |x| == |y|
    ensures -1 <= CmpLex(x, y) <= 1
  {
    if x != [] {
      LexBounded(x[1..], y[1..]);
    }
  }

  lemma {:induction false} TextIsAntisymmetric(s: string, t: string)
    ensures CmpText(s, t) == -CmpText(t, s)
  {
    if s != "" && t != "" && s[0] == t[0] {
      TextIsAntisymmetric(s[1..], t[1..]);
      assert s == [s[0]] + s[1..] && t == [t[0]] + t[1..];
    }
  }

  /**
    * On any two versions, whatever their text: the comparison turned round changes
    * sign, except exactly on two different spellings of one stage and counter.
    */
  lemma NotAntisymmetricExactly(a: Version, b: Version)
    ensures Compare(a, b) != -Compare(b, a) <==>
              && Segments(a) == Segments(b) && a.prerelease != b.prerelease && a.prerelease != "" && b.prerelease != ""
              && Before(a.prerelease, '.') == Before(b.prerelease, '.')
              && LenientInt(After(a.prerelease, '.')) == LenientInt(After(b.prerelease, '.'))
  {
    hide LenientInt, Before, After;
    if Segments(a) != Segments(b) {
      LexOrder(Segments(a), Segments(b), Segments(a));
    } else {
      TextIsAntisymmetric(Before(a.prerelease, '.'), Before(b.prerelease, '.'));
    }
  }

  /**
    * Well-formedness is needed: two spellings of one counter that no parser
    * produces each compare above the other.
    */
  lemma IllFormedCountersAreNotOrdered()
    ensures var a, b := Version(1, 0, 0, 0, "rc." + "1"), Version(1, 0, 0, 0, "rc." + "01");
            Compare(a, b) == 1 && Compare(b, a) == 1 && WellFormed(a) && !WellFormed(b)
  {
    RcParts("1");
    RcParts("01");
    assert "1"[..0] == "" && Value("1") == 1;
    assert "01"[..1] == "0" && "0"[..0] == "" && Value("0") == 0 && Value("01") == 1;
  }

  lemma RcParts(number: string)
    ensures '.' in "rc." + number && Before("rc." + number, '.') == "rc" && After("rc." + number, '.') == number
  {
    assert "rc" + ['.'] + number == "rc." + number;
    CutJoined("rc", '.', number);
    assert ("rc." + number)[2] == '.';
  }

  // ---------------------------------------------------------- semantic versions

  /** Precedence of two pre-release identifiers: numbers by value and below text, text by bytes. */
  function CmpIdentifier(x: string, y: string): int {
    var nx, ny := x != "" && AllDigits(x), y != "" && AllDigits(y);
    if nx && ny then Cmp(Value(x), Value(y))
    else if nx then -1
    else if ny then 1
    else CmpText(x, y)
  }

  /** Precedence of two identifier lists: field by field, and the longer above its own prefix. */
  function CmpIdentifiers(x: seq<string>, y: seq<string>): int {
    if x == [] && y == [] then 0
    else if x == [] then -1
    else if y == [] then 1
    else if CmpIdentifier(x[0], y[0]) != 0 then CmpIdentifier(x[0], y[0])
    else CmpIdentifiers(x[1..], y[1..])
  }

  /** Section 11 of Semantic Versioning 2.0.0. */
  function SemVerPrecedence(a: Version, b: Version): int {
    if a.major != b.major then Cmp(a.major, b.major)
    else if a.minor != b.minor then Cmp(a.minor, b.minor)
    else if a.patch != b.patch then Cmp(a.patch, b.patch)
    else if a.prerelease == "" && b.prerelease == "" then 0
    else if a.prerelease == "" then 1
    else if b.prerelease == "" then -1
    else CmpIdentifiers(Split(a.prerelease, '.'), Split(b.prerelease, '.'))
  }

  lemma PrereleaseIdentifiers(pre: string)
    requires IsPrerelease(pre)
    ensures Split(pre, '.') == [Before(pre, '.'), After(pre, '.')]
  {
    NotADigit(After(pre, '.'), '.');
    assert Split(After(pre, '.'), '.') == [After(pre, '.')];
  }

  lemma IdentifierPair(x0: string, x1: string, y0: string, y1: string)
    ensures CmpIdentifiers([x0, x1], [y0, y1])
            == if CmpIdentifier(x0, y0) != 0 then CmpIdentifier(x0, y0) else CmpIdentifier(x1, y1)
  {
    assert [x0, x1][1..] == [x1] && [y0, y1][1..] == [y1];
    assert [x1][1..] == [] && [y1][1..] == [];
    assert CmpIdentifiers([], []) == 0;
  }

  lemma PrereleaseBySemVer(a: string, b: string)
    requires IsPrerelease(a) && IsPrerelease(b)
    ensures CmpPrerelease(a, b) == CmpIdentifiers(Split(a, '.'), Split(b, '.'))
  {
    PrereleaseIdentifiers(a);
    PrereleaseIdentifiers(b);
    IdentifierPair(Before(a, '.'), After(a, '.'), Before(b, '.'), After(b, '.'));
    LenientNumber(After(a, '.'));
    LenientNumber(After(b, '.'));
    assert !AllDigits("beta") && !AllDigits("rc") by {
      assert "beta"[0] == 'b' && "rc"[0] == 'r';
    }
    BetaBelowRc();
    assert CmpText("beta", "beta") == 0 && CmpText("rc", "rc") == 0;
    if a != b && Before(a, '.') == Before(b, '.') {
      PrereleaseFromKeyDiffers(a, b);
    }
  }

  lemma PrereleaseFromKeyDiffers(a: string, b: string)
    requires IsPrerelease(a) && IsPrerelease(b) && a != b && Before(a, '.') == Before(b, '.')
    ensures Value(After(a, '.')) != Value(After(b, '.'))
  {
    if Value(After(a, '.')) == Value(After(b, '.')) {
      PrereleaseFromKey(a, b);
    }
  }

  /** On three-segment versions the comparison is semantic-version precedence. */
  lemma CompareIsSemVerPrecedence(a: Version, b: Version)
    requires WellFormed(a) && WellFormed(b) && a.build == 0 && b.build == 0
    ensures Compare(a, b) == SemVerPrecedence(a, b)
  {
    var x, y := Segments(a), Segments(b);
    if a.major != b.major {
      FirstDifference(x, y, 0);
    } else if a.minor != b.minor {
      FirstDifference(x, y, 1);
    } else if a.patch != b.patch {
      FirstDifference(x, y, 2);
    }
    if a.prerelease != "" && b.prerelease != "" {
      PrereleaseBySemVer(a.prerelease, b.prerelease);
    }
  }

  // --------------------------------------------------------------- newer releases

  /** Strictly newer, both read as release versions; text that does not parse is never newer. */
  predicate Newer(version: string, current: string) {
    Parse(version).Success? && Parse(current).Success? && Compare(Parse(version).value, Parse(current).value) > 0
  }

  method ProductVersionNewer(version: string, current: string) returns (newer: bool)
    ensures newer == Newer(version, current)
  {
    var a := ParseProductVersion(version);
    if a.Failure? {
      return false;
    }
    var b := ParseProductVersion(current);
    if b.Failure? {
      return false;
    }
    var c := CompareProductVersion(a.value, b.value);
    return c > 0;
  }

  lemma ParsedIsWellFormed(s: string)
    requires Parse(s).Success?
    ensures WellFormed(Parse(s).value)
  {
    ParsesExactlySpellings(s, Parse(s).value);
  }

  lemma AboveIsTransitive(x: Version, y: Version, z: Version)
    requires WellFormed(x) && WellFormed(y) && WellFormed(z)
    requires Compare(x, y) > 0 && Compare(y, z) > 0
    ensures Compare(x, z) > 0
  {
    CompareIsTotalOrder(z, y, x);
    CompareIsTotalOrder(x, z, y);
    CompareIsTotalOrder(x, y, z);
  }

  /** Newer is a strict order: transitive, and never a version over itself. */
  lemma NewerIsTransitive(a: string, b: string, c: string)
    requires Newer(a, b) && Newer(b, c)
    ensures Newer(a, c)
  {
    ParsedIsWellFormed(a);
    ParsedIsWellFormed(b);
    ParsedIsWellFormed(c);
    AboveIsTransitive(Parse(a).value, Parse(b).value, Parse(c).value);
  }

  lemma NewerIsIrreflexive(a: string)
    ensures !Newer(a, a)
  {
    if Parse(a).Success? {
      ParsedIsWellFormed(a);
      CompareIsTotalOrder(Parse(a).value, Parse(a).value, Parse(a).value);
    }
  }
}
