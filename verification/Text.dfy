/** Splitting and joining text on one separator, and decimal numerals. */
module Text {

  // ---------------------------------------------------------------- cutting

  /** The first position of c in s, or |s| when there is none. */
  function IndexOf(s: string, c: char): (i: nat)
    ensures i <= |s|
    ensures i < |s| ==> s[i] == c
    ensures c !in s[..i]
  {
    if s == "" || s[0] == c then 0 else
      var i := 1 + IndexOf(s[1..], c);
      assert s[..i] == [s[0]] + s[1..][..i - 1];
      i
  }

  /** What comes before the first c in s: all of s when there is none. */
  function Before(s: string, c: char): (r: string)
    ensures c !in r
  {
    s[..IndexOf(s, c)]
  }

  /** What comes after the first c in s: nothing when there is none. */
  function After(s: string, c: char): string {
    var i := IndexOf(s, c);
    if i < |s| then s[i + 1..] else ""
  }

  /** Cutting undoes joining on a separator the head does not contain. */
  lemma CutJoined(head: string, c: char, tail: string)
    requires c !in head
    ensures IndexOf(head + [c] + tail, c) == |head|
    ensures Before(head + [c] + tail, c) == head
    ensures After(head + [c] + tail, c) == tail
  {
    var s := head + [c] + tail;
    var i := IndexOf(s, c);
    assert s[|head|] == c;
    assert forall k :: 0 <= k < |head| ==> s[k] == head[k];
    assert forall k :: 0 <= k < i ==> s[k] == s[..i][k] != c;
  }

  lemma CutAbsent(s: string, c: char)
    requires c !in s
    ensures IndexOf(s, c) == |s| && Before(s, c) == s && After(s, c) == ""
  {
  }

  lemma CutRejoins(s: string, c: char)
    requires c in s
    ensures s == Before(s, c) + [c] + After(s, c)
  {
    var i := IndexOf(s, c);
    assert s == s[..i] + s[i..];
  }

  /** A common head does not change what is a prefix of what. */
  lemma PrefixAfterCommon(c: string, x: string, y: string)
    ensures c + x <= c + y <==> x <= y
  {
    if c + x <= c + y {
      assert (c + x)[|c|..] == x && (c + y)[|c|..] == y;
      assert (c + x) == (c + y)[..|c| + |x|];
      assert x == y[..|x|];
    }
    if x <= y {
      assert (c + y)[..|c| + |x|] == c + y[..|x|];
    }
  }

  // -------------------------------------------------------------- splitting

  /** The pieces of s between separators; one piece when there is none. */
  function Split(s: string, c: char): (parts: seq<string>)
    ensures |parts| >= 1
    decreases |s|
  {
    if c !in s then [s] else [Before(s, c)] + Split(After(s, c), c)
  }

  function Join(parts: seq<string>, c: char): string
    requires |parts| >= 1
  {
    if |parts| == 1 then parts[0] else parts[0] + [c] + Join(parts[1..], c)
  }

  lemma {:induction false} SplitJoins(s: string, c: char)
    ensures Join(Split(s, c), c) == s
    ensures forall p :: p in Split(s, c) ==> c !in p
    decreases |s|
  {
    if c in s {
      CutRejoins(s, c);
      SplitJoins(After(s, c), c);
      assert Split(s, c)[1..] == Split(After(s, c), c);
    }
  }

  lemma {:induction false} JoinSplits(parts: seq<string>, c: char)
    requires |parts| >= 1
    requires forall p :: p in parts ==> c !in p
    ensures Split(Join(parts, c), c) == parts
  {
    if |parts| > 1 {
      var rest := Join(parts[1..], c);
      CutJoined(parts[0], c, rest);
      JoinSplits(parts[1..], c);
      var s := parts[0] + [c] + rest;
      assert s[|parts[0]|] == c;
      assert parts == [parts[0]] + parts[1..];
    }
  }

  // --------------------------------------------------------------- numerals

  predicate IsDigit(c: char) {
    '0' <= c <= '9'
  }

  predicate AllDigits(s: string) {
    forall i :: 0 <= i < |s| ==> IsDigit(s[i])
  }

  /** Digits with no leading zero: the one spelling of each number. */
  predicate Canonical(s: string) {
    |s| > 0 && AllDigits(s) && (|s| > 1 ==> s[0] != '0')
  }

  function DigitValue(c: char): (d: nat)
    requires IsDigit(c)
    ensures d < 10
  {
    (c as int) - ('0' as int)
  }

  function DigitOf(d: nat): (c: char)
    requires d < 10
    ensures IsDigit(c) && DigitValue(c) == d
    ensures c == '0' <==> d == 0
  {
    (d + '0' as int) as char
  }

  function Value(s: string): nat
    requires AllDigits(s)
  {
    if s == "" then 0 else 10 * Value(s[..|s| - 1]) + DigitValue(s[|s| - 1])
  }

  function Decimal(n: nat): (s: string)
    ensures |s| > 0 && AllDigits(s)
  {
    if n < 10 then [DigitOf(n)] else Decimal(n / 10) + [DigitOf(n % 10)]
  }

  lemma {:induction false} DecimalCanonical(n: nat)
    ensures Canonical(Decimal(n))
    ensures Decimal(n)[0] == '0' <==> n == 0
    ensures Value(Decimal(n)) == n
  {
    var s := Decimal(n);
    if n >= 10 {
      DecimalCanonical(n / 10);
      assert s[..|s| - 1] == Decimal(n / 10);
    }
  }

  lemma {:induction false} CanonicalDecimal(s: string)
    requires Canonical(s)
    ensures Decimal(Value(s)) == s
    ensures Value(s) == 0 <==> s == "0"
  {
    var n, init := Value(s), s[..|s| - 1];
    if |s| == 1 {
      assert init == "" && Value(init) == 0;
      assert s == [DigitOf(DigitValue(s[0]))];
    } else {
      CanonicalDecimal(init);
      assert init[0] == s[0] != '0';
      assert n / 10 == Value(init) && n % 10 == DigitValue(s[|s| - 1]);
      assert s == init + [s[|s| - 1]];
    }
  }

  lemma DecimalInjective(m: nat, n: nat)
    requires Decimal(m) == Decimal(n)
    ensures m == n
  {
    DecimalCanonical(m);
    DecimalCanonical(n);
  }

  /** A longer numeral is never a smaller number. */
  lemma {:induction false} ValueOfPrefix(s: string, i: nat)
    requires AllDigits(s) && i <= |s|
    ensures AllDigits(s[..i]) && Value(s[..i]) <= Value(s)
    decreases |s| - i
  {
    if i == |s| {
      assert s[..i] == s;
    } else {
      ValueOfPrefix(s, i + 1);
      assert s[..i + 1][..i] == s[..i];
    }
  }

  lemma NotADigit(s: string, c: char)
    requires AllDigits(s) && !IsDigit(c)
    ensures c !in s
  {
  }

  /**
    * A numeral followed by a separator is a prefix of a numeral followed by
    * other text exactly when the numerals agree and the text starts with that
    * separator.
    */
  lemma NumeralPrefix(a: string, rest: string, b: string, d: char)
    requires AllDigits(a) && AllDigits(b) && !IsDigit(d)
    requires rest != "" ==> !IsDigit(rest[0])
    ensures b + [d] <= a + rest <==> a == b && rest != "" && rest[0] == d
  {
    var s, t := a + rest, b + [d];
    if t <= s {
      assert s[|b|] == t[|b|] == d;
      assert forall k :: 0 <= k < |a| ==> s[k] == a[k];
      assert forall k :: 0 <= k < |b| ==> s[k] == t[k] == b[k];
      assert forall k :: |a| <= k < |s| ==> s[k] == rest[k - |a|];
      assert a == s[..|a|] && b == t[..|b|] && s[..|a|] == t[..|a|];
    }
  }
}
