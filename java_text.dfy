/**
 * The few `java.lang.String` operations the form controllers rely on: `trim`,
 * `equalsIgnoreCase` (for Latin letters), and the ASCII digit class `\d` of `java.util.regex`.
 */
module JavaText {

  /** `String.trim` removes every leading and trailing character whose code is at most U+0020. */
  predicate IsTrimmable(c: char) {
    c <= ' '
  }

  predicate IsAsciiDigit(c: char) {
    '0' <= c <= '9'
  }

  /** Drops the leading trimmable characters. */
  function TrimStart(s: string): string {
    if s != [] && IsTrimmable(s[0]) then TrimStart(s[1..]) else s
  }

  /** Drops the trailing trimmable characters. */
  function TrimEnd(s: string): string {
    if s != [] && IsTrimmable(s[|s| - 1]) then TrimEnd(s[..|s| - 1]) else s
  }

  /** `String.trim`: the longest infix that neither starts nor ends with a trimmable character. */
  function Trim(s: string): string {
    TrimEnd(TrimStart(s))
  }

  /** `TrimStart` keeps a suffix, and everything it drops is trimmable. */
  lemma {:induction false} TrimStartIsSuffix(s: string)
    ensures |TrimStart(s)| <= |s| && TrimStart(s) == s[|s| - |TrimStart(s)|..]
    ensures TrimStart(s) == [] || !IsTrimmable(TrimStart(s)[0])
    ensures forall i :: 0 <= i < |s| - |TrimStart(s)| ==> IsTrimmable(s[i])
  {
    if s != [] && IsTrimmable(s[0]) {
      TrimStartIsSuffix(s[1..]);
      forall i | 0 <= i < |s| - |TrimStart(s)|
        ensures IsTrimmable(s[i])
      {
        if i > 0 {
          assert s[i] == s[1..][i - 1];
        }
      }
    }
  }

  /** `TrimEnd` keeps a prefix, and everything it drops is trimmable. */
  lemma {:induction false} TrimEndIsPrefix(s: string)
    ensures |TrimEnd(s)| <= |s| && TrimEnd(s) == s[..|TrimEnd(s)|]
    ensures TrimEnd(s) == [] || !IsTrimmable(TrimEnd(s)[|TrimEnd(s)| - 1])
    ensures forall i :: |TrimEnd(s)| <= i < |s| ==> IsTrimmable(s[i])
  {
    if s != [] && IsTrimmable(s[|s| - 1]) {
      TrimEndIsPrefix(s[..|s| - 1]);
      forall i | |TrimEnd(s)| <= i < |s|
        ensures IsTrimmable(s[i])
      {
        if i < |s| - 1 {
          assert s[i] == s[..|s| - 1][i];
        }
      }
    }
  }

  /**
   * `trim` keeps the infix `s[a..b]` that is left once every trimmable character is
   * dropped from both ends, and nothing it keeps starts or ends with one.
   */
  lemma TrimIsInfix(s: string)
    ensures exists a, b ::
              && 0 <= a <= b <= |s| && Trim(s) == s[a..b]
              && (forall i :: 0 <= i < a ==> IsTrimmable(s[i]))
              && (forall i :: b <= i < |s| ==> IsTrimmable(s[i]))
    ensures Trim(s) == [] || (!IsTrimmable(Trim(s)[0]) && !IsTrimmable(Trim(s)[|Trim(s)| - 1]))
  {
    var t := TrimStart(s);
    TrimStartIsSuffix(s);
    TrimEndIsPrefix(t);
    var r := TrimEnd(t);
    var a := |s| - |t|;
    assert r == s[a..a + |r|];
    forall i | a + |r| <= i < |s|
      ensures IsTrimmable(s[i])
    {
      assert s[i] == t[i - a];
    }
  }

  /**
   * Case folding of one character, for the letters of Basic Latin and Latin-1 Supplement:
   * 'A'..'Z' and U+00C0..U+00DE (except U+00D7, the multiplication sign) map to their
   * lower-case letters, 32 code points on; every other character is left as it is.
   */
  function FoldCase(c: char): char {
    if 'A' <= c <= 'Z' || ('\U{00C0}' <= c <= '\U{00DE}' && c != '\U{00D7}') then (c as int + 32) as char else c
  }

  /** Case folding of a whole string. */
  function FoldCaseString(s: string): string {
    if s == [] then [] else FoldCaseString(s[..|s| - 1]) + [FoldCase(s[|s| - 1])]
  }

  /** `String.equalsIgnoreCase`: the two strings fold to the same string. */
  predicate EqualsIgnoreCase(a: string, b: string) {
    FoldCaseString(a) == FoldCaseString(b)
  }

  /** Folding a string folds each character in place. */
  lemma {:induction false} FoldIsCharwise(s: string)
    ensures |FoldCaseString(s)| == |s|
    ensures forall i :: 0 <= i < |s| ==> FoldCaseString(s)[i] == FoldCase(s[i])
  {
    if s != [] {
      FoldIsCharwise(s[..|s| - 1]);
    }
  }

  /** `equalsIgnoreCase` holds iff the lengths agree and each pair of characters folds to the same character. */
  lemma EqualsIgnoreCaseIsCharwise(a: string, b: string)
    ensures EqualsIgnoreCase(a, b) <==> |a| == |b| && forall i :: 0 <= i < |a| ==> FoldCase(a[i]) == FoldCase(b[i])
  {
    FoldIsCharwise(a);
    FoldIsCharwise(b);
    if |a| == |b| && forall i :: 0 <= i < |a| ==> FoldCase(a[i]) == FoldCase(b[i]) {
      assert FoldCaseString(a) == FoldCaseString(b);
    }
  }

  lemma EqualsIgnoreCaseIsEquivalence(a: string, b: string, c: string)
    ensures EqualsIgnoreCase(a, a)
    ensures EqualsIgnoreCase(a, b) ==> EqualsIgnoreCase(b, a)
    ensures EqualsIgnoreCase(a, b) && EqualsIgnoreCase(b, c) ==> EqualsIgnoreCase(a, c)
  {
  }

  /** Folding never changes the length, so strings of different lengths never match. */
  lemma EqualsIgnoreCaseNeedsEqualLength(a: string, b: string)
    requires |a| != |b|
    ensures !EqualsIgnoreCase(a, b)
  {
    FoldIsCharwise(a);
    FoldIsCharwise(b);
  }

  /** Letters with diacritics fold too; a different letter never matches. */
  lemma EqualsIgnoreCaseExamples()
    ensures EqualsIgnoreCase("\U{00C9}mile", "\U{00E9}mile")
    ensures EqualsIgnoreCase("YES", "yes")
    ensures !EqualsIgnoreCase("Yes", "Yet")
    ensures !EqualsIgnoreCase("\U{00D7}", "\U{00F7}")
  {
    EqualsIgnoreCaseIsCharwise("\U{00C9}mile", "\U{00E9}mile");
    EqualsIgnoreCaseIsCharwise("YES", "yes");
    EqualsIgnoreCaseIsCharwise("Yes", "Yet");
    assert FoldCase("Yes"[2]) != FoldCase("Yet"[2]);
    EqualsIgnoreCaseIsCharwise("\U{00D7}", "\U{00F7}");
    assert FoldCase("\U{00D7}"[0]) != FoldCase("\U{00F7}"[0]);
  }
}
