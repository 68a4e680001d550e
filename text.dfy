/** The handful of Python `str` operations the core relies on, written out over `seq<char>`. */
module Text {
  import opened Wrappers

  /** Python's `str.isspace()`, which is also what the regex class `\s` matches in a `str` pattern. */
  predicate IsSpace(c: char) {
    ('\t' <= c <= '\r') || ('\U{1c}' <= c <= '\U{1f}') || c == ' ' || c == '\U{85}' || c == '\U{a0}'
    || c == '\U{1680}' || ('\U{2000}' <= c <= '\U{200a}') || c == '\U{2028}' || c == '\U{2029}'
    || c == '\U{202f}' || c == '\U{205f}' || c == '\U{3000}'
  }

  predicate AllSpace(s: string) {
    forall i :: 0 <= i < |s| ==> IsSpace(s[i])
  }

  predicate IsUpper(c: char) { 'A' <= c <= 'Z' }
  predicate IsLowerCase(c: char) { 'a' <= c <= 'z' }
  predicate IsDigit(c: char) { '0' <= c <= '9' }

  function LowerChar(c: char): char {
    if IsUpper(c) then (c as int + 32) as char else c
  }

  function UpperChar(c: char): char {
    if IsLowerCase(c) then (c as int - 32) as char else c
  }

  /** `s.lower()` (ASCII letters only). */
  function Lower(s: string): string {
    seq(|s|, i requires 0 <= i < |s| => LowerChar(s[i]))
  }

  function StripLeft(s: string): string {
    if |s| > 0 && IsSpace(s[0]) then StripLeft(s[1..]) else s
  }

  function StripRight(s: string): string {
    if |s| > 0 && IsSpace(s[|s| - 1]) then StripRight(s[..|s| - 1]) else s
  }

  /** `s.strip()`. */
  function Strip(s: string): string {
    StripRight(StripLeft(s))
  }

  predicate IsPrefix(p: string, s: string) {
    |p| <= |s| && s[..|p|] == p
  }

  /** `sub in s`. */
  predicate Contains(s: string, sub: string)
    decreases |s|
  {
    IsPrefix(sub, s) || (|s| > 0 && Contains(s[1..], sub))
  }

  /** `s.find(sub)`, as an option. */
  function IndexOf(s: string, sub: string): Option<nat>
    decreases |s|
  {
    if IsPrefix(sub, s) then Some(0)
    else if |s| == 0 then None
    else match IndexOf(s[1..], sub)
      case Some(i) => Some(i + 1)
      case None => None
  }

  /** `s[:n]`. */
  function Take(s: string, n: nat): string {
    if n <= |s| then s[..n] else s
  }

  /** `s.split(c)[0]`: everything before the first `c`. */
  function BeforeChar(s: string, c: char): string
    decreases |s|
  {
    if |s| == 0 || s[0] == c then "" else [s[0]] + BeforeChar(s[1..], c)
  }

  /** `s.split(c, 1)[1]` when `c in s`: everything after the first `c`. */
  function AfterChar(s: string, c: char): string
    requires c in s
    decreases |s|
  {
    if s[0] == c then s[1..] else AfterChar(s[1..], c)
  }

  /** `s.split(c)` for a one-character separator. */
  function SplitOn(s: string, c: char): (parts: seq<string>)
    ensures |parts| >= 1
    decreases |s|
  {
    if |s| == 0 then [""]
    else
      var rest := SplitOn(s[1..], c);
      if s[0] == c then [""] + rest else [[s[0]] + rest[0]] + rest[1..]
  }

  /** `sep.join(parts)`. */
  function Join(parts: seq<string>, sep: string): string {
    if |parts| == 0 then ""
    else if |parts| == 1 then parts[0]
    else parts[0] + sep + Join(parts[1..], sep)
  }

  /** `s.replace(pattern, replacement)`: every non-overlapping occurrence, scanning left to right. */
  function ReplaceAll(s: string, pattern: string, replacement: string): string
    requires pattern != ""
    decreases |s|
  {
    if |s| == 0 then ""
    else if IsPrefix(pattern, s) then replacement + ReplaceAll(s[|pattern|..], pattern, replacement)
    else [s[0]] + ReplaceAll(s[1..], pattern, replacement)
  }

  /** `''.join(filter(str.isdigit, s))`. */
  function DigitsOf(s: string): (d: string)
    ensures AllDigits(d)
    decreases |s|
  {
    if |s| == 0 then "" else (if IsDigit(s[0]) then [s[0]] else "") + DigitsOf(s[1..])
  }

  predicate AllDigits(s: string) {
    forall i :: 0 <= i < |s| ==> IsDigit(s[i])
  }

  /** `int(s)` for a string of decimal digits. */
  function DigitsValue(s: string): nat
    requires AllDigits(s)
  {
    if |s| == 0 then 0 else 10 * DigitsValue(s[..|s| - 1]) + (s[|s| - 1] as int - '0' as int)
  }

  /** `str(n)` for a natural number. */
  function NatToString(n: nat): string
    decreases n
  {
    if n < 10 then [('0' as int + n) as char]
    else NatToString(n / 10) + [('0' as int + n % 10) as char]
  }

  /** `str(i)` for an integer. */
  function IntToString(i: int): string {
    if i < 0 then "-" + NatToString(-i) else NatToString(i)
  }

  /** `s.title()`: a letter is upper-cased when the character before it is not a letter,
      lower-cased otherwise (ASCII letters only). */
  function TitleCase(s: string): string {
    TitleCaseAfter(s, false)
  }

  function TitleCaseAfter(s: string, prevCased: bool): string
    decreases |s|
  {
    if |s| == 0 then ""
    else
      var c := s[0];
      var cased := IsUpper(c) || IsLowerCase(c);
      [if !cased then c else if prevCased then LowerChar(c) else UpperChar(c)]
      + TitleCaseAfter(s[1..], cased)
  }

  // ---------------------------------------------------------------------------------------
  // Facts about the operations above.

  /** Splitting on a character and joining with it gives the string back. */
  lemma {:induction false} JoinSplitOn(s: string, c: char)
    ensures Join(SplitOn(s, c), [c]) == s
    decreases |s|
  {
    if |s| > 0 {
      var rest := SplitOn(s[1..], c);
      JoinSplitOn(s[1..], c);
      if s[0] == c {
        assert SplitOn(s, c) == [""] + rest;
        assert s == [c] + s[1..];
      } else {
        var parts := SplitOn(s, c);
        assert parts == [[s[0]] + rest[0]] + rest[1..];
        if |rest| == 1 {
          assert s == [s[0]] + rest[0];
        } else {
          assert parts[1..] == rest[1..];
          assert Join(rest, [c]) == rest[0] + [c] + Join(rest[1..], [c]);
          assert s == [s[0]] + s[1..];
        }
      }
    }
  }

  /** No piece of `s.split(c)` contains `c`. */
  lemma {:induction false} SplitOnPiecesFree(s: string, c: char)
    ensures forall k :: 0 <= k < |SplitOn(s, c)| ==> c !in SplitOn(s, c)[k]
    decreases |s|
  {
    if |s| > 0 {
      SplitOnPiecesFree(s[1..], c);
      var rest := SplitOn(s[1..], c);
      if s[0] != c {
        assert c !in rest[0];
        assert c !in [s[0]] + rest[0];
      }
    }
  }

  /** `sub in s` holds as soon as `sub` occurs at some position of `s`. */
  lemma {:induction false} ContainsAt(s: string, sub: string, i: nat)
    requires i + |sub| <= |s| && s[i..i + |sub|] == sub
    ensures Contains(s, sub)
    decreases i
  {
    if i > 0 {
      assert s[1..][i - 1..i - 1 + |sub|] == s[i..i + |sub|];
      ContainsAt(s[1..], sub, i - 1);
    }
  }

  /** When `sub in s`, every character of `sub` is a character of `s`. */
  lemma {:induction false} ContainsChars(s: string, sub: string)
    requires Contains(s, sub)
    ensures forall c :: c in sub ==> c in s
    decreases |s|
  {
    if IsPrefix(sub, s) {
      forall c | c in sub ensures c in s {
        var k :| 0 <= k < |sub| && sub[k] == c;
        assert s[k] == c;
      }
    } else {
      ContainsChars(s[1..], sub);
      forall c | c in sub ensures c in s {
        assert c in s[1..];
        var k :| 0 <= k < |s[1..]| && s[1..][k] == c;
        assert s[k + 1] == c;
      }
    }
  }

  /** `s.find(sub)` finds something exactly when `sub in s`, and the occurrence it finds is one. */
  lemma {:induction false} IndexOfContains(s: string, sub: string)
    ensures IndexOf(s, sub).Some? <==> Contains(s, sub)
    ensures IndexOf(s, sub).Some? ==>
      IndexOf(s, sub).value + |sub| <= |s| && s[IndexOf(s, sub).value..IndexOf(s, sub).value + |sub|] == sub
    decreases |s|
  {
    if !IsPrefix(sub, s) && |s| > 0 {
      IndexOfContains(s[1..], sub);
      if IndexOf(s[1..], sub).Some? {
        var i := IndexOf(s[1..], sub).value;
        assert s[1..][i..i + |sub|] == s[i + 1..i + 1 + |sub|];
      }
    }
  }

  /** `s.lower()` keeps the length and lowers every letter in place. */
  lemma LowerAt(s: string, i: nat)
    requires i < |s|
    ensures |Lower(s)| == |s| && Lower(s)[i] == LowerChar(s[i])
  {
  }

  /** Stripping leaves no white space at either end. */
  lemma {:induction false} StripEnds(s: string)
    ensures var t := Strip(s); |t| == 0 || (!IsSpace(t[0]) && !IsSpace(t[|t| - 1]))
  {
    StripLeftFacts(s);
    StripRightFacts(StripLeft(s));
  }

  lemma {:induction false} StripLeftFacts(s: string)
    ensures |StripLeft(s)| <= |s|
    ensures |StripLeft(s)| > 0 ==> !IsSpace(StripLeft(s)[0])
    ensures StripLeft(s) == s[|s| - |StripLeft(s)|..]
    decreases |s|
  {
    if |s| > 0 && IsSpace(s[0]) {
      StripLeftFacts(s[1..]);
    }
  }

  lemma {:induction false} StripRightFacts(s: string)
    ensures |StripRight(s)| <= |s|
    ensures StripRight(s) == s[..|StripRight(s)|]
    ensures |StripRight(s)| > 0 ==> !IsSpace(StripRight(s)[|StripRight(s)| - 1])
    ensures |s| > 0 && !IsSpace(s[0]) ==> |StripRight(s)| > 0 && StripRight(s)[0] == s[0]
    decreases |s|
  {
    if |s| > 0 && IsSpace(s[|s| - 1]) {
      StripRightFacts(s[..|s| - 1]);
    }
  }

  /** The text before the first `c` contains no `c`, and cutting it again changes nothing. */
  lemma {:induction false} BeforeCharIdempotent(s: string, c: char)
    ensures c !in BeforeChar(s, c)
    ensures BeforeChar(BeforeChar(s, c), c) == BeforeChar(s, c)
    decreases |s|
  {
    if |s| > 0 && s[0] != c {
      BeforeCharIdempotent(s[1..], c);
      var t := BeforeChar(s[1..], c);
      assert BeforeChar(s, c) == [s[0]] + t;
      assert ([s[0]] + t)[1..] == t;
    }
  }

  /** A string without `c` is its own text-before-`c`. */
  lemma {:induction false} BeforeCharAbsent(s: string, c: char)
    requires c !in s
    ensures BeforeChar(s, c) == s
    decreases |s|
  {
    if |s| > 0 {
      assert c !in s[1..];
      BeforeCharAbsent(s[1..], c);
    }
  }

  /** `s.strip()` is empty exactly when `s` is all white space. */
  lemma {:induction false} StripEmptyIffAllSpace(s: string)
    ensures Strip(s) == "" <==> AllSpace(s)
  {
    StripLeftEmpty(s);
    StripLeftFacts(s);
    var t := StripLeft(s);
    if |t| > 0 {
      StripRightFacts(t);
    }
  }

  lemma {:induction false} StripLeftEmpty(s: string)
    ensures StripLeft(s) == "" <==> AllSpace(s)
    decreases |s|
  {
    if |s| > 0 {
      StripLeftEmpty(s[1..]);
      if IsSpace(s[0]) {
        assert AllSpace(s) <==> AllSpace(s[1..]) by {
          if AllSpace(s[1..]) {
            forall i | 0 <= i < |s| ensures IsSpace(s[i]) {
              if i > 0 { assert s[i] == s[1..][i - 1]; }
            }
          }
        }
      }
    }
  }

  /** A string without the character `c` contains no text that has `c`. */
  lemma NotContainsChar(s: string, sub: string, c: char)
    requires c in sub && c !in s
    ensures !Contains(s, sub)
  {
    if Contains(s, sub) {
      ContainsChars(s, sub);
    }
  }

  /** A string without the separator splits into itself alone. */
  lemma {:induction false} SplitOnAbsent(s: string, c: char)
    requires c !in s
    ensures SplitOn(s, c) == [s]
    decreases |s|
  {
    if |s| > 0 {
      assert c !in s[1..];
      SplitOnAbsent(s[1..], c);
      assert [s[0]] + s[1..] == s;
    }
  }

  /** A string shorter than `sub` does not contain it. */
  lemma {:induction false} ShortNotContains(s: string, sub: string)
    requires |s| < |sub|
    ensures !Contains(s, sub)
    decreases |s|
  {
    if |s| > 0 {
      ShortNotContains(s[1..], sub);
    }
  }

  /** Replacing a pattern that does not occur leaves the text unchanged. */
  lemma {:induction false} ReplaceAllAbsent(s: string, pattern: string, replacement: string)
    requires pattern != "" && !Contains(s, pattern)
    ensures ReplaceAll(s, pattern, replacement) == s
    decreases |s|
  {
    if |s| > 0 {
      ReplaceAllAbsent(s[1..], pattern, replacement);
      assert [s[0]] + s[1..] == s;
    }
  }
}
