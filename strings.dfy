/** The Python `str` operations the backend relies on, on `string` (a sequence of
    code points): case folding, `in`, `replace`, `strip`, `split` and `join`. */
module Strings {

  /** Python's `str.isspace()`: the characters that `split()` and `strip()` without
      arguments treat as whitespace. */
  predicate IsSpace(c: char) {
    ('\t' <= c <= '\r') || ('\U{1c}' <= c <= '\U{1f}') || c == ' ' || c == '\U{85}'
    || c == '\U{a0}' || c == '\U{1680}' || ('\U{2000}' <= c <= '\U{200a}') || c == '\U{2028}'
    || c == '\U{2029}' || c == '\U{202f}' || c == '\U{205f}' || c == '\U{3000}'
  }

  predicate IsAsciiUpper(c: char) { 'A' <= c <= 'Z' }

  predicate IsAsciiLower(c: char) { 'a' <= c <= 'z' }

  predicate IsAsciiDigit(c: char) { '0' <= c <= '9' }

  /** A character of the regular-expression class `\w` (ASCII part). */
  predicate IsWordChar(c: char) { IsAsciiUpper(c) || IsAsciiLower(c) || IsAsciiDigit(c) || c == '_' }

  function LowerChar(c: char): (r: char)
    ensures !IsAsciiUpper(r)
    ensures IsAsciiUpper(c) ==> IsAsciiLower(r) && r as int == c as int + 32
    ensures !IsAsciiUpper(c) ==> r == c
  {
    if IsAsciiUpper(c) then (c as int + 32) as char else c
  }

  /** `s.lower()`, on ASCII letters. */
  function Lower(s: string): (r: string)
    ensures |r| == |s|
    ensures forall i :: 0 <= i < |s| ==> r[i] == LowerChar(s[i])
  {
    seq(|s|, i requires 0 <= i < |s| => LowerChar(s[i]))
  }

  lemma LowerHasNoUpper(s: string)
    ensures forall c :: c in Lower(s) ==> !IsAsciiUpper(c)
  {
  }

  /** Text without upper-case letters is its own lower-case form. */
  lemma LowerIdentity(s: string)
    requires forall c :: c in s ==> !IsAsciiUpper(c)
    ensures Lower(s) == s
  {
    assert forall i :: 0 <= i < |s| ==> s[i] in s;
  }

  predicate StartsWith(s: string, p: string) { |p| <= |s| && s[..|p|] == p }

  predicate EndsWith(s: string, p: string) { |p| <= |s| && s[|s| - |p|..] == p }

  /** Python's `sub in s`: `sub` occurs in `s` as a contiguous block. */
  predicate Contains(s: string, sub: string)
    decreases |s|
  {
    StartsWith(s, sub) || (s != [] && Contains(s[1..], sub))
  }

  lemma {:induction false} ContainsAt(s: string, sub: string, i: nat)
    requires i + |sub| <= |s| && s[i..i + |sub|] == sub
    ensures Contains(s, sub)
    decreases i
  {
    if i > 0 {
      assert s[1..][i - 1..i - 1 + |sub|] == sub;
      ContainsAt(s[1..], sub, i - 1);
    }
  }

  /** A text is at least as long as anything it contains. */
  lemma {:induction false} ContainsLength(s: string, sub: string)
    requires Contains(s, sub)
    ensures |sub| <= |s|
    decreases |s|
  {
    if !StartsWith(s, sub) {
      ContainsLength(s[1..], sub);
    }
  }

  lemma {:induction false} ContainsConcatLeft(a: string, b: string, sub: string)
    requires Contains(a, sub)
    ensures Contains(a + b, sub)
    decreases |a|
  {
    if StartsWith(a, sub) {
      assert (a + b)[..|sub|] == a[..|sub|];
    } else {
      assert (a + b)[1..] == a[1..] + b;
      ContainsConcatLeft(a[1..], b, sub);
    }
  }

  lemma {:induction false} ContainsConcatRight(a: string, b: string, sub: string)
    requires Contains(b, sub)
    ensures Contains(a + b, sub)
    decreases |a|
  {
    if a != [] {
      assert (a + b)[1..] == a[1..] + b;
      ContainsConcatRight(a[1..], b, sub);
    } else {
      assert a + b == b;
    }
  }

  /** A single character is contained exactly when it is an element. */
  lemma {:induction false} ContainsChar(s: string, c: char)
    ensures Contains(s, [c]) <==> c in s
    decreases |s|
  {
    if s != [] {
      ContainsChar(s[1..], c);
      assert s == [s[0]] + s[1..];
    }
  }

  /** `sub` occurs in `s` starting at index `i`. */
  predicate OccursAt(s: string, sub: string, i: int) {
    0 <= i && i + |sub| <= |s| && s[i..i + |sub|] == sub
  }

  /** Text in which `sub` occurs at no index does not contain it. */
  lemma {:induction false} NoOccurrence(s: string, sub: string)
    requires forall i :: !OccursAt(s, sub, i)
    ensures !Contains(s, sub)
    decreases |s|
  {
    if |s| < |sub| {
      NotContainsShort(s, sub);
    } else {
      assert !OccursAt(s, sub, 0);
      forall i ensures !OccursAt(s[1..], sub, i) {
        assert !OccursAt(s, sub, i + 1);
        if 0 <= i && i + |sub| <= |s| - 1 {
          assert s[1..][i..i + |sub|] == s[i + 1..i + 1 + |sub|];
        }
      }
      if s != [] {
        NoOccurrence(s[1..], sub);
      }
    }
  }

  /** Text with no two adjacent `c` does not contain `[c, c]`. */
  lemma NoPair(s: string, c: char)
    requires forall i :: 0 <= i < |s| - 1 ==> s[i] != c || s[i + 1] != c
    ensures !Contains(s, [c, c])
  {
    forall i ensures !OccursAt(s, [c, c], i) {
      if 0 <= i && i + 2 <= |s| {
        assert s[i..i + 2][0] == s[i] && s[i..i + 2][1] == s[i + 1];
      }
    }
    NoOccurrence(s, [c, c]);
  }

  /** Python's `s.replace(pat, rep)` for a non-empty `pat`: every occurrence, found
      left to right without overlap, is replaced. */
  function Replace(s: string, pat: string, rep: string): string
    requires pat != []
    decreases |s|
  {
    if |s| < |pat| then s
    else if s[..|pat|] == pat then rep + Replace(s[|pat|..], pat, rep)
    else [s[0]] + Replace(s[1..], pat, rep)
  }

  /** A character that occurs neither in `s` nor in the replacement does not occur
      in the result. */
  lemma {:induction false} ReplaceKeepsOut(s: string, pat: string, rep: string, c: char)
    requires pat != [] && c !in s && c !in rep
    ensures c !in Replace(s, pat, rep)
    decreases |s|
  {
    if |s| < |pat| {
    } else if s[..|pat|] == pat {
      ReplaceKeepsOut(s[|pat|..], pat, rep, c);
    } else {
      ReplaceKeepsOut(s[1..], pat, rep, c);
    }
  }

  /** Replacing a one-character pattern by text without it removes it altogether. */
  lemma {:induction false} ReplaceRemovesChar(s: string, c: char, rep: string)
    requires c !in rep
    ensures c !in Replace(s, [c], rep)
    decreases |s|
  {
    if |s| >= 1 {
      if s[..1] == [c] {
        ReplaceRemovesChar(s[1..], c, rep);
      } else {
        assert s[0] != c;
        ReplaceRemovesChar(s[1..], c, rep);
      }
    }
  }

  /** A string in which the pattern does not occur is left unchanged. */
  lemma {:induction false} ReplaceAbsent(s: string, pat: string, rep: string)
    requires pat != [] && !Contains(s, pat)
    ensures Replace(s, pat, rep) == s
    decreases |s|
  {
    if |s| >= |pat| {
      assert s[..|pat|] != pat;
      ReplaceAbsent(s[1..], pat, rep);
    }
  }

  /** Replacing a character that does not occur changes nothing. */
  lemma ReplaceAbsentChar(s: string, c: char, rep: string)
    requires c !in s
    ensures Replace(s, [c], rep) == s
  {
    ContainsChar(s, c);
    ReplaceAbsent(s, [c], rep);
  }

  /** A one-character pattern is replaced piecewise. */
  lemma {:induction false} ReplaceCharConcat(a: string, b: string, c: char, rep: string)
    ensures Replace(a + b, [c], rep) == Replace(a, [c], rep) + Replace(b, [c], rep)
    decreases |a|
  {
    if a == [] {
      assert a + b == b;
    } else {
      assert (a + b)[1..] == a[1..] + b;
      assert (a + b)[..1] == a[..1];
      ReplaceCharConcat(a[1..], b, c, rep);
    }
  }

  /** The number of characters satisfying `drop` at the start of `s`. */
  function LeadCount(s: string, drop: char -> bool): (n: nat)
    ensures n <= |s|
    ensures forall i :: 0 <= i < n ==> drop(s[i])
    ensures n == |s| || !drop(s[n])
    decreases |s|
  {
    if s != [] && drop(s[0]) then 1 + LeadCount(s[1..], drop) else 0
  }

  /** The number of characters satisfying `drop` at the end of `s`. */
  function TrailCount(s: string, drop: char -> bool): (n: nat)
    ensures n <= |s|
    ensures forall i :: |s| - n <= i < |s| ==> drop(s[i])
    ensures n == |s| || !drop(s[|s| - n - 1])
    decreases |s|
  {
    if s != [] && drop(s[|s| - 1]) then 1 + TrailCount(s[..|s| - 1], drop) else 0
  }

  /** Python's `strip`: drop leading and trailing characters that satisfy `drop`. */
  function StripBy(s: string, drop: char -> bool): (r: string)
    ensures exists i, j :: 0 <= i <= j <= |s| && r == s[i..j]
    ensures r != [] ==> !drop(r[0]) && !drop(r[|r| - 1])
    ensures r == [] ==> forall c :: c in s ==> drop(c)
  {
    var i := LeadCount(s, drop);
    var j := TrailCount(s[i..], drop);
    assert s[i..][..|s| - i - j] == s[i..|s| - j];
    s[i..][..|s| - i - j]
  }

  /** `s.strip()`. */
  function Strip(s: string): string { StripBy(s, IsSpace) }

  /** Text whose ends are not whitespace is unchanged by `strip()`. */
  lemma StripIdentity(s: string)
    requires s != [] && !IsSpace(s[0]) && !IsSpace(s[|s| - 1])
    ensures Strip(s) == s
  {
    assert LeadCount(s, IsSpace) == 0;
    assert TrailCount(s, IsSpace) == 0;
  }

  predicate IsUnderscore(c: char) { c == '_' }

  /** `s.strip('_')`. */
  function StripUnderscores(s: string): string { StripBy(s, IsUnderscore) }

  lemma StripKeepsOut(s: string, drop: char -> bool, c: char)
    requires c !in s
    ensures c !in StripBy(s, drop)
  {
  }

  /** Length of the run of non-whitespace characters at the start of `s`. */
  function WordLen(s: string): (n: nat)
    ensures n <= |s|
    ensures forall i :: 0 <= i < n ==> !IsSpace(s[i])
    ensures n == |s| || IsSpace(s[n])
    decreases |s|
  {
    if s == [] || IsSpace(s[0]) then 0 else 1 + WordLen(s[1..])
  }

  /** `s.split()` without arguments: the maximal runs of non-whitespace characters. */
  function SplitWhitespace(s: string): (r: seq<string>)
    ensures forall k :: 0 <= k < |r| ==> r[k] != [] && forall c :: c in r[k] ==> !IsSpace(c)
    decreases |s|
  {
    if s == [] then []
    else if IsSpace(s[0]) then SplitWhitespace(s[1..])
    else
      var n := WordLen(s);
      assert forall c :: c in s[..n] ==> !IsSpace(c);
      [s[..n]] + SplitWhitespace(s[n..])
  }

  /** Every word of `s.split()` is made of characters of `s`. */
  lemma {:induction false} SplitWhitespaceChars(s: string)
    ensures forall k, c :: 0 <= k < |SplitWhitespace(s)| && c in SplitWhitespace(s)[k] ==> c in s
    decreases |s|
  {
    if s == [] {
    } else if IsSpace(s[0]) {
      SplitWhitespaceChars(s[1..]);
      assert forall c :: c in s[1..] ==> c in s;
    } else {
      var n := WordLen(s);
      var rest := SplitWhitespace(s[n..]);
      SplitWhitespaceChars(s[n..]);
      assert SplitWhitespace(s) == [s[..n]] + rest;
      forall k, c | 0 <= k < |SplitWhitespace(s)| && c in SplitWhitespace(s)[k]
        ensures c in s
      {
        if k == 0 {
          assert c in s[..n];
        } else {
          assert c in rest[k - 1];
          assert c in s[n..];
        }
      }
    }
  }

  /** Python's `s.split(sep)` for a non-empty separator. */
  function Split(s: string, sep: string): (r: seq<string>)
    requires sep != []
    ensures |r| >= 1
    decreases |s|
  {
    if |s| < |sep| then [s]
    else if s[..|sep|] == sep then [[]] + Split(s[|sep|..], sep)
    else
      var rest := Split(s[1..], sep);
      [[s[0]] + rest[0]] + rest[1..]
  }

  /** `sep.join(parts)`. */
  function Join(parts: seq<string>, sep: string): string
    decreases |parts|
  {
    if parts == [] then []
    else if |parts| == 1 then parts[0]
    else parts[0] + sep + Join(parts[1..], sep)
  }

  /** Splitting and joining again gives back the original text. */
  lemma {:induction false} JoinSplit(s: string, sep: string)
    requires sep != []
    ensures Join(Split(s, sep), sep) == s
    decreases |s|
  {
    if |s| < |sep| {
    } else if s[..|sep|] == sep {
      var rest := Split(s[|sep|..], sep);
      JoinSplit(s[|sep|..], sep);
      JoinEmptyFirst(rest, sep);
      assert s == sep + s[|sep|..];
    } else {
      var rest := Split(s[1..], sep);
      JoinSplit(s[1..], sep);
      JoinConsFirst(s[0], rest, sep);
      assert s == [s[0]] + s[1..];
    }
  }

  /** Joining after an empty first piece puts the separator in front. */
  lemma JoinEmptyFirst(parts: seq<string>, sep: string)
    requires |parts| >= 1
    ensures Join([[]] + parts, sep) == sep + Join(parts, sep)
  {
    assert ([[]] + parts)[1..] == parts;
  }

  /** Joining after a character is glued to the first piece puts it in front. */
  lemma JoinConsFirst(c: char, parts: seq<string>, sep: string)
    requires |parts| >= 1
    ensures Join([[c] + parts[0]] + parts[1..], sep) == [c] + Join(parts, sep)
  {
    var r := [[c] + parts[0]] + parts[1..];
    if |parts| == 1 {
      assert r == [[c] + parts[0]];
    } else {
      assert r[1..] == parts[1..];
      assert Join(r, sep) == ([c] + parts[0]) + sep + Join(parts[1..], sep);
      assert Join(parts, sep) == parts[0] + sep + Join(parts[1..], sep);
    }
  }

  /** No piece of a split contains the separator. */
  lemma {:induction false} SplitPiecesFree(s: string, sep: string)
    requires sep != []
    ensures forall k :: 0 <= k < |Split(s, sep)| ==> !Contains(Split(s, sep)[k], sep)
    decreases |s|
  {
    if |s| < |sep| {
      NotContainsShort(s, sep);
    } else if s[..|sep|] == sep {
      SplitPiecesFree(s[|sep|..], sep);
      NotContainsShort([], sep);
    } else {
      var rest := Split(s[1..], sep);
      SplitPiecesFree(s[1..], sep);
      var first := [s[0]] + rest[0];
      FirstPieceIsPrefix(s[1..], sep);
      assert s[1..] == rest[0] + s[1..][|rest[0]|..];
      assert first == s[..|first|];
      if |sep| <= |first| {
        assert first[..|sep|] == s[..|sep|];
      }
      assert first[1..] == rest[0];
    }
  }

  /** The first piece of a split is a prefix of the text. */
  lemma {:induction false} FirstPieceIsPrefix(s: string, sep: string)
    requires sep != []
    ensures |Split(s, sep)[0]| <= |s| && s[..|Split(s, sep)[0]|] == Split(s, sep)[0]
    decreases |s|
  {
    if |s| >= |sep| && s[..|sep|] != sep {
      FirstPieceIsPrefix(s[1..], sep);
    }
  }

  lemma {:induction false} NotContainsShort(s: string, sub: string)
    requires |s| < |sub|
    ensures !Contains(s, sub)
    decreases |s|
  {
    if s != [] {
      NotContainsShort(s[1..], sub);
    }
  }

  /** Text that contains the separator splits into at least two pieces. */
  lemma {:induction false} SplitContains(s: string, sep: string)
    requires sep != [] && Contains(s, sep)
    ensures |Split(s, sep)| >= 2
    decreases |s|
  {
    if |s| < |sep| {
      NotContainsShort(s, sep);
    } else if s[..|sep|] != sep {
      SplitContains(s[1..], sep);
    }
  }

  /** Text without the separator is a single piece. */
  lemma {:induction false} SplitAbsent(s: string, sep: string)
    requires sep != [] && !Contains(s, sep)
    ensures Split(s, sep) == [s]
    decreases |s|
  {
    if |s| >= |sep| {
      assert s[..|sep|] != sep;
      SplitAbsent(s[1..], sep);
      assert s == [s[0]] + s[1..];
    }
  }

  /** Whatever a piece of a split contains, the text contains. */
  lemma {:induction false} SplitPieceInside(s: string, sep: string, k: nat, sub: string)
    requires sep != [] && k < |Split(s, sep)| && Contains(Split(s, sep)[k], sub)
    ensures Contains(s, sub)
    decreases |s|
  {
    if |s| < |sep| {
    } else if s[..|sep|] == sep {
      if k == 0 {
        assert Split(s, sep)[0] == [];
        ContainsLength([], sub);
        assert s[..0] == sub;
      } else {
        assert Split(s, sep)[k] == Split(s[|sep|..], sep)[k - 1];
        SplitPieceInside(s[|sep|..], sep, k - 1, sub);
        ContainsConcatRight(s[..|sep|], s[|sep|..], sub);
        assert s[..|sep|] + s[|sep|..] == s;
      }
    } else {
      var rest := Split(s[1..], sep);
      if k == 0 {
        var first := [s[0]] + rest[0];
        FirstPieceIsPrefix(s[1..], sep);
        assert s[1..] == rest[0] + s[1..][|rest[0]|..];
        assert s == first + s[|first|..];
        ContainsConcatLeft(first, s[|first|..], sub);
      } else {
        assert Split(s, sep)[k] == rest[k];
        SplitPieceInside(s[1..], sep, k, sub);
        ContainsConcatRight([s[0]], s[1..], sub);
        assert [s[0]] + s[1..] == s;
      }
    }
  }

  /** Python's `s.split(h)[1]`: the text between the first and the second occurrence
      of `h` (or the end). */
  function AfterFirst(s: string, h: string): (r: string)
    requires h != [] && Contains(s, h)
    ensures !Contains(r, h)
  {
    SplitContains(s, h);
    SplitPiecesFree(s, h);
    Split(s, h)[1]
  }

  /** Decimal digits of a natural number, as `str(n)` prints them. */
  function NatToString(n: nat): (r: string)
    ensures r != [] && forall c :: c in r ==> IsAsciiDigit(c)
    decreases n
  {
    if n < 10 then [('0' as int + n) as char]
    else NatToString(n / 10) + [('0' as int + n % 10) as char]
  }
}
