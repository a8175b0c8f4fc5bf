/** The Python `str` operations the modelled code relies on, stated on
    `seq<char>`.  Case mapping covers ASCII letters only. */
module PyText {
  import opened Wrappers

  /** `str.isspace()`: the characters `str.strip()` removes. */
  predicate IsSpace(c: char) {
    var n := c as int;
    n == 32 || 9 <= n <= 13 || 28 <= n <= 31 || n == 0x85 || n == 0xA0 || n == 0x1680
    || 0x2000 <= n <= 0x200A || n == 0x2028 || n == 0x2029 || n == 0x202F || n == 0x205F
    || n == 0x3000
  }

  predicate IsUpperAscii(c: char) { 'A' <= c <= 'Z' }

  predicate IsHexDigit(c: char) {
    '0' <= c <= '9' || 'a' <= c <= 'f' || 'A' <= c <= 'F'
  }

  predicate IsLowerHexDigit(c: char) {
    '0' <= c <= '9' || 'a' <= c <= 'f'
  }

  predicate IsLowerAscii(c: char) { 'a' <= c <= 'z' }

  /** A cased character in the sense of `str.title()`. */
  predicate IsLetter(c: char) { IsUpperAscii(c) || IsLowerAscii(c) }

  function LowerChar(c: char): char {
    if IsUpperAscii(c) then (c as int + 32) as char else c
  }

  function UpperChar(c: char): char {
    if IsLowerAscii(c) then (c as int - 32) as char else c
  }

  /** `s.lower()` */
  function Lower(s: string): string {
    seq(|s|, i requires 0 <= i < |s| => LowerChar(s[i]))
  }

  /** `s.upper()` */
  function Upper(s: string): string {
    seq(|s|, i requires 0 <= i < |s| => UpperChar(s[i]))
  }

  /** `s.replace(a, b)` for one-character `a` and `b`. */
  function ReplaceChar(s: string, a: char, b: char): string {
    seq(|s|, i requires 0 <= i < |s| => if s[i] == a then b else s[i])
  }

  /** `s.startswith(p)` */
  predicate StartsWith(s: string, p: string) { p <= s }

  /** `s.endswith(p)` */
  predicate EndsWith(s: string, p: string) {
    |p| <= |s| && s[|s| - |p|..] == p
  }

  /** `s[:n]` for a non-negative `n`. */
  function Take(s: string, n: nat): string {
    if n <= |s| then s[..n] else s
  }

  function StripLeft(s: string): string {
    if |s| > 0 && IsSpace(s[0]) then StripLeft(s[1..]) else s
  }

  function StripRight(s: string): string {
    if |s| > 0 && IsSpace(s[|s| - 1]) then StripRight(s[..|s| - 1]) else s
  }

  /** `s.strip()` */
  function Strip(s: string): string {
    StripRight(StripLeft(s))
  }

  function StripLeftOf(s: string, cs: set<char>): string {
    if |s| > 0 && s[0] in cs then StripLeftOf(s[1..], cs) else s
  }

  function StripRightOf(s: string, cs: set<char>): string {
    if |s| > 0 && s[|s| - 1] in cs then StripRightOf(s[..|s| - 1], cs) else s
  }

  /** `s.strip(chars)`: removes characters of `cs` from both ends. */
  function StripOf(s: string, cs: set<char>): string {
    StripRightOf(StripLeftOf(s, cs), cs)
  }

  /** `s.find(pat)` as an option: the first index where `pat` occurs. */
  function Find(s: string, pat: string): (r: Option<nat>)
    ensures r.Some? ==> r.value + |pat| <= |s| && s[r.value..r.value + |pat|] == pat
    ensures r.Some? ==> pat <= s[r.value..]
    ensures r.Some? ==> forall j :: 0 <= j < r.value ==> !(pat <= s[j..])
    ensures r.None? ==> forall j :: 0 <= j <= |s| ==> !(pat <= s[j..])
  {
    if pat <= s then Some(0)
    else if |s| == 0 then None
    else
      assert s[0..] == s;
      TailsOfTail(s);
      match Find(s[1..], pat)
      case Some(k) => Some(k + 1)
      case None => None
  }

  lemma TailsOfTail(s: string)
    requires |s| > 0
    ensures forall j :: 1 <= j <= |s| ==> s[j..] == s[1..][j - 1..]
  {
  }

  /** `pat in s` */
  predicate Contains(s: string, pat: string) { Find(s, pat).Some? }

  /** `s.split(pat)[0]`: the text before the first occurrence of `pat`. */
  function Before(s: string, pat: string): string {
    match Find(s, pat)
    case Some(k) => s[..k]
    case None => s
  }

  /** The text after the first occurrence of `pat`. */
  function After(s: string, pat: string): string
    requires Contains(s, pat)
  {
    s[Find(s, pat).value + |pat|..]
  }

  /** `s.replace(pat, rep)` for a non-empty `pat`: leftmost, non-overlapping. */
  function ReplaceAll(s: string, pat: string, rep: string): string
    requires |pat| > 0
  {
    if |s| < |pat| then s
    else if pat <= s then rep + ReplaceAll(s[|pat|..], pat, rep)
    else [s[0]] + ReplaceAll(s[1..], pat, rep)
  }

  function TitleFrom(s: string, previousCased: bool): string {
    if s == [] then []
    else
      var c := s[0];
      var d := if !IsLetter(c) then c else if previousCased then LowerChar(c) else UpperChar(c);
      [d] + TitleFrom(s[1..], IsLetter(c))
  }

  /** `s.title()`: a letter is upper-cased when it follows a non-letter and
      lower-cased otherwise. */
  function Title(s: string): string {
    TitleFrom(s, false)
  }

  /** `sep.join(parts)` */
  function Join(parts: seq<string>, sep: string): string {
    if |parts| == 0 then ""
    else if |parts| == 1 then parts[0]
    else parts[0] + sep + Join(parts[1..], sep)
  }

  /** `s.lower().replace(' ', '_')`, the slug used for file and package names. */
  function Slug(s: string): string {
    ReplaceChar(Lower(s), ' ', '_')
  }

  // ---------------------------------------------------------------------
  // Facts about the operations above, used by the modules that call them.

  lemma NotContainsTail(s: string, pat: string)
    requires !Contains(s, pat) && |s| > 0
    ensures !Contains(s[1..], pat) && !(pat <= s)
  {
    forall j | 0 <= j <= |s| - 1
      ensures !(pat <= s[1..][j..])
    {
      assert s[1..][j..] == s[j + 1..];
    }
  }

  /** Replacing a pattern that does not occur leaves the string as it is. */
  lemma {:induction false} ReplaceAllAbsent(s: string, pat: string, rep: string)
    requires |pat| > 0 && !Contains(s, pat)
    ensures ReplaceAll(s, pat, rep) == s
  {
    if |s| >= |pat| {
      NotContainsTail(s, pat);
      ReplaceAllAbsent(s[1..], pat, rep);
      assert [s[0]] + s[1..] == s;
    }
  }

  /** A string free of some character does not contain a pattern that
      holds that character. */
  lemma MissingCharNotContained(s: string, pat: string, c: char)
    requires c in pat && c !in s
    ensures !Contains(s, pat)
  {
    var m :| 0 <= m < |pat| && pat[m] == c;
    forall j | 0 <= j <= |s|
      ensures !(pat <= s[j..])
    {
      if |pat| <= |s| - j {
        assert s[j..][m] == s[j + m];
      }
    }
  }

  /** A character of the pattern's complement survives removing the pattern. */
  lemma {:induction false} ReplaceAllKeepsChar(s: string, pat: string, c: char)
    requires |pat| > 0 && c in s && c !in pat
    ensures c in ReplaceAll(s, pat, "")
  {
    if |s| >= |pat| {
      if pat <= s {
        assert s == pat + s[|pat|..];
        ReplaceAllKeepsChar(s[|pat|..], pat, c);
      } else if s[0] != c {
        assert s == [s[0]] + s[1..];
        ReplaceAllKeepsChar(s[1..], pat, c);
      }
    }
  }

  lemma {:induction false} StripOfKeepsChar(s: string, cs: set<char>, c: char)
    requires c in s && c !in cs
    ensures c in StripOf(s, cs)
  {
    StripLeftOfKeepsChar(s, cs, c);
    StripRightOfKeepsChar(StripLeftOf(s, cs), cs, c);
  }

  lemma {:induction false} StripLeftOfKeepsChar(s: string, cs: set<char>, c: char)
    requires c in s && c !in cs
    ensures c in StripLeftOf(s, cs)
  {
    if |s| > 0 && s[0] in cs {
      assert s == [s[0]] + s[1..];
      StripLeftOfKeepsChar(s[1..], cs, c);
    }
  }

  lemma {:induction false} StripRightOfKeepsChar(s: string, cs: set<char>, c: char)
    requires c in s && c !in cs
    ensures c in StripRightOf(s, cs)
  {
    if |s| > 0 && s[|s| - 1] in cs {
      assert s == s[..|s| - 1] + [s[|s| - 1]];
      StripRightOfKeepsChar(s[..|s| - 1], cs, c);
    }
  }

  /** Text without upper-case letters is its own lower-case form. */
  lemma LowerKeepsLowerText(s: string)
    requires forall i :: 0 <= i < |s| ==> !IsUpperAscii(s[i])
    ensures Lower(s) == s
  {
  }

  /** Text without upper-case letters or spaces is its own slug. */
  lemma SlugKeepsSlugText(s: string)
    requires forall i :: 0 <= i < |s| ==> !IsUpperAscii(s[i]) && s[i] != ' '
    ensures Slug(s) == s
  {
    LowerKeepsLowerText(s);
  }

  /** `strip()` keeps every character that is not white space. */
  lemma StripKeepsChar(s: string, c: char)
    requires c in s && !IsSpace(c)
    ensures c in Strip(s)
  {
    StripLeftKeepsChar(s, c);
    StripRightKeepsChar(StripLeft(s), c);
  }

  lemma {:induction false} StripLeftKeepsChar(s: string, c: char)
    requires c in s && !IsSpace(c)
    ensures c in StripLeft(s)
  {
    if |s| > 0 && IsSpace(s[0]) {
      assert s == [s[0]] + s[1..];
      StripLeftKeepsChar(s[1..], c);
    }
  }

  lemma {:induction false} StripRightKeepsChar(s: string, c: char)
    requires c in s && !IsSpace(c)
    ensures c in StripRight(s)
  {
    if |s| > 0 && IsSpace(s[|s| - 1]) {
      assert s == s[..|s| - 1] + [s[|s| - 1]];
      StripRightKeepsChar(s[..|s| - 1], c);
    }
  }

  lemma UpperConcat(a: string, b: string)
    ensures Upper(a + b) == Upper(a) + Upper(b)
  {
    forall i | 0 <= i < |a| + |b|
      ensures Upper(a + b)[i] == (Upper(a) + Upper(b))[i]
    {
      if i >= |a| {
        assert (a + b)[i] == b[i - |a|];
      }
    }
  }

  lemma {:induction false} StripLeftAppend(a: string, b: string)
    ensures StripLeft(a + b) == if StripLeft(a) == [] then StripLeft(b) else StripLeft(a) + b
  {
    if |a| == 0 {
      assert a + b == b;
    } else {
      assert (a + b)[1..] == a[1..] + b;
      if IsSpace(a[0]) {
        StripLeftAppend(a[1..], b);
      }
    }
  }

  lemma StripRightSpace(s: string, c: char)
    requires IsSpace(c)
    ensures StripRight(s + [c]) == StripRight(s)
  {
    assert (s + [c])[..|s|] == s;
  }

  /** Whitespace lines around a body do not survive `strip()`. */
  lemma SurroundedStrip(b: string)
    ensures Strip("\n" + b + "\n") == Strip(b)
  {
    assert ("\n" + b + "\n")[1..] == b + "\n";
    StripLeftAppend(b, "\n");
    if StripLeft(b) != [] {
      StripRightSpace(StripLeft(b), '\n');
    }
  }

  lemma {:induction false} StripLeftSuffix(s: string)
    ensures exists k :: 0 <= k <= |s| && StripLeft(s) == s[k..]
  {
    if |s| > 0 && IsSpace(s[0]) {
      StripLeftSuffix(s[1..]);
      var k :| 0 <= k <= |s| - 1 && StripLeft(s[1..]) == s[1..][k..];
      assert s[1..][k..] == s[k + 1..];
    } else {
      assert s == s[0..];
    }
  }

  lemma {:induction false} StripRightPrefix(s: string)
    ensures exists k :: 0 <= k <= |s| && StripRight(s) == s[..k]
  {
    if |s| > 0 && IsSpace(s[|s| - 1]) {
      StripRightPrefix(s[..|s| - 1]);
      var k :| 0 <= k <= |s| - 1 && StripRight(s[..|s| - 1]) == s[..|s| - 1][..k];
      assert s[..|s| - 1][..k] == s[..k];
    } else {
      assert s == s[..|s|];
    }
  }

  /** `strip()` returns a contiguous piece of its argument. */
  lemma StripIsSlice(s: string)
    ensures exists i, j :: 0 <= i <= j <= |s| && Strip(s) == s[i..j]
  {
    StripLeftSuffix(s);
    var i :| 0 <= i <= |s| && StripLeft(s) == s[i..];
    StripRightPrefix(s[i..]);
    var k :| 0 <= k <= |s| - i && StripRight(s[i..]) == s[i..][..k];
    assert s[i..][..k] == s[i..i + k];
  }

  /** A string without the one-character pattern `[c]` holds no `c`. */
  lemma CharNotContained(s: string, c: char)
    requires !Contains(s, [c])
    ensures c !in s
  {
    forall k | 0 <= k < |s|
      ensures s[k] != c
    {
      assert !([c] <= s[k..]);
      assert s[k..][0] == s[k];
    }
  }

  /** The text before the first occurrence of `pat` does not contain `pat`. */
  lemma BeforeHasNoPattern(s: string, pat: string)
    requires |pat| > 0
    ensures !Contains(Before(s, pat), pat)
  {
    match Find(s, pat)
    case None =>
    case Some(k) =>
      forall j | 0 <= j <= k
        ensures !(pat <= s[..k][j..])
      {
        if j + |pat| <= k {
          assert s[..k][j..][..|pat|] == s[j..][..|pat|];
        }
      }
  }

  /** A prefix holding no first character of `pat` passes through
      `replace` untouched. */
  lemma {:induction false} ReplaceAllPrefixFree(a: string, b: string, pat: string, rep: string)
    requires |pat| > 0 && pat[0] !in a
    ensures ReplaceAll(a + b, pat, rep) == a + ReplaceAll(b, pat, rep)
  {
    if a != [] {
      var s := a + b;
      assert s[0] == a[0] && s[1..] == a[1..] + b;
      assert !(pat <= s) by { assert s[0] != pat[0]; }
      ReplaceAllPrefixFree(a[1..], b, pat, rep);
      if |s| < |pat| {
        assert ReplaceAll(b, pat, rep) == b;
        assert ReplaceAll(a[1..] + b, pat, rep) == a[1..] + b;
      }
    } else {
      assert a + b == b;
    }
  }

  /** `pat` cannot occur in `a + t` when `a` holds no first character of it
      and `t` is shorter than it. */
  lemma PatternNotInShortTail(a: string, t: string, pat: string)
    requires |pat| > |t| && pat[0] !in a
    ensures !Contains(a + t, pat)
  {
    var s := a + t;
    forall j | 0 <= j <= |s|
      ensures !(pat <= s[j..])
    {
      if j < |a| {
        assert s[j..][0] == a[j];
      }
    }
  }

  /** The first occurrence of `pat` in `a + t` is where `t` starts, when `t`
      starts with `pat` and `a` holds no first character of it. */
  lemma FirstOccurrenceAfter(a: string, t: string, pat: string)
    requires |pat| > 0 && pat[0] !in a && pat <= t
    ensures Find(a + t, pat) == Some(|a|)
  {
    var s := a + t;
    assert s[|a|..] == t;
    assert pat <= s[|a|..];
    forall j | 0 <= j < |a|
      ensures !(pat <= s[j..])
    {
      assert s[j..][0] == a[j];
    }
  }

  /** Finding a pattern also finds every prefix of it. */
  lemma ContainsPrefixOfPattern(s: string, pat: string, p: string)
    requires p <= pat && Contains(s, pat)
    ensures Contains(s, p)
  {
    var k := Find(s, pat).value;
    assert pat <= s[k..];
    assert p <= s[k..];
  }

  /** A text that does not start with `p` does not start with anything
      longer that begins with `p`. */
  lemma StartsWithLonger(s: string, p: string, q: string)
    requires !StartsWith(s, p)
    ensures !StartsWith(s, p + q)
  {
    assert forall i :: 0 <= i < |p| ==> (p + q)[i] == p[i];
  }
}
