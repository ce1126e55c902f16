/** The few operations of Python's `str` that the backend's text handling uses:
    `strip`, `split` on a single character, `replace(label, "")`, `capitalize`
    and the `in` test. Strings are sequences of Unicode scalar values. */
module PyStrings {

  /** Python's `str.isspace` for one character. */
  predicate IsSpace(c: char) {
    || c == ' '
    || ('\t' <= c <= '\r')
    || ('\U{1C}' <= c <= '\U{1F}')
    || c == '\U{85}' || c == '\U{A0}' || c == '\U{1680}'
    || ('\U{2000}' <= c <= '\U{200A}')
    || c == '\U{2028}' || c == '\U{2029}' || c == '\U{202F}' || c == '\U{205F}' || c == '\U{3000}'
  }

  /** Every character is whitespace (Python: `s.strip() == ""`). */
  predicate AllSpace(s: string) {
    forall i :: 0 <= i < |s| ==> IsSpace(s[i])
  }

  /** Neither end of `s` is whitespace. */
  predicate IsStripped(s: string) {
    s == [] || (!IsSpace(s[0]) && !IsSpace(s[|s| - 1]))
  }

  /** `s.lstrip()`: the suffix left after the leading whitespace. */
  function StripLeft(s: string): (r: string)
    ensures |r| <= |s| && r == s[|s| - |r|..]
    ensures AllSpace(s[..|s| - |r|])
    ensures r == [] || !IsSpace(r[0])
  {
    if s != [] && IsSpace(s[0]) then
      var r := StripLeft(s[1..]);
      assert s[..|s| - |r|] == [s[0]] + s[1..][..|s| - 1 - |r|];
      r
    else s
  }

  /** `s.rstrip()`: the prefix left before the trailing whitespace. */
  function StripRight(s: string): (r: string)
    ensures |r| <= |s| && r == s[..|r|]
    ensures AllSpace(s[|r|..])
    ensures r == [] || !IsSpace(r[|r| - 1])
  {
    if s != [] && IsSpace(s[|s| - 1]) then
      var r := StripRight(s[..|s| - 1]);
      assert s[|r|..] == s[..|s| - 1][|r|..] + [s[|s| - 1]];
      r
    else s
  }

  /** `s.strip()`: `s` without its leading and trailing whitespace. */
  function Strip(s: string): (r: string)
    ensures |r| <= |s|
    ensures IsStripped(r)
    ensures r == [] <==> AllSpace(s)
  {
    var l := StripLeft(s);
    var r := StripRight(l);
    assert r == [] ==> AllSpace(s) by {
      if r == [] {
        assert l == [] by { assert AllSpace(l[|r|..]); }
        assert s[..|s| - |l|] == s;
      }
    }
    r
  }

  /** `strip` only removes characters: whatever it returns occurs in its argument. */
  lemma StripKeeps(s: string, c: char)
    requires c in Strip(s)
    ensures c in s
  {
    var l := StripLeft(s);
    var r := StripRight(l);
    var i :| 0 <= i < |r| && r[i] == c;
    assert l[i] == c;
    assert s[|s| - |l| + i] == c;
  }

  /** Stripping text that already has no whitespace at either end changes nothing. */
  lemma {:induction false} StripStripped(s: string)
    requires IsStripped(s)
    ensures Strip(s) == s
  {
    assert StripLeft(s) == s;
    assert StripRight(s) == s;
  }

  /** Whitespace around `s` does not change what `strip` returns. */
  lemma {:induction false} StripPadded(p: string, s: string, q: string)
    requires AllSpace(p) && AllSpace(q)
    ensures Strip(p + s + q) == Strip(s)
  {
    var x := p + s + q;
    if AllSpace(s) {
      forall i | 0 <= i < |x| ensures IsSpace(x[i]) {
        if i < |p| {
          assert x[i] == p[i];
        } else if i < |p| + |s| {
          assert x[i] == s[i - |p|];
        } else {
          assert x[i] == q[i - |p| - |s|];
        }
      }
    } else {
      assert x == p + (s + q);
      StripLeftPadded(p, s + q);
      StripLeftSuffix(s, q);
      assert StripLeft(x) == StripLeft(s) + q;
      StripRightPadded(StripLeft(s), q);
    }
  }

  lemma {:induction false} StripLeftPadded(p: string, s: string)
    requires AllSpace(p)
    ensures StripLeft(p + s) == StripLeft(s)
    decreases |p|
  {
    if p != [] {
      assert (p + s)[1..] == p[1..] + s;
      StripLeftPadded(p[1..], s);
    } else {
      assert p + s == s;
    }
  }

  /** Appending whitespace-only text `q` commutes with `lstrip` unless all of `s` is whitespace. */
  lemma {:induction false} StripLeftSuffix(s: string, q: string)
    requires AllSpace(q) && !AllSpace(s)
    ensures StripLeft(s + q) == StripLeft(s) + q
    decreases |s|
  {
    if IsSpace(s[0]) {
      assert (s + q)[1..] == s[1..] + q;
      StripLeftSuffix(s[1..], q);
    }
  }

  lemma {:induction false} StripRightPadded(s: string, q: string)
    requires AllSpace(q)
    ensures StripRight(s + q) == StripRight(s)
    decreases |q|
  {
    if q == [] {
      assert s + q == s;
    } else {
      assert (s + q)[..|s + q| - 1] == s + q[..|q| - 1];
      StripRightPadded(s, q[..|q| - 1]);
    }
  }

  /** Python's `s.split(sep)` for a one-character separator: the pieces between
      separators, always at least one. */
  function Split(s: string, sep: char): (r: seq<string>)
    ensures |r| >= 1
    ensures forall i :: 0 <= i < |r| ==> sep !in r[i]
  {
    if s == [] then [""]
    else
      var rest := Split(s[1..], sep);
      if s[0] == sep then [""] + rest
      else [[s[0]] + rest[0]] + rest[1..]
  }

  /** No line holds a newline character. */
  predicate NoNewlines(lines: seq<string>) {
    forall i :: 0 <= i < |lines| ==> '\n' !in lines[i]
  }

  /** Python's `sep.join(parts)` for a one-character separator. */
  function Join(parts: seq<string>, sep: char): (r: string)
    requires |parts| >= 1
  {
    if |parts| == 1 then parts[0] else parts[0] + [sep] + Join(parts[1..], sep)
  }

  lemma JoinFirst(parts: seq<string>, sep: char)
    requires |parts| >= 2
    ensures Join(parts, sep) == parts[0] + [sep] + Join(parts[1..], sep)
  {
  }

  /** Joining the pieces of a split gives back the original text. */
  lemma {:induction false} JoinSplit(s: string, sep: char)
    ensures Join(Split(s, sep), sep) == s
    decreases |s|
  {
    if s != [] {
      var rest := Split(s[1..], sep);
      JoinSplit(s[1..], sep);
      if s[0] != sep {
        if |rest| > 1 {
          assert ([[s[0]] + rest[0]] + rest[1..])[1..] == rest[1..];
        }
      }
    }
  }

  /** A split at a separator character splits the two sides independently. */
  lemma {:induction false} SplitAround(a: string, sep: char, b: string)
    ensures Split(a + [sep] + b, sep) == Split(a, sep) + Split(b, sep)
    decreases |a|
  {
    if a == [] {
      assert a + [sep] + b == [sep] + b;
      assert ([sep] + b)[1..] == b;
    } else {
      assert (a + [sep] + b)[1..] == a[1..] + [sep] + b;
      SplitAround(a[1..], sep, b);
    }
  }

  /** Splitting text that holds no separator yields that text alone. */
  lemma {:induction false} SplitNoSeparator(s: string, sep: char)
    requires sep !in s
    ensures Split(s, sep) == [s]
    decreases |s|
  {
    if s != [] {
      SplitNoSeparator(s[1..], sep);
      assert [s[0]] + s[1..] == s;
    }
  }

  /** Python's `pat in s` for a non-empty pattern. */
  predicate Contains(s: string, pat: string)
    requires pat != []
    decreases |s|
  {
    |s| >= |pat| && (s[..|pat|] == pat || Contains(s[1..], pat))
  }

  /** Python's `s.replace(pat, "")`: every non-overlapping occurrence of `pat`,
      found from left to right, is deleted; the text is not rescanned. */
  function RemoveAll(s: string, pat: string): (r: string)
    requires pat != []
    ensures |r| <= |s|
    ensures forall i :: 0 <= i < |r| ==> r[i] in s
    ensures !Contains(s, pat) ==> r == s
    decreases |s|
  {
    if |s| < |pat| then s
    else if s[..|pat|] == pat then RemoveAll(s[|pat|..], pat)
    else [s[0]] + RemoveAll(s[1..], pat)
  }

  /** A leading occurrence is deleted. */
  lemma RemoveAllLeading(pat: string, y: string)
    requires pat != []
    ensures RemoveAll(pat + y, pat) == RemoveAll(y, pat)
  {
    assert (pat + y)[..|pat|] == pat;
    assert (pat + y)[|pat|..] == y;
  }

  /** A character that cannot begin the pattern is kept. */
  lemma RemoveAllCons(c: char, t: string, pat: string)
    requires pat != [] && c != pat[0]
    ensures RemoveAll([c] + t, pat) == [c] + RemoveAll(t, pat)
  {
    if |[c] + t| >= |pat| {
      assert ([c] + t)[..|pat|][0] == c;
    }
    assert ([c] + t)[1..] == t;
  }

  /** Text none of whose characters can begin the pattern is kept whole. */
  lemma {:induction false} RemoveAllPrefix(x: string, t: string, pat: string)
    requires pat != [] && pat[0] !in x
    ensures RemoveAll(x + t, pat) == x + RemoveAll(t, pat)
    decreases |x|
  {
    if x == [] {
      assert x + t == t;
    } else {
      HeadTail(x, t);
      RemoveAllCons(x[0], x[1..] + t, pat);
      RemoveAllPrefix(x[1..], t, pat);
      HeadTail(x, RemoveAll(t, pat));
    }
  }

  /** Splitting off the first character of the front part of a concatenation. */
  lemma HeadTail(x: string, t: string)
    requires x != []
    ensures [x[0]] + (x[1..] + t) == x + t
  {
    assert [x[0]] + x[1..] == x;
  }

  /** An occurrence after the start of the text is deleted too, not only a
      leading one: text before it that cannot begin the pattern is kept, and
      the deletion goes on in what follows. */
  lemma RemoveAllAfter(x: string, pat: string, y: string)
    requires pat != [] && pat[0] !in x
    ensures RemoveAll(x + pat + y, pat) == x + RemoveAll(y, pat)
  {
    assert x + pat + y == x + (pat + y);
    RemoveAllPrefix(x, pat + y, pat);
    RemoveAllLeading(pat, y);
  }

  /** No newline in `a + b` when there is none in either part. */
  lemma NoNewlineConcat(a: string, b: string)
    requires '\n' !in a && '\n' !in b
    ensures '\n' !in a + b
  {
  }

  /** An occurrence of the pattern cannot start on a character that is not its first. */
  lemma {:induction false} NotContainsCons(c: char, s: string, pat: string)
    requires pat != [] && c != pat[0] && !Contains(s, pat)
    ensures !Contains([c] + s, pat)
  {
    assert ([c] + s)[1..] == s;
    if |[c] + s| >= |pat| {
      assert ([c] + s)[..|pat|][0] == c;
    }
  }

  /** ASCII upper-casing of one character; other characters are kept. */
  function ToUpper(c: char): char {
    if 'a' <= c <= 'z' then (c as int - 32) as char else c
  }

  /** ASCII lower-casing of one character; other characters are kept. */
  function ToLower(c: char): char {
    if 'A' <= c <= 'Z' then (c as int + 32) as char else c
  }

  function LowerAll(s: string): (r: string)
    ensures |r| == |s|
    ensures forall i :: 0 <= i < |s| ==> r[i] == ToLower(s[i])
  {
    if s == [] then [] else [ToLower(s[0])] + LowerAll(s[1..])
  }

  /** Python's `s.capitalize()` on ASCII letters: the first character upper-case,
      every other character lower-case. */
  function Capitalize(s: string): (r: string)
    ensures |r| == |s|
    ensures s != [] ==> r[0] == ToUpper(s[0])
    ensures forall i :: 0 < i < |s| ==> r[i] == ToLower(s[i])
  {
    if s == [] then [] else [ToUpper(s[0])] + LowerAll(s[1..])
  }
}
