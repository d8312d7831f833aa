/** The two pieces of Python string behaviour the assistant relies on:
    `str.strip()` with no argument, and repetition of a string (`"-" * 100`). */
module PythonStrings {

  /** The characters `str.isspace()` accepts: the ASCII controls tab, line feed,
      vertical tab, form feed, carriage return and the four information separators
      U+001C-U+001F, the space, and the Unicode spaces and line/paragraph separators. */
  predicate IsSpace(c: char)
  {
    ('\t' <= c <= '\r') || ('\U{1C}' <= c <= '\U{1F}') || c == ' ' ||
    c == '\U{85}' || c == '\U{A0}' || c == '\U{1680}' ||
    ('\U{2000}' <= c <= '\U{200A}') || c == '\U{2028}' || c == '\U{2029}' ||
    c == '\U{202F}' || c == '\U{205F}' || c == '\U{3000}'
  }

  predicate AllSpace(s: string)
  {
    forall i :: 0 <= i < |s| ==> IsSpace(s[i])
  }

  /** Neither the first nor the last character is whitespace. */
  predicate Trimmed(s: string)
  {
    s == [] || (!IsSpace(s[0]) && !IsSpace(s[|s| - 1]))
  }

  /** `s` without its leading whitespace. */
  function TrimStart(s: string): (r: string)
    ensures |r| <= |s| && r == s[|s| - |r|..]
    ensures AllSpace(s[..|s| - |r|])
    ensures r == [] || !IsSpace(r[0])
  {
    if s != [] && IsSpace(s[0]) then
      var r := TrimStart(s[1..]);
      assert s[..|s| - |r|] == [s[0]] + s[1..][..|s| - 1 - |r|];
      r
    else
      s
  }

  /** `s` without its trailing whitespace. */
  function TrimEnd(s: string): (r: string)
    ensures |r| <= |s| && r == s[..|r|]
    ensures AllSpace(s[|r|..])
    ensures r == [] || !IsSpace(r[|r| - 1])
  {
    if s != [] && IsSpace(s[|s| - 1]) then
      var r := TrimEnd(s[..|s| - 1]);
      assert s[|r|..] == s[..|s| - 1][|r|..] + [s[|s| - 1]];
      r
    else
      s
  }

  /** Python's `s.strip()`: `s` without its leading and trailing whitespace. */
  function Strip(s: string): (r: string)
    ensures Trimmed(r)
  {
    TrimEnd(TrimStart(s))
  }

  /** What `strip` removes is whitespace from both ends and nothing else. */
  lemma StripSplits(s: string)
    ensures exists p, q :: AllSpace(p) && AllSpace(q) && s == p + Strip(s) + q
  {
    var t := TrimStart(s);
    var r := Strip(s);
    Split(s, t, r);
    assert AllSpace(s[..|s| - |t|]) && AllSpace(t[|r|..]);
  }

  lemma Split(s: string, t: string, r: string)
    requires |t| <= |s| && t == s[|s| - |t|..]
    requires |r| <= |t| && r == t[..|r|]
    ensures s == s[..|s| - |t|] + r + t[|r|..]
  {
    assert t == r + t[|r|..];
    assert s == s[..|s| - |t|] + t;
  }

  lemma {:induction false} TrimStartPadded(p: string, s: string)
    requires AllSpace(p) && (s == [] || !IsSpace(s[0]))
    ensures TrimStart(p + s) == s
  {
    if p == [] {
      assert p + s == s;
    } else {
      assert (p + s)[0] == p[0];
      assert (p + s)[1..] == p[1..] + s;
      TrimStartPadded(p[1..], s);
    }
  }

  lemma {:induction false} TrimEndPadded(s: string, q: string)
    requires AllSpace(q) && (s == [] || !IsSpace(s[|s| - 1]))
    ensures TrimEnd(s + q) == s
  {
    if q == [] {
      assert s + q == s;
    } else {
      assert (s + q)[|s + q| - 1] == q[|q| - 1];
      assert (s + q)[..|s + q| - 1] == s + q[..|q| - 1];
      TrimEndPadded(s, q[..|q| - 1]);
    }
  }

  lemma AllSpaceConcat(a: string, b: string)
    requires AllSpace(a) && AllSpace(b)
    ensures AllSpace(a + b)
  {
    forall i | 0 <= i < |a + b| ensures IsSpace((a + b)[i]) {
      if i < |a| { assert (a + b)[i] == a[i]; } else { assert (a + b)[i] == b[i - |a|]; }
    }
  }

  lemma Regroup(p: string, s: string, q: string, p': string, r: string, q': string)
    requires s == p' + r + q'
    ensures p + s + q == (p + p') + r + (q' + q)
  {
  }

  /** Whitespace around a trimmed string is exactly what `strip` removes. */
  lemma StripPadded(p: string, s: string, q: string)
    requires AllSpace(p) && Trimmed(s) && AllSpace(q)
    ensures Strip(p + s + q) == s
  {
    if s == [] {
      assert AllSpace(p + q);
      AllSpaceStripsToEmpty(p + q);
      assert p + s + q == p + q;
    } else {
      assert p + s + q == p + (s + q);
      TrimStartPadded(p, s + q);
      TrimEndPadded(s, q);
    }
  }

  /** A string of whitespace only strips to the empty string. */
  lemma AllSpaceStripsToEmpty(s: string)
    requires AllSpace(s)
    ensures Strip(s) == ""
  {
  }

  /** `strip` leaves a string alone exactly when it is already trimmed. */
  lemma StripFixesExactlyTrimmed(s: string)
    ensures Strip(s) == s <==> Trimmed(s)
  {
    if Trimmed(s) {
      StripPadded("", s, "");
      assert "" + s + "" == s;
    }
  }

  /** Stripping twice is stripping once. */
  lemma StripIdempotent(s: string)
    ensures Strip(Strip(s)) == Strip(s)
  {
    StripFixesExactlyTrimmed(Strip(s));
  }

  /** Stripping ignores whitespace added around its argument. */
  lemma StripIgnoresPadding(p: string, s: string, q: string)
    requires AllSpace(p) && AllSpace(q)
    ensures Strip(p + s + q) == Strip(s)
  {
    StripSplits(s);
    var p', q' :| AllSpace(p') && AllSpace(q') && s == p' + Strip(s) + q';
    var r := Strip(s);
    Regroup(p, s, q, p', r, q');
    AllSpaceConcat(p, p');
    AllSpaceConcat(q', q);
    StripPadded(p + p', r, q' + q);
  }

  /** `c * n` in Python, for a one-character string `c`: `n` copies of `c`. */
  function Repeat(c: char, n: nat): (r: string)
    ensures |r| == n
    ensures forall i :: 0 <= i < n ==> r[i] == c
  {
    if n == 0 then "" else Repeat(c, n - 1) + [c]
  }
}
