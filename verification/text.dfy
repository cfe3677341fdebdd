/** The JavaScript string built-ins that the request wrapper relies on:
    `String.prototype.trim`, `toLowerCase`/`toUpperCase` (ASCII letters
    only) and the first piece of `split(sep)`. */
module Text {

  /** The characters `trim` removes: ECMAScript's WhiteSpace (tab, vertical
      tab, form feed, ZWNBSP and every space separator) and LineTerminator
      (LF, CR, LS, PS). */
  predicate IsWhiteSpace(c: char) {
    || c == '\t' || c == '\n' || c == '\U{000B}' || c == '\U{000C}' || c == '\r'
    || c == ' ' || c == '\U{00A0}' || c == '\U{1680}'
    || ('\U{2000}' <= c <= '\U{200A}')
    || c == '\U{2028}' || c == '\U{2029}' || c == '\U{202F}' || c == '\U{205F}'
    || c == '\U{3000}' || c == '\U{FEFF}'
  }

  predicate AllWhiteSpace(s: string) {
    forall i :: 0 <= i < |s| ==> IsWhiteSpace(s[i])
  }

  /** `s` with its leading white space removed. */
  function TrimStart(s: string): (r: string)
    ensures |r| <= |s| && r == s[|s| - |r|..]
    ensures r == [] || !IsWhiteSpace(r[0])
    ensures forall i :: 0 <= i < |s| - |r| ==> IsWhiteSpace(s[i])
  {
    if s != [] && IsWhiteSpace(s[0]) then TrimStart(s[1..]) else s
  }

  /** `s` with its trailing white space removed. */
  function TrimEnd(s: string): (r: string)
    ensures |r| <= |s| && r == s[..|r|]
    ensures r == [] || !IsWhiteSpace(r[|r| - 1])
    ensures forall i :: |r| <= i < |s| ==> IsWhiteSpace(s[i])
  {
    if s != [] && IsWhiteSpace(s[|s| - 1]) then TrimEnd(s[..|s| - 1]) else s
  }

  /** `String.prototype.trim`: `s` without white space at either end. */
  function Trim(s: string): (r: string)
    ensures r == [] || (!IsWhiteSpace(r[0]) && !IsWhiteSpace(r[|r| - 1]))
  {
    TrimEnd(TrimStart(s))
  }

  /** `trim` only removes white space, and only at the ends: the result is
      a slice of `s` with nothing but white space around it. */
  lemma TrimRemovesOnlyWhiteSpace(s: string)
    ensures exists lo :: 0 <= lo <= |s| - |Trim(s)| && Trim(s) == s[lo..lo + |Trim(s)|]
                         && AllWhiteSpace(s[..lo]) && AllWhiteSpace(s[lo + |Trim(s)|..])
  {
    var t := TrimStart(s);
    var r := TrimEnd(t);
    var lo := |s| - |t|;
    assert r == s[lo..lo + |r|];
    assert AllWhiteSpace(s[..lo]);
    assert AllWhiteSpace(s[lo + |r|..]) by {
      forall j | lo + |r| <= j < |s|
        ensures IsWhiteSpace(s[j])
      {
        assert s[j] == t[j - lo];
      }
    }
  }

  /** A string without white space at either end is its own trim. */
  lemma TrimOfUnpadded(s: string)
    requires s == [] || (!IsWhiteSpace(s[0]) && !IsWhiteSpace(s[|s| - 1]))
    ensures Trim(s) == s
  {
    assert TrimStart(s) == s;
  }

  predicate IsAsciiUpper(c: char) { 'A' <= c <= 'Z' }

  predicate IsAsciiLower(c: char) { 'a' <= c <= 'z' }

  /** No ASCII upper-case letter occurs in `s`. */
  predicate IsLowerCase(s: string) {
    forall i :: 0 <= i < |s| ==> !IsAsciiUpper(s[i])
  }

  /** No ASCII lower-case letter occurs in `s`. */
  predicate IsUpperCase(s: string) {
    forall i :: 0 <= i < |s| ==> !IsAsciiLower(s[i])
  }

  function LowerChar(c: char): (d: char)
    ensures !IsAsciiUpper(d)
    ensures IsWhiteSpace(d) == IsWhiteSpace(c)
    ensures d == ';' <==> c == ';'
  {
    if IsAsciiUpper(c) then (c as int + 32) as char else c
  }

  function UpperChar(c: char): (d: char)
    ensures !IsAsciiLower(d)
  {
    if IsAsciiLower(c) then (c as int - 32) as char else c
  }

  /** `toLowerCase`, restricted to the ASCII letters. */
  function ToLower(s: string): (r: string)
    ensures |r| == |s| && IsLowerCase(r)
    ensures forall i :: 0 <= i < |s| ==> r[i] == LowerChar(s[i])
  {
    seq(|s|, i requires 0 <= i < |s| => LowerChar(s[i]))
  }

  /** `toUpperCase`, restricted to the ASCII letters. */
  function ToUpper(s: string): (r: string)
    ensures |r| == |s| && IsUpperCase(r)
    ensures forall i :: 0 <= i < |s| ==> r[i] == UpperChar(s[i])
  {
    seq(|s|, i requires 0 <= i < |s| => UpperChar(s[i]))
  }

  /** The first piece of `s.split(sep)`: everything before the first `sep`,
      or all of `s` when `sep` does not occur. */
  function BeforeFirst(s: string, sep: char): (r: string)
    ensures |r| <= |s| && r == s[..|r|]
    ensures sep !in r
    ensures |r| < |s| ==> s[|r|] == sep
  {
    if s == [] || s[0] == sep then [] else [s[0]] + BeforeFirst(s[1..], sep)
  }

  /** When `sep` does not occur in `head`, what follows `head + [sep]` is
      never part of the first piece. */
  lemma BeforeFirstStopsAtSeparator(head: string, sep: char, rest: string)
    requires sep !in head
    ensures BeforeFirst(head + [sep] + rest, sep) == head
  {
    var s := head + [sep] + rest;
    assert s[|head|] == sep;
    assert s[..|head|] == head;
  }

  /** A string without `sep` is its own first piece. */
  lemma BeforeFirstWithoutSeparator(s: string, sep: char)
    requires sep !in s
    ensures BeforeFirst(s, sep) == s
  {
  }

  /** Lower-casing commutes with taking the first piece (`sep` is not a
      letter, so lower-casing neither creates nor removes it). */
  lemma {:induction false} BeforeFirstOfLower(s: string)
    ensures BeforeFirst(ToLower(s), ';') == ToLower(BeforeFirst(s, ';'))
  {
    if s != [] && s[0] != ';' {
      var rest := BeforeFirst(s[1..], ';');
      calc {
        BeforeFirst(ToLower(s), ';');
        { assert ToLower(s)[0] == LowerChar(s[0]) != ';'; }
        [LowerChar(s[0])] + BeforeFirst(ToLower(s)[1..], ';');
        { assert ToLower(s)[1..] == ToLower(s[1..]); }
        [LowerChar(s[0])] + BeforeFirst(ToLower(s[1..]), ';');
        { BeforeFirstOfLower(s[1..]); }
        [LowerChar(s[0])] + ToLower(rest);
        { assert ToLower([s[0]] + rest) == [LowerChar(s[0])] + ToLower(rest); }
        ToLower([s[0]] + rest);
      }
    }
  }

  /** Leading white space never survives `TrimStart`. */
  lemma {:induction false} TrimStartSkipsWhiteSpace(w: string, x: string)
    requires AllWhiteSpace(w)
    ensures TrimStart(w + x) == TrimStart(x)
  {
    if w != [] {
      var s := w + x;
      assert s[0] == w[0];
      assert s[1..] == w[1..] + x;
      assert TrimStart(s) == TrimStart(s[1..]);
      TrimStartSkipsWhiteSpace(w[1..], x);
    } else {
      assert w + x == x;
    }
  }

  /** Trailing white space never survives `TrimEnd`. */
  lemma {:induction false} TrimEndSkipsWhiteSpace(x: string, w: string)
    requires AllWhiteSpace(w)
    ensures TrimEnd(x + w) == TrimEnd(x)
  {
    if w != [] {
      var s, n := x + w, |w| - 1;
      assert s[|s| - 1] == w[n];
      assert s[..|s| - 1] == x + w[..n];
      assert TrimEnd(s) == TrimEnd(s[..|s| - 1]);
      TrimEndSkipsWhiteSpace(x, w[..n]);
    } else {
      assert x + w == x;
    }
  }

  /** Trailing white space appended before `TrimStart` is removed again by
      `TrimEnd`. */
  lemma {:induction false} TrimAppendedWhiteSpace(x: string, w: string)
    requires AllWhiteSpace(w)
    ensures TrimEnd(TrimStart(x + w)) == TrimEnd(TrimStart(x))
  {
    if x == [] {
      assert x + w == w;
    } else if IsWhiteSpace(x[0]) {
      assert (x + w)[1..] == x[1..] + w;
      TrimAppendedWhiteSpace(x[1..], w);
    } else {
      TrimEndSkipsWhiteSpace(x, w);
    }
  }

  /** `trim` ignores white space padding on either side. */
  lemma TrimIgnoresPadding(w1: string, x: string, w2: string)
    requires AllWhiteSpace(w1) && AllWhiteSpace(w2)
    ensures Trim(w1 + x + w2) == Trim(x)
  {
    calc {
      Trim(w1 + x + w2);
      { assert w1 + x + w2 == w1 + (x + w2); }
      TrimEnd(TrimStart(w1 + (x + w2)));
      { TrimStartSkipsWhiteSpace(w1, x + w2); }
      TrimEnd(TrimStart(x + w2));
      { TrimAppendedWhiteSpace(x, w2); }
      TrimEnd(TrimStart(x));
    }
  }

  lemma {:induction false} TrimStartOfLower(s: string)
    ensures TrimStart(ToLower(s)) == ToLower(TrimStart(s))
  {
    if s != [] && IsWhiteSpace(s[0]) {
      assert ToLower(s)[1..] == ToLower(s[1..]);
      TrimStartOfLower(s[1..]);
    }
  }

  lemma {:induction false} TrimEndOfLower(s: string)
    ensures TrimEnd(ToLower(s)) == ToLower(TrimEnd(s))
  {
    if s != [] && IsWhiteSpace(s[|s| - 1]) {
      assert ToLower(s)[..|s| - 1] == ToLower(s[..|s| - 1]);
      TrimEndOfLower(s[..|s| - 1]);
    }
  }

  /** Lower-casing and trimming commute: white space is never a letter. */
  lemma TrimOfLower(s: string)
    ensures Trim(ToLower(s)) == ToLower(Trim(s))
  {
    TrimStartOfLower(s);
    TrimEndOfLower(TrimStart(s));
  }
}
