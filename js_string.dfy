/**
 * `String.prototype.trim`: removes the ECMAScript white space and line
 * terminator characters from both ends of a string.
 */
module JsString {

  /** WhiteSpace (including every space separator) and LineTerminator characters. */
  predicate IsWhiteSpace(c: char) {
    || c == '\t' || c == '\n' || c == '\U{000B}' || c == '\U{000C}' || c == '\r' || c == ' '
    || c == '\U{00A0}' || c == '\U{1680}' || ('\U{2000}' <= c <= '\U{200A}')
    || c == '\U{2028}' || c == '\U{2029}' || c == '\U{202F}' || c == '\U{205F}'
    || c == '\U{3000}' || c == '\U{FEFF}'
  }

  /** Every character of `s` is white space. */
  predicate AllWhiteSpace(s: string) {
    forall k :: 0 <= k < |s| ==> IsWhiteSpace(s[k])
  }

  /** `s` neither starts nor ends with white space. */
  predicate Trimmed(s: string) {
    s == [] || (!IsWhiteSpace(s[0]) && !IsWhiteSpace(s[|s| - 1]))
  }

  /** Drops the leading white space: what is left is no longer than `s` and does not start with white space. */
  function TrimStart(s: string): (r: string)
    ensures |r| <= |s|
    ensures r == [] || !IsWhiteSpace(r[0])
  {
    if |s| > 0 && IsWhiteSpace(s[0]) then TrimStart(s[1..]) else s
  }

  /** Drops the trailing white space: what is left is a prefix of `s` that does not end with white space. */
  function TrimEnd(s: string): (r: string)
    ensures |r| <= |s| && r == s[..|r|]
    ensures r == [] || !IsWhiteSpace(r[|r| - 1])
  {
    if |s| > 0 && IsWhiteSpace(s[|s| - 1]) then TrimEnd(s[..|s| - 1]) else s
  }

  /** `s.trim()`: no longer than `s`, and with white space at neither end. */
  function Trim(s: string): (r: string)
    ensures |r| <= |s|
    ensures Trimmed(r)
  {
    var t := TrimStart(s);
    var r := TrimEnd(t);
    assert r != [] ==> r[0] == t[0];
    r
  }

  /** What the start trim leaves is a suffix of `s`. */
  lemma {:induction false} TrimStartIsSuffix(s: string)
    ensures TrimStart(s) == s[|s| - |TrimStart(s)|..]
    decreases |s|
  {
    if |s| > 0 && IsWhiteSpace(s[0]) {
      TrimStartIsSuffix(s[1..]);
      assert s[1..][|s| - 1 - |TrimStart(s)|..] == s[|s| - |TrimStart(s)|..];
    }
  }

  /** Everything the start trim drops is white space. */
  lemma {:induction false} TrimStartDropsWhiteSpace(s: string)
    ensures AllWhiteSpace(s[..|s| - |TrimStart(s)|])
    decreases |s|
  {
    if |s| > 0 && IsWhiteSpace(s[0]) {
      var n := |s| - |TrimStart(s)|;
      TrimStartDropsWhiteSpace(s[1..]);
      assert s[..n] == [s[0]] + s[1..][..n - 1];
    }
  }

  /** Everything the end trim drops is white space. */
  lemma {:induction false} TrimEndDropsWhiteSpace(s: string)
    ensures AllWhiteSpace(s[|TrimEnd(s)|..])
    decreases |s|
  {
    if |s| > 0 && IsWhiteSpace(s[|s| - 1]) {
      var n := |TrimEnd(s)|;
      TrimEndDropsWhiteSpace(s[..|s| - 1]);
      assert s[n..] == s[..|s| - 1][n..] + [s[|s| - 1]];
    }
  }

  /** Splits `s` into the white space before its trim, the trim, and the white space after it. */
  lemma SplitAroundTrim(s: string) returns (a: string, b: string)
    ensures s == a + Trim(s) + b
    ensures AllWhiteSpace(a) && AllWhiteSpace(b)
  {
    var t := TrimStart(s);
    var r := TrimEnd(t);
    TrimStartIsSuffix(s);
    TrimStartDropsWhiteSpace(s);
    TrimEndDropsWhiteSpace(t);
    var n := |s| - |t|;
    a, b := s[..n], t[|r|..];
    assert s == s[..n] + s[n..];
    assert t == t[..|r|] + t[|r|..];
    assert Trim(s) == r;
    assert s == a + (r + b);
  }

  /** Leading white space is skipped whatever follows it. */
  lemma {:induction false} TrimStartSkipsWhiteSpace(a: string, y: string)
    requires AllWhiteSpace(a)
    ensures TrimStart(a + y) == TrimStart(y)
    decreases |a|
  {
    if a != [] {
      assert (a + y)[0] == a[0];
      assert (a + y)[1..] == a[1..] + y;
      TrimStartSkipsWhiteSpace(a[1..], y);
    } else {
      assert a + y == y;
    }
  }

  /** Trailing white space is skipped whatever precedes it. */
  lemma {:induction false} TrimEndSkipsWhiteSpace(y: string, b: string)
    requires AllWhiteSpace(b)
    ensures TrimEnd(y + b) == TrimEnd(y)
    decreases |b|
  {
    if b != [] {
      assert (y + b)[|y + b| - 1] == b[|b| - 1];
      assert (y + b)[..|y + b| - 1] == y + b[..|b| - 1];
      TrimEndSkipsWhiteSpace(y, b[..|b| - 1]);
    } else {
      assert y + b == y;
    }
  }

  /** The trim is empty exactly when the string is empty or white space only. */
  lemma TrimEmptyIffAllWhiteSpace(s: string)
    ensures Trim(s) == [] <==> AllWhiteSpace(s)
  {
    var a, b := SplitAroundTrim(s);
    if Trim(s) == [] {
      assert s == a + b;
      AllWhiteSpaceConcat(a, b);
    } else {
      // the first character of the trim is not white space
      assert s[|a|] == Trim(s)[0];
    }
  }

  /** A string without white space at either end, padded with white space, trims back to itself. */
  lemma TrimOfPadded(a: string, m: string, b: string)
    requires AllWhiteSpace(a) && AllWhiteSpace(b) && Trimmed(m)
    ensures Trim(a + m + b) == m
  {
    assert a + m + b == a + (m + b);
    TrimStartSkipsWhiteSpace(a, m + b);
    if m == [] {
      assert m + b == b;
      TrimEmptyIffAllWhiteSpace(b);
    } else {
      assert (m + b)[0] == m[0];
      assert TrimStart(m + b) == m + b;
      TrimEndSkipsWhiteSpace(m, b);
      assert TrimEnd(m) == m;
    }
  }

  /** Trimming twice is trimming once. */
  lemma TrimIdempotent(s: string)
    ensures Trim(Trim(s)) == Trim(s)
  {
    var m := Trim(s);
    assert [] + m + [] == m;
    TrimOfPadded([], m, []);
  }

  lemma AllWhiteSpaceConcat(x: string, y: string)
    requires AllWhiteSpace(x) && AllWhiteSpace(y)
    ensures AllWhiteSpace(x + y)
  {
    forall k | 0 <= k < |x + y| ensures IsWhiteSpace((x + y)[k]) {
      if k < |x| { assert (x + y)[k] == x[k]; } else { assert (x + y)[k] == y[k - |x|]; }
    }
  }

  lemma Regroup(pre: string, a: string, m: string, b: string, post: string)
    ensures pre + (a + m + b) + post == (pre + a) + m + (b + post)
  {
  }

  /** White space added around a string does not change its trim. */
  lemma TrimIgnoresPadding(pre: string, s: string, post: string)
    requires AllWhiteSpace(pre) && AllWhiteSpace(post)
    ensures Trim(pre + s + post) == Trim(s)
  {
    var a, b := SplitAroundTrim(s);
    var m := Trim(s);
    Regroup(pre, a, m, b, post);
    AllWhiteSpaceConcat(pre, a);
    AllWhiteSpaceConcat(b, post);
    TrimOfPadded(pre + a, m, b + post);
  }
}
