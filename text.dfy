/** String helpers with the semantics of the JavaScript built-ins the server uses:
    `Array.prototype.join`, `String.prototype.trim` and the regular-expression class `\s`. */
module Text {

  /** `parts.join(sep)`. */
  function Join(sep: string, parts: seq<string>): (r: string)
    ensures |parts| > 0 ==> StartsWith(r, parts[0]) && EndsWith(r, parts[|parts| - 1])
  {
    if |parts| == 0 then ""
    else if |parts| == 1 then parts[0]
    else
      var init := Join(sep, parts[..|parts| - 1]);
      var r := init + sep + parts[|parts| - 1];
      assert parts[..|parts| - 1][0] == parts[0];
      assert r[..|parts[0]|] == init[..|parts[0]|];
      assert r[|r| - |parts[|parts| - 1]|..] == parts[|parts| - 1];
      r
  }

  /** Joining one more part appends the separator and that part, so the parts
      appear in the joined text in their original order. */
  lemma {:induction false} JoinSnoc(sep: string, parts: seq<string>, last: string)
    requires |parts| > 0
    ensures Join(sep, parts + [last]) == Join(sep, parts) + sep + last
  {
    assert (parts + [last])[..|parts|] == parts;
  }

  /** The characters matched by `\s` and removed by `trim()`: ECMAScript
      WhiteSpace and LineTerminator code points (tab, line feed, line
      tabulation, form feed, carriage return, space, no-break space, the
      Unicode space separators, the line and paragraph separators and the
      zero-width no-break space). */
  predicate IsWhitespace(c: char)
  {
    ('\t' <= c <= '\r') || c == ' ' || c == '\U{A0}' || c == '\U{1680}' || ('\U{2000}' <= c <= '\U{200A}')
    || c == '\U{2028}' || c == '\U{2029}' || c == '\U{202F}' || c == '\U{205F}' || c == '\U{3000}' || c == '\U{FEFF}'
  }

  /** Every character of `s` is whitespace. */
  predicate AllWhitespace(s: string)
  {
    forall i :: 0 <= i < |s| ==> IsWhitespace(s[i])
  }

  /** The length of the leading whitespace run: what a leading `\s*` in a
      regular expression matches. */
  function LeadingWhitespace(s: string): (n: nat)
    ensures n <= |s|
  {
    if |s| > 0 && IsWhitespace(s[0]) then 1 + LeadingWhitespace(s[1..]) else 0
  }

  /** The run holds whitespace only, and the character after it is not whitespace. */
  lemma {:induction false} LeadingWhitespaceMaximal(s: string)
    ensures forall i :: 0 <= i < LeadingWhitespace(s) ==> IsWhitespace(s[i])
    ensures LeadingWhitespace(s) < |s| ==> !IsWhitespace(s[LeadingWhitespace(s)])
  {
    if |s| > 0 && IsWhitespace(s[0]) {
      LeadingWhitespaceMaximal(s[1..]);
      assert forall i :: 1 <= i < |s| ==> s[i] == s[1..][i - 1];
    }
  }

  /** The length of the trailing whitespace run: what `\s*` before a final anchor matches. */
  function TrailingWhitespace(s: string): (n: nat)
    ensures n <= |s|
  {
    if |s| > 0 && IsWhitespace(s[|s| - 1]) then 1 + TrailingWhitespace(s[..|s| - 1]) else 0
  }

  /** The run holds whitespace only, and the character before it is not whitespace. */
  lemma {:induction false} TrailingWhitespaceMaximal(s: string)
    ensures forall i :: |s| - TrailingWhitespace(s) <= i < |s| ==> IsWhitespace(s[i])
    ensures TrailingWhitespace(s) < |s| ==> !IsWhitespace(s[|s| - 1 - TrailingWhitespace(s)])
  {
    if |s| > 0 && IsWhitespace(s[|s| - 1]) {
      TrailingWhitespaceMaximal(s[..|s| - 1]);
      assert forall i :: 0 <= i < |s| - 1 ==> s[i] == s[..|s| - 1][i];
    }
  }

  /** `trimStart()`: the text after the leading whitespace run. */
  function TrimStart(s: string): (r: string)
    ensures |r| <= |s| && r == s[|s| - |r|..]
  {
    s[LeadingWhitespace(s)..]
  }

  /** `TrimStart` removes whitespace only, and all of it. */
  lemma TrimStartMaximal(s: string)
    ensures AllWhitespace(s[..|s| - |TrimStart(s)|])
    ensures TrimStart(s) == [] || !IsWhitespace(TrimStart(s)[0])
  {
    LeadingWhitespaceMaximal(s);
    var w := s[..LeadingWhitespace(s)];
    assert forall i :: 0 <= i < |w| ==> w[i] == s[i];
  }

  /** `trimEnd()`: the text before the trailing whitespace run. */
  function TrimEnd(s: string): (r: string)
    ensures |r| <= |s| && r == s[..|r|]
  {
    s[..|s| - TrailingWhitespace(s)]
  }

  /** `TrimEnd` removes whitespace only, and all of it. */
  lemma TrimEndMaximal(s: string)
    ensures AllWhitespace(s[|TrimEnd(s)|..])
    ensures TrimEnd(s) == [] || !IsWhitespace(TrimEnd(s)[|TrimEnd(s)| - 1])
  {
    TrailingWhitespaceMaximal(s);
    var k := |s| - TrailingWhitespace(s);
    var w := s[k..];
    assert forall i :: 0 <= i < |w| ==> w[i] == s[k + i];
  }

  /** `s.trim()`: a contiguous slice of `s` that neither starts nor ends with
      whitespace, obtained by dropping whitespace only. */
  function Trim(s: string): (r: string)
    ensures |r| <= |s|
  {
    TrimEnd(TrimStart(s))
  }

  /** `trim()` keeps a contiguous slice and drops only whitespace around it. */
  lemma TrimIsSlice(s: string) returns (a: nat)
    ensures a + |Trim(s)| <= |s| && Trim(s) == s[a..a + |Trim(s)|]
    ensures AllWhitespace(s[..a]) && AllWhitespace(s[a + |Trim(s)|..])
  {
    var t := TrimStart(s);
    a := |s| - |t|;
    TrimStartMaximal(s);
    TrimEndMaximal(t);
    assert Trim(s) == TrimEnd(t);
    WhitespaceTail(s, t, Trim(s));
  }

  /** What `trim()` keeps neither starts nor ends with whitespace. */
  lemma TrimBoundaries(s: string)
    ensures Trim(s) == [] || (!IsWhitespace(Trim(s)[0]) && !IsWhitespace(Trim(s)[|Trim(s)| - 1]))
  {
    var t := TrimStart(s);
    TrimStartMaximal(s);
    TrimEndMaximal(t);
    TrimEndKeepsFirst(t);
  }

  /** The whitespace after the end-trimmed part of a suffix `t` of `s` is also a tail of `s`. */
  lemma WhitespaceTail(s: string, t: string, r: string)
    requires |t| <= |s| && t == s[|s| - |t|..]
    requires |r| <= |t| && r == t[..|r|]
    requires AllWhitespace(t[|r|..])
    ensures r == s[|s| - |t|..|s| - |t| + |r|]
    ensures AllWhitespace(s[|s| - |t| + |r|..])
  {
    assert s[|s| - |t| + |r|..] == t[|r|..];
  }

  /** Trimming the end of a string that does not start with whitespace keeps that first character. */
  lemma TrimEndKeepsFirst(t: string)
    requires t == [] || !IsWhitespace(t[0])
    ensures TrimEnd(t) == [] || !IsWhitespace(TrimEnd(t)[0])
  {
    if TrimEnd(t) != [] {
      assert TrimEnd(t)[0] == t[0];
    }
  }

  /** A string that neither starts nor ends with whitespace is its own trim. */
  lemma TrimNoop(s: string)
    requires s == [] || (!IsWhitespace(s[0]) && !IsWhitespace(s[|s| - 1]))
    ensures Trim(s) == s
  {
  }

  predicate StartsWith(s: string, prefix: string)
  {
    |prefix| <= |s| && s[..|prefix|] == prefix
  }

  predicate EndsWith(s: string, suffix: string)
  {
    |suffix| <= |s| && s[|s| - |suffix|..] == suffix
  }
}
