/**
 * The two regular expressions `get_sites` applies to an nginx site file:
 * `GENESIS ((?:[a-z][a-z]+))` (case-insensitive) on the first comment, and
 * `(\d+)\s*(.*)` on the `listen` value, both anchored at the start (`re.match`).
 */
module SiteMatch {
  import opened Wrappers
  import opened Text

  predicate IsSpace(c: char) { c == ' ' || c == '\t' || c == '\n' || c == '\r' || c == '\U{000B}' || c == '\U{000C}' }
  predicate IsLetter(c: char) { 'a' <= c <= 'z' || 'A' <= c <= 'Z' }
  predicate NotNewline(c: char) { c != '\n' }

  /** Length of the longest prefix of `s` whose characters all satisfy `p` (a greedy regex run). */
  function Span(s: string, p: char -> bool): (n: nat)
    ensures n <= |s|
    ensures forall i :: 0 <= i < n ==> p(s[i])
    ensures n == |s| || !p(s[n])
  {
    if |s| == 0 || !p(s[0]) then 0 else 1 + Span(s[1..], p)
  }

  /** A run of `p` characters followed by a non-`p` character (or the end) is exactly what `Span` measures. */
  lemma {:induction false} SpanOfPrefix(a: string, b: string, p: char -> bool)
    requires forall i :: 0 <= i < |a| ==> p(a[i])
    requires b == [] || !p(b[0])
    ensures Span(a + b, p) == |a|
    decreases |a|
  {
    if |a| > 0 {
      assert (a + b)[1..] == a[1..] + b;
      SpanOfPrefix(a[1..], b, p);
    } else {
      assert a + b == b;
    }
  }

  /** ASCII lower-casing, as the case-insensitive match compares characters. */
  function Lower(c: char): char
  {
    if 'A' <= c <= 'Z' then (c as int + 32) as char else c
  }

  predicate SameIgnoringCase(s: string, t: string)
  {
    |s| == |t| && forall i :: 0 <= i < |s| ==> Lower(s[i]) == Lower(t[i])
  }

  const TypeTag: string := "GENESIS "

  /**
   * `re.match(rtype, comment).group(1)`: the maximal run of two or more letters
   * right after a case-insensitive 'GENESIS ' at the start; `None` where the
   * match object is `None`.
   */
  function MatchType(comment: string): (r: Option<string>)
    ensures r.None? <==>
      !(|comment| >= 10 && SameIgnoringCase(comment[..8], TypeTag) && IsLetter(comment[8]) && IsLetter(comment[9]))
    ensures r.Some? ==>
      && |r.value| >= 2
      && (forall i :: 0 <= i < |r.value| ==> IsLetter(r.value[i]))
      && 8 + |r.value| <= |comment|
      && comment[8..8 + |r.value|] == r.value
      && (8 + |r.value| == |comment| || !IsLetter(comment[8 + |r.value|]))
  {
    if |comment| < 8 || !SameIgnoringCase(comment[..8], TypeTag) then None
    else
      var n := Span(comment[8..], IsLetter);
      if n < 2 then None else Some(comment[8..8 + n])
  }

  /** The type match on a comment made of the tag, a letter run and a tail not starting with a letter. */
  lemma TypeDecomposition(tag: string, t: string, rest: string)
    requires SameIgnoringCase(tag, TypeTag)
    requires |t| >= 2 && forall i :: 0 <= i < |t| ==> IsLetter(t[i])
    requires rest == [] || !IsLetter(rest[0])
    ensures MatchType(tag + t + rest) == Some(t)
  {
    var c := tag + t + rest;
    assert c[..8] == tag;
    assert c[8..] == t + rest;
    SpanOfPrefix(t, rest, IsLetter);
    assert c[8..8 + |t|] == t;
  }

  /**
   * `re.match(rport, value).group(1, 2)`: the maximal leading digit run, and
   * what follows the whitespace after it, up to the end of the line; `None`
   * where the value does not start with a digit.
   */
  function MatchListen(v: string): (r: Option<(string, string)>)
    ensures r.None? <==> v == [] || !IsDigit(v[0])
    ensures r.Some? ==>
      && |r.value.0| >= 1
      && (forall i :: 0 <= i < |r.value.0| ==> IsDigit(r.value.0[i]))
      && |r.value.0| <= |v|
      && v[..|r.value.0|] == r.value.0
      && (|r.value.0| == |v| || !IsDigit(v[|r.value.0|]))
      && (forall i :: 0 <= i < |r.value.1| ==> r.value.1[i] != '\n')
  {
    var d := Span(v, IsDigit);
    if d == 0 then None
    else
      var after := v[d..];
      var rest := after[Span(after, IsSpace)..];
      var e := Span(rest, NotNewline);
      Some((v[..d], rest[..e]))
  }

  /**
   * The listen match on a value made of a digit run, whitespace, a rest of
   * line that does not start with whitespace, and a tail starting at a line
   * break: the port is the digit run and the second group is the rest of line.
   */
  lemma ListenDecomposition(port: string, ws: string, ssl: string, tail: string)
    requires |port| >= 1 && forall i :: 0 <= i < |port| ==> IsDigit(port[i])
    requires forall i :: 0 <= i < |ws| ==> IsSpace(ws[i])
    requires forall i :: 0 <= i < |ssl| ==> ssl[i] != '\n'
    requires ssl + tail == [] || !IsSpace((ssl + tail)[0])
    requires tail == [] || tail[0] == '\n'
    requires ws + ssl + tail == [] || !IsDigit((ws + ssl + tail)[0])
    ensures MatchListen(port + ws + ssl + tail) == Some((port, ssl))
  {
    var rest := ssl + tail;
    var after := ws + rest;
    var v := port + after;
    assert port + ws + ssl + tail == v;
    PrefixRun(port, after, IsDigit);
    PrefixRun(ws, rest, IsSpace);
    PrefixRun(ssl, tail, NotNewline);
    ListenSpans(v, port, after, rest, ssl);
  }

  /** `Span` of a run followed by a non-member, with the two slices it induces. */
  lemma PrefixRun(a: string, b: string, p: char -> bool)
    requires forall i :: 0 <= i < |a| ==> p(a[i])
    requires b == [] || !p(b[0])
    ensures Span(a + b, p) == |a|
    ensures (a + b)[..|a|] == a && (a + b)[|a|..] == b
  {
    SpanOfPrefix(a, b, p);
  }

  /** `MatchListen` in terms of its three greedy runs. */
  lemma ListenSpans(v: string, port: string, after: string, rest: string, ssl: string)
    requires |port| >= 1 && Span(v, IsDigit) == |port|
    requires v[..|port|] == port && v[|port|..] == after
    requires Span(after, IsSpace) <= |after| && after[Span(after, IsSpace)..] == rest
    requires Span(rest, NotNewline) == |ssl| && rest[..|ssl|] == ssl
    ensures MatchListen(v) == Some((port, ssl))
  {
  }
}
