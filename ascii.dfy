/**
 * The parts of JavaScript's `String.prototype.trim` and `toLowerCase` that the chat
 * route relies on, restricted to ASCII: whitespace is space, tab, line feed, vertical
 * tab, form feed and carriage return, and only `A`..`Z` change case.
 */
module Ascii {

  predicate IsWhitespace(c: char) {
    c == ' ' || c == '\t' || c == '\n' || c == '\U{B}' || c == '\U{C}' || c == '\r'
  }

  predicate AllWhitespace(s: string) {
    forall i :: 0 <= i < |s| ==> IsWhitespace(s[i])
  }

  function LowerChar(c: char): (r: char)
    ensures 'A' <= c <= 'Z' ==> 'a' <= r <= 'z'
    ensures !('A' <= c <= 'Z') ==> r == c
  {
    if 'A' <= c <= 'Z' then (c as int + 32) as char else c
  }

  /** `toLowerCase`: each character lowered on its own; the length never changes. */
  function ToLower(s: string): (r: string)
    ensures |r| == |s|
    ensures forall i :: 0 <= i < |s| ==> r[i] == LowerChar(s[i])
  {
    seq(|s|, i requires 0 <= i < |s| => LowerChar(s[i]))
  }

  /** Drops the leading whitespace: what is dropped is whitespace and what is kept starts with none. */
  function TrimStart(s: string): (r: string)
    ensures |r| <= |s| && r == s[|s| - |r|..]
    ensures AllWhitespace(s[..|s| - |r|])
    ensures r != [] ==> !IsWhitespace(r[0])
  {
    if s != [] && IsWhitespace(s[0]) then TrimStart(s[1..]) else s
  }

  /** Drops the trailing whitespace: what is dropped is whitespace and what is kept ends with none. */
  function TrimEnd(s: string): (r: string)
    ensures |r| <= |s| && r == s[..|r|]
    ensures AllWhitespace(s[|r|..])
    ensures r != [] ==> !IsWhitespace(r[|r| - 1])
  {
    if s != [] && IsWhitespace(s[|s| - 1]) then TrimEnd(s[..|s| - 1]) else s
  }

  /** `trim`: the leading whitespace dropped, then the trailing whitespace. */
  function Trim(s: string): (r: string)
    ensures |r| <= |s|
  {
    TrimEnd(TrimStart(s))
  }

  /**
   * What `trim` keeps is the longest slice of `s` that neither starts nor ends with
   * whitespace: a slice with only whitespace cut away on either side.
   */
  lemma TrimCutsWhitespace(s: string)
    ensures var r := Trim(s);
      && (exists i, j :: 0 <= i <= j <= |s| && r == s[i..j] && AllWhitespace(s[..i]) && AllWhitespace(s[j..]))
      && (r != [] ==> !IsWhitespace(r[0]) && !IsWhitespace(r[|r| - 1]))
  {
    var t := TrimStart(s);
    var i := |s| - |t|;
    var r := TrimEnd(t);
    var j := i + |r|;
    assert r == s[i..j] by { assert t == s[i..]; }
    assert AllWhitespace(s[j..]) by { assert s[j..] == t[|r|..]; }
    assert AllWhitespace(s[..i]);
  }

  /** Whatever whitespace surrounds a word that does not start or end with whitespace, trimming gives the word back. */
  lemma {:induction false} TrimStartOfPadded(p: string, w: string)
    requires AllWhitespace(p)
    requires w != [] ==> !IsWhitespace(w[0])
    ensures TrimStart(p + w) == w
  {
    if p != [] {
      assert (p + w)[1..] == p[1..] + w;
      TrimStartOfPadded(p[1..], w);
    } else {
      assert p + w == w;
    }
  }

  lemma {:induction false} TrimEndOfPadded(w: string, q: string)
    requires AllWhitespace(q)
    requires w != [] ==> !IsWhitespace(w[|w| - 1])
    ensures TrimEnd(w + q) == w
  {
    if q != [] {
      assert (w + q)[..|w + q| - 1] == w + q[..|q| - 1];
      TrimEndOfPadded(w, q[..|q| - 1]);
    } else {
      assert w + q == w;
    }
  }

  lemma TrimOfPadded(p: string, w: string, q: string)
    requires AllWhitespace(p) && AllWhitespace(q)
    requires w != [] && !IsWhitespace(w[0]) && !IsWhitespace(w[|w| - 1])
    ensures Trim(p + w + q) == w
  {
    assert p + w + q == p + (w + q);
    TrimStartOfPadded(p, w + q);
    TrimEndOfPadded(w, q);
  }
}
