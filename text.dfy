/** String helpers the widget relies on: the whitespace trimming of
    `String.prototype.trim` and the case folding of `toLowerCase`, over a
    fixed whitespace set and ASCII letters. */
module Text {

  /** The characters `trim` strips: the ECMAScript WhiteSpace and
      LineTerminator code points (tab, vertical tab, form feed, space,
      no-break space, byte order mark, the Unicode space separators,
      line feed, carriage return, line and paragraph separators). */
  predicate IsWhitespace(c: char) {
    c == '\t' || c == '\n' || c == '\U{B}' || c == '\U{C}' || c == '\r' || c == ' '
    || c == '\U{A0}' || c == '\U{1680}' || ('\U{2000}' <= c <= '\U{200A}')
    || c == '\U{2028}' || c == '\U{2029}' || c == '\U{202F}' || c == '\U{205F}'
    || c == '\U{3000}' || c == '\U{FEFF}'
  }

  predicate AllWhitespace(s: string) {
    forall i :: 0 <= i < |s| ==> IsWhitespace(s[i])
  }

  /** Neither end of `s` is whitespace (vacuously true of the empty string). */
  predicate Tight(s: string) {
    s == [] || (!IsWhitespace(s[0]) && !IsWhitespace(s[|s| - 1]))
  }

  /** `s` with its leading whitespace removed. */
  function TrimStart(s: string): string {
    if s != [] && IsWhitespace(s[0]) then TrimStart(s[1..]) else s
  }

  /** `s` with its trailing whitespace removed. */
  function TrimEnd(s: string): string {
    if s != [] && IsWhitespace(s[|s| - 1]) then TrimEnd(s[..|s| - 1]) else s
  }

  /** `String.prototype.trim`: whitespace removed from both ends. */
  function Trim(s: string): string {
    TrimEnd(TrimStart(s))
  }

  /** TrimStart drops a whitespace-only prefix and stops at the first
      character that is not whitespace. */
  lemma {:induction false} TrimStartSplits(s: string) returns (p: string)
    ensures s == p + TrimStart(s) && AllWhitespace(p)
    ensures TrimStart(s) == [] || !IsWhitespace(TrimStart(s)[0])
    decreases |s|
  {
    if s != [] && IsWhitespace(s[0]) {
      var rest := TrimStartSplits(s[1..]);
      p := [s[0]] + rest;
      assert s == [s[0]] + s[1..];
    } else {
      p := [];
    }
  }

  /** TrimEnd drops a whitespace-only suffix and stops at the last
      character that is not whitespace. */
  lemma {:induction false} TrimEndSplits(s: string) returns (q: string)
    ensures s == TrimEnd(s) + q && AllWhitespace(q)
    ensures TrimEnd(s) == [] || !IsWhitespace(TrimEnd(s)[|TrimEnd(s)| - 1])
    decreases |s|
  {
    if s != [] && IsWhitespace(s[|s| - 1]) {
      var rest := TrimEndSplits(s[..|s| - 1]);
      q := rest + [s[|s| - 1]];
      assert s == s[..|s| - 1] + [s[|s| - 1]];
    } else {
      q := [];
    }
  }

  /** Every string is its trimmed form padded with whitespace on both
      sides; with TrimOfPadded this pins Trim down completely. */
  lemma TrimSplit(s: string) returns (p: string, q: string)
    ensures s == p + Trim(s) + q
    ensures AllWhitespace(p) && AllWhitespace(q)
  {
    p := TrimStartSplits(s);
    q := TrimEndSplits(TrimStart(s));
  }

  /** The trimmed text has no whitespace at either end. */
  lemma TrimTight(s: string)
    ensures |Trim(s)| <= |s|
    ensures Tight(Trim(s))
  {
    var t := TrimStart(s);
    var p := TrimStartSplits(s);
    var q := TrimEndSplits(t);
    var r := Trim(s);
    if r != [] {
      assert r[0] == t[0];
    }
  }

  /** The trimmed text is empty exactly when the input is all whitespace
      (which includes the empty input). */
  lemma TrimBlank(s: string)
    ensures Trim(s) == [] <==> AllWhitespace(s)
  {
    var p, q := TrimSplit(s);
    var r := Trim(s);
    if r == [] {
      assert s == p + q;
    } else {
      TrimTight(s);
      assert s[|p|] == r[0];
    }
  }

  /** TrimStart drops exactly a whitespace-only prefix in front of text
      that does not start with whitespace. */
  lemma {:induction false} TrimStartDropsPrefix(p: string, t: string)
    requires AllWhitespace(p)
    requires t == [] || !IsWhitespace(t[0])
    ensures TrimStart(p + t) == t
    decreases |p|
  {
    if p == [] {
      assert p + t == t;
    } else {
      assert (p + t)[1..] == p[1..] + t;
      TrimStartDropsPrefix(p[1..], t);
    }
  }

  /** TrimEnd drops exactly a whitespace-only suffix behind text that does
      not end with whitespace. */
  lemma {:induction false} TrimEndDropsSuffix(t: string, q: string)
    requires AllWhitespace(q)
    requires t == [] || !IsWhitespace(t[|t| - 1])
    ensures TrimEnd(t + q) == t
    decreases |q|
  {
    if q == [] {
      assert t + q == t;
    } else {
      assert (t + q)[..|t + q| - 1] == t + q[..|q| - 1];
      TrimEndDropsSuffix(t, q[..|q| - 1]);
    }
  }

  /** Trimming removes exactly the whitespace around a tight core: for
      whitespace-only `p` and `q` and a core with no whitespace at either
      end, trimming `p + core + q` yields `core`. This is the reference
      description of `trim` that Trim is checked against. */
  lemma {:induction false} TrimOfPadded(p: string, core: string, q: string)
    requires AllWhitespace(p) && AllWhitespace(q) && Tight(core)
    ensures Trim(p + core + q) == core
  {
    if core == [] {
      assert p + core + q == (p + q) + core;
      assert AllWhitespace(p + q);
      TrimStartDropsPrefix(p + q, core);
    } else {
      assert p + core + q == p + (core + q);
      assert (core + q)[0] == core[0];
      TrimStartDropsPrefix(p, core + q);
      TrimEndDropsSuffix(core, q);
    }
  }

  /** Trimming twice changes nothing more. */
  lemma TrimIdempotent(s: string)
    ensures Trim(Trim(s)) == Trim(s)
  {
    var r := Trim(s);
    TrimTight(s);
    assert [] + r + [] == r;
    TrimOfPadded([], r, []);
  }

  /** ASCII case folding of one character (what `toLowerCase` does to
      the letters A-Z; every other character is left as it is). */
  function LowerChar(c: char): (d: char)
  {
    if 'A' <= c <= 'Z' then (c as int - 'A' as int + 'a' as int) as char else c
  }

  /** The upper-case partner of an ASCII lower-case letter. */
  function UpperChar(c: char): (d: char)
  {
    if 'a' <= c <= 'z' then (c as int - 'a' as int + 'A' as int) as char else c
  }

  predicate IsLowerAscii(s: string) {
    forall i :: 0 <= i < |s| ==> 'a' <= s[i] <= 'z'
  }

  /** `toLowerCase`: every character folded, length and order kept. */
  function Lower(s: string): (r: string)
    ensures |r| == |s|
    ensures forall i :: 0 <= i < |s| ==> r[i] == LowerChar(s[i])
  {
    if s == [] then [] else [LowerChar(s[0])] + Lower(s[1..])
  }

  lemma LowerCharMatches(c: char, l: char)
    requires 'a' <= l <= 'z'
    ensures LowerChar(c) == l <==> c == l || c == UpperChar(l)
  {
  }

  /** A string folds to the all-lower-case literal `lit` exactly when it
      spells `lit` with each letter in either case. */
  lemma LowerMatchesLiteral(d: string, lit: string)
    requires IsLowerAscii(lit)
    ensures Lower(d) == lit
            <==> |d| == |lit| && forall i :: 0 <= i < |d| ==> d[i] == lit[i] || d[i] == UpperChar(lit[i])
  {
    if |d| == |lit| {
      forall i | 0 <= i < |d| ensures Lower(d)[i] == lit[i] <==> d[i] == lit[i] || d[i] == UpperChar(lit[i]) {
        LowerCharMatches(d[i], lit[i]);
      }
    }
  }
}
