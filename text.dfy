/**
 * The JavaScript string primitives the core relies on, stated over `seq<char>`:
 * the `\s` character class, `trim`, `split(/\s+/)`, `join(' ')`, ASCII
 * `toLowerCase` and the decimal rendering of an integer in a template string.
 */
module Text {

  function Min(a: int, b: int): int { if a <= b then a else b }

  function Max(a: int, b: int): int { if a >= b then a else b }

  /** `k` is a suffix of `s`. */
  predicate IsSuffix(k: string, s: string) {
    |k| <= |s| && s[|s| - |k|..] == k
  }

  /** JavaScript's `\s`: WhiteSpace and LineTerminator code points (ECMA-262). */
  predicate IsSpace(c: char) {
    c == ' ' || c == '\t' || c == '\U{000B}' || c == '\U{000C}' || c == '\U{00A0}' || c == '\U{FEFF}'
    || c == '\U{1680}' || ('\U{2000}' <= c <= '\U{200A}') || c == '\U{202F}' || c == '\U{205F}'
    || c == '\U{3000}' || IsLineTerminator(c)
  }

  /** The code points that `.` in a regular expression does not match. */
  predicate IsLineTerminator(c: char) {
    c == '\n' || c == '\r' || c == '\U{2028}' || c == '\U{2029}'
  }

  predicate NoSpace(s: string) {
    forall i :: 0 <= i < |s| ==> !IsSpace(s[i])
  }

  predicate NoLineTerminator(s: string) {
    forall i :: 0 <= i < |s| ==> !IsLineTerminator(s[i])
  }

  predicate IsUpper(c: char) { 'A' <= c <= 'Z' }

  /** `toLowerCase` restricted to ASCII: other code points are left as they are. */
  function LowerChar(c: char): (r: char)
    ensures !IsUpper(r)
    ensures IsUpper(c) || r == c
  {
    if IsUpper(c) then (c as int + 32) as char else c
  }

  function Lower(s: string): (r: string)
    ensures |r| == |s|
    ensures forall i :: 0 <= i < |s| ==> r[i] == LowerChar(s[i])
  {
    if s == [] then [] else [LowerChar(s[0])] + Lower(s[1..])
  }

  /** Lowercasing never turns a character into whitespace. */
  lemma LowerKeepsNoSpace(s: string)
    requires NoSpace(s)
    ensures NoSpace(Lower(s))
  {
    forall i | 0 <= i < |s| ensures !IsSpace(Lower(s)[i]) {
      assert !IsSpace(s[i]);
    }
  }

  /** Number of leading characters of `s` that are `\s`. */
  function LeadingSpaces(s: string): (n: nat)
    ensures n <= |s|
    ensures forall i :: 0 <= i < n ==> IsSpace(s[i])
    ensures n == |s| || !IsSpace(s[n])
  {
    if s == [] || !IsSpace(s[0]) then 0 else 1 + LeadingSpaces(s[1..])
  }

  /** Number of trailing characters of `s` that are `\s`. */
  function TrailingSpaces(s: string): (n: nat)
    ensures n <= |s|
    ensures forall i :: |s| - n <= i < |s| ==> IsSpace(s[i])
    ensures n == |s| || !IsSpace(s[|s| - 1 - n])
  {
    if s == [] || !IsSpace(s[|s| - 1]) then 0 else 1 + TrailingSpaces(s[..|s| - 1])
  }

  /** Dropping a prefix that ends before a non-space character keeps the trailing run. */
  lemma {:induction false} TrailingSpacesOfSuffix(s: string, n: nat)
    requires n < |s| && !IsSpace(s[n])
    ensures TrailingSpaces(s[n..]) == TrailingSpaces(s)
    decreases |s|
  {
    if IsSpace(s[|s| - 1]) {
      assert s[n..][..|s[n..]| - 1] == s[..|s| - 1][n..];
      TrailingSpacesOfSuffix(s[..|s| - 1], n);
    }
  }

  /**
   * `String.prototype.trim`: drops the leading and the trailing run of `\s`.
   * A string of whitespace only becomes empty; otherwise exactly the two
   * edge runs go.
   */
  function Trim(s: string): (r: string)
    ensures |r| <= |s|
    ensures r == [] || (!IsSpace(r[0]) && !IsSpace(r[|r| - 1]))
    ensures (s == [] || (!IsSpace(s[0]) && !IsSpace(s[|s| - 1]))) ==> r == s
  {
    var t := s[LeadingSpaces(s)..];
    t[..|t| - TrailingSpaces(t)]
  }

  /** `trim` turns a string of whitespace only into the empty string. */
  lemma TrimAllSpace(s: string)
    requires forall i :: 0 <= i < |s| ==> IsSpace(s[i])
    ensures Trim(s) == []
  {
    assert LeadingSpaces(s) == |s|;
  }

  /**
   * `trim` removes exactly the two edge runs of `\s`: a string with a
   * character other than whitespace keeps what lies between its leading and
   * its trailing run.
   */
  lemma TrimKeepsMiddle(s: string)
    requires LeadingSpaces(s) < |s|
    ensures LeadingSpaces(s) + TrailingSpaces(s) < |s|
    ensures Trim(s) == s[LeadingSpaces(s)..|s| - TrailingSpaces(s)]
  {
    EdgeRunsApart(s);
    var n := LeadingSpaces(s);
    var t := s[n..];
    assert Trim(s) == t[..|t| - TrailingSpaces(t)];
    TrimEndOfSuffix(s, n);
  }

  /** Trimming the end of a suffix that starts at a non-space character. */
  lemma TrimEndOfSuffix(s: string, n: nat)
    requires n < |s| && !IsSpace(s[n])
    ensures TrailingSpaces(s) <= |s| - n
    ensures s[n..][..|s[n..]| - TrailingSpaces(s[n..])] == s[n..|s| - TrailingSpaces(s)]
  {
    TrailingSpacesOfSuffix(s, n);
    SliceOfSuffix(s, n, TrailingSpaces(s));
  }

  /** Unless `s` is all whitespace, its leading and trailing runs do not meet. */
  lemma EdgeRunsApart(s: string)
    requires LeadingSpaces(s) < |s|
    ensures LeadingSpaces(s) + TrailingSpaces(s) < |s|
  {
    assert !IsSpace(s[LeadingSpaces(s)]);
  }

  /** Cutting `k` elements off the end of `s[n..]` leaves `s[n..|s| - k]`. */
  lemma SliceOfSuffix<T>(s: seq<T>, n: nat, k: nat)
    requires n + k <= |s|
    ensures s[n..][..|s[n..]| - k] == s[n..|s| - k]
  {
  }

  /** Length of the longest prefix of `s` free of `\s`. */
  function WordLength(s: string): (n: nat)
    ensures n <= |s|
    ensures forall i :: 0 <= i < n ==> !IsSpace(s[i])
    ensures n == |s| || IsSpace(s[n])
  {
    if s == [] || IsSpace(s[0]) then 0 else 1 + WordLength(s[1..])
  }

  /** Length of the longest suffix of `s` free of `\s`. */
  function NonSpaceSuffix(s: string): (n: nat)
    ensures n <= |s|
    ensures forall i :: |s| - n <= i < |s| ==> !IsSpace(s[i])
    ensures n == |s| || IsSpace(s[|s| - 1 - n])
  {
    if s == [] || IsSpace(s[|s| - 1]) then 0 else 1 + NonSpaceSuffix(s[..|s| - 1])
  }

  /** A prefix that stops at whitespace has the same first word. */
  lemma {:induction false} WordLengthOfPrefix(s: string, j: nat)
    requires j < |s| && IsSpace(s[j])
    ensures WordLength(s[..j]) == WordLength(s)
  {
    if j > 0 && !IsSpace(s[0]) {
      assert s[..j][1..] == s[1..][..j - 1];
      WordLengthOfPrefix(s[1..], j - 1);
    }
  }

  /**
   * `s.split(/\s+/)`: the pieces between maximal runs of `\s`. A leading run
   * yields a first piece "" and a trailing run a last piece "". The pieces
   * are peeled off from the end: the space-free suffix is the last piece,
   * and what lies before the run of `\s` ahead of it is split again.
   */
  function Split(s: string): (r: seq<string>)
    ensures |r| >= 1
    ensures forall k :: 0 <= k < |r| ==> NoSpace(r[k])
    ensures r[0] == s[..WordLength(s)]
    ensures r[|r| - 1] == s[|s| - NonSpaceSuffix(s)..]
    decreases |s|
  {
    var k := NonSpaceSuffix(s);
    if k == |s| then [s]
    else
      var front := s[..|s| - k];
      var j := |front| - TrailingSpaces(front);
      assert IsSpace(s[j]);
      WordLengthOfPrefix(s, j);
      assert s[..j][..WordLength(s)] == s[..WordLength(s)];
      Split(s[..j]) + [s[|s| - k..]]
  }

  /** `words.join(sep)`. */
  function Join(words: seq<string>, sep: string): string {
    if words == [] then ""
    else if |words| == 1 then words[0]
    else words[0] + sep + Join(words[1..], sep)
  }

  predicate EndsWith(s: string, c: char) {
    |s| > 0 && s[|s| - 1] == c
  }

  function DigitChar(d: nat): (c: char)
    requires d < 10
    ensures '0' <= c <= '9'
  {
    ('0' as int + d) as char
  }

  /** Decimal rendering of a natural number, without leading zeros. */
  function NatToString(n: nat): (r: string)
    ensures |r| >= 1
    ensures forall i :: 0 <= i < |r| ==> '0' <= r[i] <= '9'
    ensures (n < 10) == (|r| == 1)
  {
    if n < 10 then [DigitChar(n)] else NatToString(n / 10) + [DigitChar(n % 10)]
  }

  /** `${n}` for an integer `n`. */
  function IntToString(n: int): (r: string)
    ensures |r| >= 1
    ensures forall i :: 0 <= i < |r| ==> r[i] == '-' || '0' <= r[i] <= '9'
    ensures (r[0] == '-') == (n < 0)
  {
    if n < 0 then "-" + NatToString(-n) else NatToString(n)
  }

  lemma {:induction false} NatToStringInjective(m: nat, n: nat)
    requires NatToString(m) == NatToString(n)
    ensures m == n
  {
    if m >= 10 && n >= 10 {
      var rm, rn := NatToString(m), NatToString(n);
      assert rm[..|rm| - 1] == NatToString(m / 10);
      assert rn[..|rn| - 1] == NatToString(n / 10);
      NatToStringInjective(m / 10, n / 10);
      assert DigitChar(m % 10) == rm[|rm| - 1] == DigitChar(n % 10);
    }
  }

  /** Distinct integers render as distinct strings. */
  lemma IntToStringInjective(m: int, n: int)
    requires IntToString(m) == IntToString(n)
    ensures m == n
  {
    var r := IntToString(m);
    if m < 0 && n < 0 {
      assert r[1..] == NatToString(-m) == NatToString(-n);
      NatToStringInjective(-m, -n);
    } else if m >= 0 && n >= 0 {
      NatToStringInjective(m, n);
    }
  }
}
