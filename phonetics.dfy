/**
 * The Dutch phonetic toolkit of src/services/phonetics.ts: an ordered
 * literal-rewrite transcriber, the rhyme-key extractor, the syllable
 * heuristic, the stress list, Levenshtein distance and the assonance test.
 * Each regular expression of the source is written out as an explicit scan.
 */
module Phonetics {
  import opened Wrappers
  import opened Text

  /** One entry of a rewrite table: every `pattern` becomes `sound`. */
  datatype Rule = Rule(pattern: string, sound: string)

  /** VOWEL_PATTERNS, in its declaration order (the order `Object.entries` yields). */
  const VOWEL_PATTERNS: seq<Rule> := [
    Rule("ui", "œy"), Rule("ij", "ɛi"), Rule("ei", "ɛi"), Rule("oe", "u"),
    Rule("ou", "ʌu"), Rule("au", "ʌu"), Rule("ie", "i"), Rule("eu", "ø"),
    Rule("aa", "a"), Rule("ee", "e"), Rule("oo", "o"), Rule("uu", "y"),
    Rule("a", "a"), Rule("e", "ɛ"), Rule("i", "ɪ"), Rule("o", "ɔ"), Rule("u", "ʏ")
  ]

  /** CONSONANT_CLUSTERS, in its declaration order. */
  const CONSONANT_CLUSTERS: seq<Rule> := [
    Rule("sch", "sx"), Rule("ch", "x"), Rule("ng", "ŋ"),
    Rule("nk", "ŋk"), Rule("sj", "ʃ"), Rule("tj", "tʃ")
  ]

  predicate WellFormed(rules: seq<Rule>) {
    forall k :: 0 <= k < |rules| ==> |rules[k].pattern| > 0
  }

  // ---------------------------------------------------------------------
  // phonemize
  // ---------------------------------------------------------------------

  /**
   * `s.replace(new RegExp(pattern, 'g'), sound)` for a pattern without
   * metacharacters: occurrences are found left to right, do not overlap, and
   * the inserted `sound` is never scanned again by the same rule.
   */
  function ReplaceAll(s: string, pattern: string, sound: string): (r: string)
    requires |pattern| > 0
    ensures s == [] ==> r == []
    ensures sound == pattern ==> r == s
    ensures (forall i :: 0 <= i < |s| ==> !OccursAt(s, pattern, i)) ==> r == s
    decreases |s|
  {
    if |s| < |pattern| then s
    else if s[..|pattern|] == pattern then
      assert OccursAt(s, pattern, 0);
      assert s == pattern + s[|pattern|..];
      sound + ReplaceAll(s[|pattern|..], pattern, sound)
    else
      assert forall i :: 0 <= i < |s| - 1 && OccursAt(s[1..], pattern, i) ==> OccursAt(s, pattern, i + 1) by {
        forall i | 0 <= i < |s| - 1 && OccursAt(s[1..], pattern, i) ensures OccursAt(s, pattern, i + 1) {
          assert s[1..][i..i + |pattern|] == s[i + 1..i + 1 + |pattern|];
        }
      }
      assert s == [s[0]] + s[1..];
      [s[0]] + ReplaceAll(s[1..], pattern, sound)
  }

  /** `pattern` occurs in `s` at position `i`. */
  predicate OccursAt(s: string, pattern: string, i: nat) {
    i + |pattern| <= |s| && s[i..i + |pattern|] == pattern
  }

  /** The rules of `rules`, applied one after the other in table order. */
  function ApplyRules(s: string, rules: seq<Rule>): string
    requires WellFormed(rules)
  {
    if rules == [] then s
    else
      var last := rules[|rules| - 1];
      ReplaceAll(ApplyRules(s, rules[..|rules| - 1]), last.pattern, last.sound)
  }

  /** What `phonemize` returns: consonant clusters first, then the vowels. */
  function PhonemeString(word: string): string {
    ApplyRules(ApplyRules(Lower(word), CONSONANT_CLUSTERS), VOWEL_PATTERNS)
  }

  /** One `for (const [pattern, sound] of Object.entries(table))` loop of `phonemize`. */
  method ApplyTable(s: string, rules: seq<Rule>) returns (result: string)
    requires WellFormed(rules)
    ensures result == ApplyRules(s, rules)
  {
    result := s;
    for k := 0 to |rules|
      invariant result == ApplyRules(s, rules[..k])
    {
      var rule := rules[k];
      result := ReplaceAll(result, rule.pattern, rule.sound);
      assert rules[..k + 1][..k] == rules[..k];
    }
    assert rules[..|rules|] == rules;
  }

  /** `phonemize`: the consonant-cluster loop, then the vowel loop. */
  method Phonemize(word: string) returns (result: string)
    ensures result == PhonemeString(word)
    ensures forall i :: 0 <= i < |result| ==> result[i] !in "eiou"
    ensures word == [] ==> result == []
  {
    result := ApplyTable(Lower(word), CONSONANT_CLUSTERS);
    result := ApplyTable(result, VOWEL_PATTERNS);
    PhonemeStringHasNoPlainVowels(word);
    PhonemeStringEmpty();
  }

  /**
   * A character that `sound` does not contain is absent after the rule
   * whenever it was absent before, or when the rule's pattern is exactly
   * that character.
   */
  lemma {:induction false} ReplaceAllExcludes(s: string, pattern: string, sound: string, c: char)
    requires |pattern| > 0 && c !in sound
    requires c !in s || pattern == [c]
    ensures c !in ReplaceAll(s, pattern, sound)
    decreases |s|
  {
    if |s| < |pattern| {
    } else if s[..|pattern|] == pattern {
      assert c in s[|pattern|..] ==> c in s;
      ReplaceAllExcludes(s[|pattern|..], pattern, sound, c);
    } else {
      assert |pattern| == 1 ==> s[..1] == [s[0]];
      assert c in s[1..] ==> c in s;
      ReplaceAllExcludes(s[1..], pattern, sound, c);
    }
  }

  /**
   * If rule k rewrites the single character c and neither it nor any later
   * rule emits c, then c does not occur in the result of the table.
   */
  lemma {:induction false} ApplyRulesExcludes(s: string, rules: seq<Rule>, c: char, k: nat)
    requires WellFormed(rules) && k < |rules| && rules[k].pattern == [c]
    requires forall m :: k <= m < |rules| ==> c !in rules[m].sound
    ensures c !in ApplyRules(s, rules)
    decreases |rules|
  {
    var init, last := rules[..|rules| - 1], rules[|rules| - 1];
    if k < |rules| - 1 {
      assert forall m :: k <= m < |init| ==> init[m] == rules[m];
      ApplyRulesExcludes(s, init, c, k);
    }
    ReplaceAllExcludes(ApplyRules(s, init), last.pattern, last.sound, c);
  }

  lemma {:induction false} ApplyRulesEmpty(rules: seq<Rule>)
    requires WellFormed(rules)
    ensures ApplyRules([], rules) == []
    decreases |rules|
  {
    if rules != [] {
      ApplyRulesEmpty(rules[..|rules| - 1]);
    }
  }

  /** The empty word transcribes to the empty string. */
  lemma PhonemeStringEmpty()
    ensures PhonemeString([]) == []
  {
    ApplyRulesEmpty(CONSONANT_CLUSTERS);
    ApplyRulesEmpty(VOWEL_PATTERNS);
  }

  /**
   * The single-vowel rules run last and emit none of e, i, o, u, so no
   * transcription contains those four letters: the cascade rewrites the `i`
   * of `ij -> ɛi` into `ɪ` and the `u` of `oe -> u` into `ʏ`.
   */
  lemma PhonemeStringHasNoPlainVowels(word: string)
    ensures forall i :: 0 <= i < |PhonemeString(word)| ==> PhonemeString(word)[i] !in "eiou"
  {
    var c := ApplyRules(Lower(word), CONSONANT_CLUSTERS);
    var v := VOWEL_PATTERNS;
    ApplyRulesExcludes(c, v, 'e', 13);
    ApplyRulesExcludes(c, v, 'i', 14);
    ApplyRulesExcludes(c, v, 'o', 15);
    ApplyRulesExcludes(c, v, 'u', 16);
    var r := PhonemeString(word);
    forall i | 0 <= i < |r| ensures r[i] !in "eiou" {
      assert r[i] in r;
    }
  }

  // ---------------------------------------------------------------------
  // The vowel match /[ɛiʌuœɔaøɪʏy]|ɛi|œy/ (non-global)
  // ---------------------------------------------------------------------

  predicate IsVowelClass(c: char) {
    c == 'ɛ' || c == 'i' || c == 'ʌ' || c == 'u' || c == 'œ' || c == 'ɔ'
    || c == 'a' || c == 'ø' || c == 'ɪ' || c == 'ʏ' || c == 'y'
  }

  predicate HasVowel(p: string) {
    exists i :: 0 <= i < |p| && IsVowelClass(p[i])
  }

  predicate NoVowel(p: string) {
    forall i :: 0 <= i < |p| ==> !IsVowelClass(p[i])
  }

  /**
   * First match of the alternation at or after position `i`: the index and
   * the matched text. At each position the character class is tried before
   * `ɛi` and `œy`; since `ɛ` and `œ` are in the class, those two
   * alternatives are never the ones selected.
   */
  function VowelMatchFrom(p: string, i: nat): (r: Option<(nat, string)>)
    requires i <= |p|
    ensures r.Some? ==> i <= r.value.0 < |p| && IsVowelClass(p[r.value.0])
                        && r.value.1 == [p[r.value.0]]
                        && forall j :: i <= j < r.value.0 ==> !IsVowelClass(p[j])
    ensures r.None? ==> forall j :: i <= j < |p| ==> !IsVowelClass(p[j])
    decreases |p| - i
  {
    if i == |p| then None
    else if IsVowelClass(p[i]) then Some((i, [p[i]]))
    else VowelMatchFrom(p, i + 1)
  }

  function FirstVowelMatch(p: string): (r: Option<(nat, string)>)
    ensures r.Some? <==> HasVowel(p)
    ensures r.Some? ==> r.value.0 < |p| && r.value.1 == [p[r.value.0]]
                        && IsVowelClass(p[r.value.0]) && NoVowel(p[..r.value.0])
  {
    VowelMatchFrom(p, 0)
  }

  // ---------------------------------------------------------------------
  // The chunking /.{1,3}/g
  // ---------------------------------------------------------------------

  /** Length of the greedy `.{1,3}` match at the start of `p`. */
  function ChunkLength(p: string): (n: nat)
    requires |p| > 0 && !IsLineTerminator(p[0])
    ensures 1 <= n <= Min(3, |p|)
  {
    if |p| >= 2 && !IsLineTerminator(p[1]) then
      (if |p| >= 3 && !IsLineTerminator(p[2]) then 3 else 2)
    else 1
  }

  /**
   * `p.match(/.{1,3}/g) || []`: greedy pieces of up to three characters;
   * `.` does not match a line terminator, so those are skipped.
   */
  function Chunks(p: string): (r: seq<string>)
    ensures forall k :: 0 <= k < |r| ==> 1 <= |r[k]| <= 3
    decreases |p|
  {
    if p == [] then []
    else if IsLineTerminator(p[0]) then Chunks(p[1..])
    else
      var n := ChunkLength(p);
      [p[..n]] + Chunks(p[n..])
  }

  /** Without line terminators, the chunks put back together are the whole string. */
  lemma {:induction false} ChunksCover(p: string)
    requires NoLineTerminator(p)
    ensures Join(Chunks(p), "") == p
    decreases |p|
  {
    if p != [] {
      var n := ChunkLength(p);
      var rest := Chunks(p[n..]);
      assert NoLineTerminator(p[n..]);
      ChunksCover(p[n..]);
      assert Chunks(p) == [p[..n]] + rest;
      if rest != [] {
        assert ([p[..n]] + rest)[1..] == rest;
      }
      assert p == p[..n] + p[n..];
    }
  }

  /** `parts.slice(-2).join('')`. */
  function LastTwoJoined(parts: seq<string>): string {
    if |parts| == 0 then ""
    else if |parts| == 1 then parts[0]
    else parts[|parts| - 2] + parts[|parts| - 1]
  }

  /** The length of the key of a word with more than two syllables. */
  function LongKeyLength(n: nat): nat {
    Min(n, 3 + (if n % 3 == 0 then 3 else n % 3))
  }

  lemma {:induction false} ChunksNonEmpty(p: string)
    requires NoLineTerminator(p) && |p| > 3
    ensures |Chunks(p)| >= 2
  {
    assert ChunkLength(p) == 3;
    assert Chunks(p) == [p[..3]] + Chunks(p[3..]);
    assert !IsLineTerminator(p[3..][0]);
  }

  /** A short piece without line terminators is one chunk. */
  lemma ShortChunks(p: string)
    requires NoLineTerminator(p) && 0 < |p| <= 3
    ensures Chunks(p) == [p]
  {
    assert ChunkLength(p) == |p|;
    assert p[|p|..] == [];
    assert p[..|p|] == p;
  }

  /** A longer piece without line terminators starts with a full chunk. */
  lemma FirstChunk(p: string)
    requires NoLineTerminator(p) && |p| > 3
    ensures Chunks(p) == [p[..3]] + Chunks(p[3..]) && NoLineTerminator(p[3..])
  {
    assert ChunkLength(p) == 3;
    var q := p[3..];
    forall i | 0 <= i < |q| ensures !IsLineTerminator(q[i]) { assert q[i] == p[i + 3]; }
  }

  lemma LongKeyLengthStep(n: nat)
    requires n > 3
    ensures LongKeyLength(n + 3) == LongKeyLength(n) == 3 + (if n % 3 == 0 then 3 else n % 3)
  {
    assert (n + 3) % 3 == n % 3;
  }

  /** Without line terminators, the last two chunks are a suffix of closed-form length. */
  lemma {:induction false} LastTwoChunks(p: string)
    requires NoLineTerminator(p)
    ensures LastTwoJoined(Chunks(p)) == p[|p| - LongKeyLength(|p|)..]
    decreases |p|
  {
    if p == [] {
    } else if |p| <= 3 {
      ShortChunks(p);
    } else {
      var q := p[3..];
      FirstChunk(p);
      if |q| <= 3 {
        ShortChunks(q);
        assert p[..3] + q == p;
      } else {
        ChunksNonEmpty(q);
        LastTwoChunks(q);
        LongKeyLengthStep(|q|);
        assert q[|q| - LongKeyLength(|q|)..] == p[|p| - LongKeyLength(|p|)..];
      }
    }
  }

  // ---------------------------------------------------------------------
  // extractRhymeKey
  // ---------------------------------------------------------------------

  /** `s.slice(-n)` for n > 0: the last min(n, |s|) characters. */
  function LastChars(s: string, n: nat): (r: string)
    ensures IsSuffix(r, s) && |r| == Min(n, |s|)
  {
    s[|s| - Min(n, |s|)..]
  }

  /**
   * `extractRhymeKey`. Up to two syllables: from the FIRST vowel-class
   * character to the end (the non-global match finds the first one), or the
   * last three characters when there is none. More syllables: the last two
   * greedy three-character chunks.
   */
  function ExtractRhymeKey(phonetic: string, word: string): (key: string)
    ensures SyllableCount(word) <= 2 ==>
              IsSuffix(key, phonetic)
              && if HasVowel(phonetic) then
                   |key| > 0 && IsVowelClass(key[0]) && NoVowel(phonetic[..|phonetic| - |key|])
                 else key == LastChars(phonetic, 3)
    ensures SyllableCount(word) > 2 && NoLineTerminator(phonetic) ==>
              key == phonetic[|phonetic| - LongKeyLength(|phonetic|)..]
  {
    if SyllableCount(word) <= 2 then
      match FirstVowelMatch(phonetic)
      case Some((i, _)) => phonetic[i..]
      case None => LastChars(phonetic, 3)
    else
      assert NoLineTerminator(phonetic) ==>
               LastTwoJoined(Chunks(phonetic)) == phonetic[|phonetic| - LongKeyLength(|phonetic|)..] by {
        if NoLineTerminator(phonetic) {
          LastTwoChunks(phonetic);
        }
      }
      LastTwoJoined(Chunks(phonetic))
  }

  /** Without line terminators, the key is always a suffix of the transcription. */
  lemma ExtractRhymeKeyIsSuffix(phonetic: string, word: string)
    requires NoLineTerminator(phonetic)
    ensures IsSuffix(ExtractRhymeKey(phonetic, word), phonetic)
  {
  }

  // ---------------------------------------------------------------------
  // syllableCount
  // ---------------------------------------------------------------------

  /** The class `[aeiouijou]`, which contains j. */
  predicate IsSyllableVowel(c: char) {
    c == 'a' || c == 'e' || c == 'i' || c == 'o' || c == 'u' || c == 'j'
  }

  /** Number of matches of `/[aeiouijou]/g`. */
  function VowelCount(s: string): (n: nat)
    ensures n <= |s|
    ensures n == 0 <==> forall i :: 0 <= i < |s| ==> !IsSyllableVowel(s[i])
  {
    if s == [] then 0 else (if IsSyllableVowel(s[0]) then 1 else 0) + VowelCount(s[1..])
  }

  predicate IsDiphthongAt(s: string, i: nat)
    requires i + 2 <= |s|
  {
    var a, b := s[i], s[i + 1];
    (a == 'u' && b == 'i') || (a == 'i' && b == 'j') || (a == 'e' && b == 'i')
    || (a == 'o' && b == 'u') || (a == 'a' && b == 'u')
  }

  /** Number of matches of `/ui|ij|ei|ou|au/g`: greedy, non-overlapping. */
  function DiphthongCount(s: string): (n: nat)
    ensures 2 * n <= |s|
    decreases |s|
  {
    if |s| < 2 then 0
    else if IsDiphthongAt(s, 0) then 1 + DiphthongCount(s[2..])
    else DiphthongCount(s[1..])
  }

  /** `syllableCount`. */
  function SyllableCount(word: string): (r: nat)
    ensures r >= 1
    ensures |Trim(Lower(word))| <= 3 ==> r == 1
    ensures r <= Max(1, VowelCount(Trim(Lower(word))))
  {
    var w := Trim(Lower(word));
    if |w| <= 3 then 1
    else
      var vowels := VowelCount(w);
      var count := if EndsWith(w, 'e') && vowels > 1 then vowels - 1 else vowels;
      Max(1, count - DiphthongCount(w))
  }

  /** Each diphthong match consumes two letters of the vowel class. */
  lemma {:induction false} DiphthongsPairVowels(s: string)
    ensures 2 * DiphthongCount(s) <= VowelCount(s)
    decreases |s|
  {
    if |s| < 2 {
    } else if IsDiphthongAt(s, 0) {
      assert s[1..][1..] == s[2..];
      assert VowelCount(s) == 2 + VowelCount(s[2..]);
      DiphthongsPairVowels(s[2..]);
    } else {
      DiphthongsPairVowels(s[1..]);
    }
  }

  /**
   * Since a diphthong stands for two of the counted letters, at most half of
   * the counted letters are taken back: for a word longer than three
   * characters the count is at least (V - 2) / 2.
   */
  lemma SyllableCountLowerBound(word: string)
    requires |Trim(Lower(word))| > 3
    ensures 2 * SyllableCount(word) + 2 >= VowelCount(Trim(Lower(word)))
  {
    DiphthongsPairVowels(Trim(Lower(word)));
  }

  // ---------------------------------------------------------------------
  // stressPattern
  // ---------------------------------------------------------------------

  const STRESSED := "STRESSED"
  const UNSTRESSED := "unstressed"

  /** `stressPattern`: the first two syllables stressed, the rest not. */
  method StressPattern(syllables: int) returns (pattern: seq<string>)
    ensures |pattern| == Max(0, syllables)
    ensures forall i :: 0 <= i < |pattern| ==>
              pattern[i] == (if i < 2 then STRESSED else UNSTRESSED)
  {
    pattern := [];
    var i := 0;
    while i < syllables
      invariant 0 <= i == |pattern|
      invariant syllables >= 0 ==> i <= syllables
      invariant syllables < 0 ==> i == 0
      invariant forall k :: 0 <= k < i ==> pattern[k] == (if k < 2 then STRESSED else UNSTRESSED)
    {
      if i == 0 || i == 1 {
        pattern := pattern + [STRESSED];
      } else {
        pattern := pattern + [UNSTRESSED];
      }
      i := i + 1;
    }
  }

  // ---------------------------------------------------------------------
  // phonemeDistance
  // ---------------------------------------------------------------------

  function Min3(x: int, y: int, z: int): int {
    Min(x, Min(y, z))
  }

  function Cost(x: char, y: char): nat {
    if x == y then 0 else 1
  }

  /** Levenshtein distance between the prefixes a[..i] and b[..j]. */
  function Dist(a: string, b: string, i: nat, j: nat): nat
    requires i <= |a| && j <= |b|
    decreases i + j
  {
    if i == 0 then j
    else if j == 0 then i
    else Min3(Dist(a, b, i - 1, j) + 1,
              Dist(a, b, i, j - 1) + 1,
              Dist(a, b, i - 1, j - 1) + Cost(a[i - 1], b[j - 1]))
  }

  function EditDistance(a: string, b: string): nat {
    Dist(a, b, |a|, |b|)
  }

  /** `phonemeDistance`: the (|a|+1) x (|b|+1) table, filled row by row. */
  method PhonemeDistance(a: string, b: string) returns (d: nat)
    ensures d == EditDistance(a, b)
  {
    var matrix := new int[|a| + 1, |b| + 1];
    for i := 0 to |a| + 1
      invariant forall k :: 0 <= k < i ==> matrix[k, 0] == k
    {
      matrix[i, 0] := i;
    }
    for j := 0 to |b| + 1
      invariant forall l :: 0 <= l < j ==> matrix[0, l] == l
      invariant forall k :: 0 <= k <= |a| ==> matrix[k, 0] == k
    {
      matrix[0, j] := j;
    }
    for i := 1 to |a| + 1
      invariant RowIs(matrix, a, b, i - 1)
      invariant forall k :: i <= k <= |a| ==> matrix[k, 0] == k
    {
      FillRow(matrix, a, b, i);
    }
    d := matrix[|a|, |b|];
  }

  /** The inner loop of `phonemeDistance`: row i from row i - 1. */
  method FillRow(matrix: array2<int>, a: string, b: string, i: nat)
    requires matrix.Length0 == |a| + 1 && matrix.Length1 == |b| + 1 && 1 <= i <= |a|
    requires RowIs(matrix, a, b, i - 1)
    requires matrix[i, 0] == i
    modifies matrix
    ensures RowIs(matrix, a, b, i)
    ensures forall k :: i < k <= |a| ==> matrix[k, 0] == old(matrix[k, 0])
  {
    for j := 1 to |b| + 1
      invariant forall k, l :: 0 <= k <= |a| && k != i && 0 <= l <= |b| ==> matrix[k, l] == old(matrix[k, l])
      invariant forall l :: 0 <= l < j ==> matrix[i, l] == Dist(a, b, i, l)
    {
      var cost := if a[i - 1] == b[j - 1] then 0 else 1;
      DistStep(a, b, i, j);
      ghost var d := Dist(a, b, i, j);
      assert d == Min3(old(matrix[i - 1, j]) + 1, matrix[i, j - 1] + 1, old(matrix[i - 1, j - 1]) + cost);
      label Before:
      matrix[i, j] := Min3(matrix[i - 1, j] + 1, matrix[i, j - 1] + 1, matrix[i - 1, j - 1] + cost);
      forall l | 0 <= l < j + 1
        ensures matrix[i, l] == Dist(a, b, i, l)
      {
        if l < j {
          assert matrix[i, l] == old@Before(matrix[i, l]);
        }
      }
    }
  }

  /** One step of the recurrence, for a cell off the table's edges. */
  lemma DistStep(a: string, b: string, i: nat, j: nat)
    requires 0 < i <= |a| && 0 < j <= |b|
    ensures Dist(a, b, i, j) == Min3(Dist(a, b, i - 1, j) + 1, Dist(a, b, i, j - 1) + 1,
                                     Dist(a, b, i - 1, j - 1) + (if a[i - 1] == b[j - 1] then 0 else 1))
  {
  }

  /** Row k of the table holds the distances from a[..k] to every prefix of b. */
  ghost predicate RowIs(matrix: array2<int>, a: string, b: string, k: nat)
    requires matrix.Length0 == |a| + 1 && matrix.Length1 == |b| + 1 && k <= |a|
    reads matrix
  {
    forall l :: 0 <= l <= |b| ==> matrix[k, l] == Dist(a, b, k, l)
  }

  lemma {:induction false} DistSymmetric(a: string, b: string, i: nat, j: nat)
    requires i <= |a| && j <= |b|
    ensures Dist(a, b, i, j) == Dist(b, a, j, i)
    decreases i + j
  {
    if i > 0 && j > 0 {
      DistSymmetric(a, b, i - 1, j);
      DistSymmetric(a, b, i, j - 1);
      DistSymmetric(a, b, i - 1, j - 1);
    }
  }

  lemma {:induction false} DistUpper(a: string, b: string, i: nat, j: nat)
    requires i <= |a| && j <= |b|
    ensures Dist(a, b, i, j) <= Max(i, j)
    decreases i + j
  {
    if i > 0 && j > 0 {
      DistUpper(a, b, i - 1, j - 1);
      assert Dist(a, b, i, j) <= Dist(a, b, i - 1, j - 1) + Cost(a[i - 1], b[j - 1]);
    }
  }

  lemma {:induction false} DistLower(a: string, b: string, i: nat, j: nat)
    requires i <= |a| && j <= |b|
    ensures Max(i - j, j - i) <= Dist(a, b, i, j)
    decreases i + j
  {
    if i > 0 && j > 0 {
      DistLower(a, b, i - 1, j);
      DistLower(a, b, i, j - 1);
      DistLower(a, b, i - 1, j - 1);
      var d := Dist(a, b, i, j);
      assert d == Dist(a, b, i - 1, j) + 1 || d == Dist(a, b, i, j - 1) + 1
             || d == Dist(a, b, i - 1, j - 1) + Cost(a[i - 1], b[j - 1]);
    }
  }

  lemma DistBounds(a: string, b: string, i: nat, j: nat)
    requires i <= |a| && j <= |b|
    ensures Max(i - j, j - i) <= Dist(a, b, i, j) <= Max(i, j)
  {
    DistUpper(a, b, i, j);
    DistLower(a, b, i, j);
  }

  lemma {:induction false} DistZeroOfEqual(a: string, b: string, i: nat)
    requires i <= |a| && i <= |b| && a[..i] == b[..i]
    ensures Dist(a, b, i, i) == 0
  {
    if i > 0 {
      assert a[..i - 1] == a[..i][..i - 1] == b[..i][..i - 1] == b[..i - 1];
      assert a[i - 1] == a[..i][i - 1] == b[..i][i - 1] == b[i - 1];
      DistZeroOfEqual(a, b, i - 1);
    }
  }

  lemma {:induction false} DistZeroEqual(a: string, b: string, i: nat, j: nat)
    requires i <= |a| && j <= |b| && Dist(a, b, i, j) == 0
    ensures i == j && a[..i] == b[..j]
    decreases i + j
  {
    if i > 0 && j > 0 {
      assert Dist(a, b, i - 1, j - 1) + Cost(a[i - 1], b[j - 1]) == 0;
      DistZeroEqual(a, b, i - 1, j - 1);
      PrefixSnoc(a, i);
      PrefixSnoc(b, j);
    }
  }

  lemma PrefixSnoc(s: string, i: nat)
    requires 0 < i <= |s|
    ensures s[..i] == s[..i - 1] + [s[i - 1]]
  {
  }

  /** The distance is zero exactly for equal strings. */
  lemma EditDistanceZeroIff(a: string, b: string)
    ensures EditDistance(a, b) == 0 <==> a == b
  {
    assert a[..|a|] == a && b[..|b|] == b;
    if EditDistance(a, b) == 0 {
      DistZeroEqual(a, b, |a|, |b|);
    }
    if a == b {
      DistZeroOfEqual(a, b, |a|);
    }
  }

  lemma EditDistanceSymmetric(a: string, b: string)
    ensures EditDistance(a, b) == EditDistance(b, a)
  {
    DistSymmetric(a, b, |a|, |b|);
  }

  /** ||a| - |b|| <= d <= max(|a|, |b|). */
  lemma EditDistanceBounds(a: string, b: string)
    ensures Max(|a| - |b|, |b| - |a|) <= EditDistance(a, b) <= Max(|a|, |b|)
  {
    DistBounds(a, b, |a|, |b|);
  }

  // ---------------------------------------------------------------------
  // isAssonance
  // ---------------------------------------------------------------------

  /**
   * `isAssonance`: the first vowel-class characters of the two transcriptions
   * differ by at most 2 in code point; false when either has none.
   */
  function IsAssonance(word1: string, word2: string): (r: bool)
    ensures r ==> HasVowel(PhonemeString(word1)) && HasVowel(PhonemeString(word2))
  {
    var vowel1 := FirstVowelMatch(PhonemeString(word1));
    var vowel2 := FirstVowelMatch(PhonemeString(word2));
    if vowel1.None? || vowel2.None? then false
    else
      var d := vowel1.value.1[0] as int - vowel2.value.1[0] as int;
      Max(d, -d) <= 2
  }

  lemma IsAssonanceSymmetric(word1: string, word2: string)
    ensures IsAssonance(word1, word2) == IsAssonance(word2, word1)
  {
  }
}
