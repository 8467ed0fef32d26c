/**
 * The rhyme engine of src/services/rhymeEngine.ts: classification of every
 * lexicon entry against the last word of a line, stable ranking by score,
 * truncation, the memoising cache, the flow analysis and the flow variations.
 * Scores are integer tenths.
 */
module RhymeEngine {
  import opened Wrappers
  import opened Text
  import opened Types
  import opened Phonetics
  import opened Lexicon

  /** An entry of `findRhymeCandidates`' result, before the meter information. */
  datatype RawCandidate = RawCandidate(word: string, rhymeType: RhymeType, score: Tenths)

  // ---------------------------------------------------------------------
  // The query word
  // ---------------------------------------------------------------------

  predicate IsTrailingPunctuation(c: char) {
    c == '.' || c == ',' || c == '!' || c == '?' || c == ';' || c == ':'
  }

  /** `.replace(/[.,!?;:]+$/, '')`: drops the maximal trailing run of punctuation. */
  function StripTrailingPunctuation(s: string): (r: string)
    ensures |r| <= |s| && r == s[..|r|]
    ensures r == [] || !IsTrailingPunctuation(r[|r| - 1])
    ensures forall i :: |r| <= i < |s| ==> IsTrailingPunctuation(s[i])
  {
    if s != [] && IsTrailingPunctuation(s[|s| - 1]) then StripTrailingPunctuation(s[..|s| - 1])
    else s
  }

  /**
   * `lastWord`: the last piece of `line.trim().split(/\s+/)`, lowercased and
   * without trailing punctuation. The split always has a piece, so the
   * source's `words.length === 0` guard never fires.
   */
  function LastWord(line: string): (w: string)
    ensures NoSpace(w)
    ensures w == [] || !IsTrailingPunctuation(w[|w| - 1])
    ensures forall i :: 0 <= i < |w| ==> !IsUpper(w[i])
  {
    var piece := LastPiece(Trim(line));
    QueryWordShape(piece);
    StripTrailingPunctuation(Lower(piece))
  }

  /** Lowercasing a space-free piece and stripping its punctuation gives a query word. */
  lemma QueryWordShape(piece: string)
    requires NoSpace(piece)
    ensures var w := StripTrailingPunctuation(Lower(piece));
            && NoSpace(w)
            && (w == [] || !IsTrailingPunctuation(w[|w| - 1]))
            && forall i :: 0 <= i < |w| ==> !IsUpper(w[i])
  {
    LowerKeepsNoSpace(piece);
  }

  /**
   * The query word is the longest space-free suffix of the trimmed line,
   * lowercased, with its trailing run of punctuation removed.
   */
  lemma LastWordIsLastToken(line: string)
    ensures var t := Trim(line);
            LastWord(line) == StripTrailingPunctuation(Lower(t[|t| - NonSpaceSuffix(t)..]))
  {
    LastPieceIsSuffix(Trim(line));
  }

  /** A line of only whitespace still yields a query word: the empty one. */
  lemma BlankLineLastWord(line: string)
    requires forall i :: 0 <= i < |line| ==> IsSpace(line[i])
    ensures LastWord(line) == []
  {
    TrimAllSpace(line);
  }

  // ---------------------------------------------------------------------
  // Classification: findRhymeCandidates
  // ---------------------------------------------------------------------

  /** The key the engine compares: `extractRhymeKey(phonemize(w), w)`. */
  function RhymeKey(word: string): string {
    ExtractRhymeKey(PhonemeString(word), word)
  }

  /** `s[0]`, which is `undefined` for the empty string. */
  function FirstChar(s: string): (r: Option<char>)
    ensures r.Some? <==> |s| > 0
    ensures r.Some? ==> r.value == s[0]
  {
    if s == [] then None else Some(s[0])
  }

  /**
   * The priority chain for one entry other than the query word: equal keys,
   * then a key distance of at most 2, then assonance, then the same first
   * character; the first test that holds decides, and an entry that passes
   * none is dropped.
   */
  function Classify(word: string, key: string, entryWord: string): (r: Option<RawCandidate>)
    requires entryWord != word
    ensures r.Some? ==> r.value.word == entryWord
  {
    ClassifyByKey(word, key, entryWord, RhymeKey(entryWord))
  }

  /** The priority chain, given the entry's rhyme key. */
  function ClassifyByKey(word: string, key: string, entryWord: string, candidateKey: string): (r: Option<RawCandidate>)
    ensures r.Some? ==> r.value.word == entryWord
  {
    if key == candidateKey then Some(RawCandidate(entryWord, Perfect, 10))
    else
      var distance := EditDistance(key, candidateKey);
      if distance <= 2 then
        Some(RawCandidate(entryWord, if distance == 0 then Perfect else Multisyllabic, 10 - 2 * distance))
      else if IsAssonance(word, entryWord) then Some(RawCandidate(entryWord, Assonance, 6))
      else if FirstChar(word) == FirstChar(entryWord) then Some(RawCandidate(entryWord, Alliteration, 4))
      else None
  }

  /**
   * An entry is kept exactly when one of the four tests holds; it is a
   * perfect rhyme, scored 1.0, exactly when the keys are equal (the
   * `distance === 0` branch cannot be reached); a near key scores 0.8 or 0.6
   * by its distance; assonance scores 0.6 and alliteration 0.4, each only
   * when the tests before it failed.
   */
  lemma ClassifyMeaning(word: string, key: string, entryWord: string)
    requires entryWord != word
    ensures var r := Classify(word, key, entryWord);
            var d := EditDistance(key, RhymeKey(entryWord));
            && (r.Some? <==> key == RhymeKey(entryWord) || d <= 2
                             || IsAssonance(word, entryWord) || FirstChar(word) == FirstChar(entryWord))
            && (r.Some? ==> (r.value.rhymeType == Perfect <==> key == RhymeKey(entryWord)))
            && (r.Some? ==> (r.value.score == 10 <==> r.value.rhymeType == Perfect))
            && (r.Some? && r.value.rhymeType == Multisyllabic ==>
                  (r.value.score == 8 || r.value.score == 6) && r.value.score == 10 - 2 * d)
            && (r.Some? && r.value.rhymeType == Assonance ==>
                  r.value.score == 6 && d > 2 && IsAssonance(word, entryWord))
            && (r.Some? && r.value.rhymeType == Alliteration ==>
                  r.value.score == 4 && d > 2 && !IsAssonance(word, entryWord)
                  && |word| > 0 && |entryWord| > 0 && word[0] == entryWord[0])
  {
    ClassifyByKeyMeaning(word, key, entryWord, RhymeKey(entryWord));
  }

  /** ClassifyMeaning for any rhyme key of the entry. */
  lemma ClassifyByKeyMeaning(word: string, key: string, entryWord: string, candidateKey: string)
    requires entryWord != word
    ensures var r := ClassifyByKey(word, key, entryWord, candidateKey);
            var d := EditDistance(key, candidateKey);
            && (r.Some? <==> key == candidateKey || d <= 2
                             || IsAssonance(word, entryWord) || FirstChar(word) == FirstChar(entryWord))
            && (r.Some? ==> (r.value.rhymeType == Perfect <==> key == candidateKey))
            && (r.Some? ==> (r.value.score == 10 <==> r.value.rhymeType == Perfect))
            && (r.Some? && r.value.rhymeType == Multisyllabic ==>
                  (r.value.score == 8 || r.value.score == 6) && r.value.score == 10 - 2 * d)
            && (r.Some? && r.value.rhymeType == Assonance ==>
                  r.value.score == 6 && d > 2 && IsAssonance(word, entryWord))
            && (r.Some? && r.value.rhymeType == Alliteration ==>
                  r.value.score == 4 && d > 2 && !IsAssonance(word, entryWord)
                  && |word| > 0 && |entryWord| > 0 && word[0] == entryWord[0])
  {
    EditDistanceZeroIff(key, candidateKey);
  }

  /** The classification of one entry: none for the query word itself. */
  function Classifier(word: string, key: string): string -> Option<RawCandidate> {
    entryWord => if entryWord == word then None else Classify(word, key, entryWord)
  }

  function AsList(c: Option<RawCandidate>): (r: seq<RawCandidate>)
    ensures |r| <= 1 && forall x :: x in r <==> c == Some(x)
  {
    match c
    case Some(x) => [x]
    case None => []
  }

  /** The loop of `findRhymeCandidates` for any classification: the kept results in lexicon order. */
  function Collect(lexicon: seq<LexiconEntry>, f: string -> Option<RawCandidate>): (r: seq<RawCandidate>)
    ensures |r| <= |lexicon|
  {
    if lexicon == [] then []
    else Collect(lexicon[..|lexicon| - 1], f) + AsList(f(lexicon[|lexicon| - 1].word))
  }

  /** Every collected candidate is the result for some lexicon entry. */
  lemma {:induction false} CollectSound(lexicon: seq<LexiconEntry>, f: string -> Option<RawCandidate>)
    ensures forall k :: 0 <= k < |Collect(lexicon, f)| ==>
              exists i :: 0 <= i < |lexicon| && f(lexicon[i].word) == Some(Collect(lexicon, f)[k])
  {
    if lexicon == [] {
      assert Collect(lexicon, f) == [];
    } else {
      var init := lexicon[..|lexicon| - 1];
      var front := Collect(init, f);
      var r := Collect(lexicon, f);
      CollectSound(init, f);
      forall k | 0 <= k < |r|
        ensures exists i :: 0 <= i < |lexicon| && f(lexicon[i].word) == Some(r[k])
      {
        if k < |front| {
          assert r[k] == front[k];
          var i :| 0 <= i < |init| && f(init[i].word) == Some(front[k]);
          assert lexicon[i] == init[i];
          assert f(lexicon[i].word) == Some(r[k]);
        } else {
          assert r[k] in AsList(f(lexicon[|lexicon| - 1].word));
          assert f(lexicon[|lexicon| - 1].word) == Some(r[k]);
        }
      }
    }
  }

  /** Every entry with a result contributes it. */
  lemma {:induction false} CollectComplete(lexicon: seq<LexiconEntry>, f: string -> Option<RawCandidate>)
    ensures forall i :: 0 <= i < |lexicon| && f(lexicon[i].word).Some? ==>
              f(lexicon[i].word).value in Collect(lexicon, f)
  {
    if lexicon != [] {
      var init := lexicon[..|lexicon| - 1];
      CollectComplete(init, f);
      assert forall i :: 0 <= i < |init| ==> init[i] == lexicon[i];
    }
  }

  /** What `findRhymeCandidates` returns, in lexicon order. */
  function Candidates(lexicon: seq<LexiconEntry>, word: string, key: string): (r: seq<RawCandidate>)
    ensures |r| <= |lexicon|
  {
    Collect(lexicon, Classifier(word, key))
  }

  /**
   * The candidates are exactly the classified lexicon entries other than the
   * query word: each candidate is one of them, and each of them is a candidate.
   */
  lemma CandidatesExact(lexicon: seq<LexiconEntry>, word: string, key: string)
    ensures var r := Candidates(lexicon, word, key);
            forall k :: 0 <= k < |r| ==>
              r[k].word != word && InLexicon(lexicon, r[k].word)
              && Classify(word, key, r[k].word) == Some(r[k])
    ensures forall i :: (0 <= i < |lexicon| && lexicon[i].word != word
                         && Classify(word, key, lexicon[i].word).Some?) ==>
                        Classify(word, key, lexicon[i].word).value in Candidates(lexicon, word, key)
  {
    var f := Classifier(word, key);
    var r := Candidates(lexicon, word, key);
    CollectSound(lexicon, f);
    CollectComplete(lexicon, f);
    forall k | 0 <= k < |r|
      ensures r[k].word != word && InLexicon(lexicon, r[k].word)
      ensures Classify(word, key, r[k].word) == Some(r[k])
    {
      var i :| 0 <= i < |lexicon| && f(lexicon[i].word) == Some(r[k]);
      assert lexicon[i].word != word;
    }
    forall i | 0 <= i < |lexicon| && lexicon[i].word != word && Classify(word, key, lexicon[i].word).Some?
      ensures Classify(word, key, lexicon[i].word).value in r
    {
      assert f(lexicon[i].word) == Classify(word, key, lexicon[i].word);
    }
  }

  /** Transcribes a word and extracts its rhyme key. */
  method RhymeKeyOf(w: string) returns (k: string)
    ensures k == RhymeKey(w)
  {
    var phonetic := Phonemize(w);
    k := ExtractRhymeKey(phonetic, w);
  }

  /** The body of `findRhymeCandidates`' loop for one lexicon entry. */
  method ClassifyEntry(word: string, key: string, entryWord: string) returns (c: seq<RawCandidate>)
    ensures entryWord == word ==> c == []
    ensures entryWord != word ==> c == AsList(Classify(word, key, entryWord))
  {
    var candidateKey := RhymeKeyOf(entryWord);
    c := [];
    if entryWord != word {
      c := TestChain(word, key, entryWord, candidateKey);
      assert Classify(word, key, entryWord) == ClassifyByKey(word, key, entryWord, candidateKey);
    }
  }

  /** The four tests of the loop body, once the entry's key is known. */
  method TestChain(word: string, key: string, entryWord: string, candidateKey: string) returns (c: seq<RawCandidate>)
    ensures c == AsList(ClassifyByKey(word, key, entryWord, candidateKey))
  {
    c := [];
    if key == candidateKey {
      c := [RawCandidate(entryWord, Perfect, 10)];
    } else {
      var distance := PhonemeDistance(key, candidateKey);
      if distance <= 2 {
        var rhymeType := if distance == 0 then Perfect else Multisyllabic;
        c := [RawCandidate(entryWord, rhymeType, 10 - 2 * distance)];
      } else if IsAssonance(word, entryWord) {
        c := [RawCandidate(entryWord, Assonance, 6)];
      } else if FirstChar(word) == FirstChar(entryWord) {
        c := [RawCandidate(entryWord, Alliteration, 4)];
      }
    }
  }

  /** `findRhymeCandidates`: the loop over the lexicon that pushes candidates. */
  method FindRhymeCandidates(lexicon: seq<LexiconEntry>, word: string, key: string)
    returns (candidates: seq<RawCandidate>)
    ensures candidates == Candidates(lexicon, word, key)
  {
    candidates := [];
    for i := 0 to |lexicon|
      invariant candidates == Collect(lexicon[..i], Classifier(word, key))
    {
      var found := ClassifyEntry(word, key, lexicon[i].word);
      assert found == AsList(Classifier(word, key)(lexicon[i].word));
      assert lexicon[..i + 1][..i] == lexicon[..i];
      candidates := candidates + found;
    }
    assert lexicon[..|lexicon|] == lexicon;
  }

  // ---------------------------------------------------------------------
  // Ranking: rankCandidates (map, then a stable sort on descending score)
  // ---------------------------------------------------------------------

  function ToRhymeCandidate(c: RawCandidate): RhymeCandidate {
    RhymeCandidate(c.word, c.rhymeType, c.score, MeterInfo(SyllableCount(c.word), None))
  }

  function ToRhymeCandidates(cs: seq<RawCandidate>): (r: seq<RhymeCandidate>)
    ensures |r| == |cs| && forall k :: 0 <= k < |cs| ==> r[k] == ToRhymeCandidate(cs[k])
  {
    if cs == [] then [] else [ToRhymeCandidate(cs[0])] + ToRhymeCandidates(cs[1..])
  }

  ghost predicate SortedByScore(s: seq<RhymeCandidate>) {
    forall i, j :: 0 <= i < j < |s| ==> s[i].score >= s[j].score
  }

  /** The candidates with score v, in their order in s. */
  function WithScore(s: seq<RhymeCandidate>, v: Tenths): (r: seq<RhymeCandidate>)
    ensures |r| <= |s|
  {
    if s == [] then []
    else (if s[0].score == v then [s[0]] else []) + WithScore(s[1..], v)
  }

  /** Places x in front of the first element of t with a lower score. */
  function Insert(x: RhymeCandidate, t: seq<RhymeCandidate>): (r: seq<RhymeCandidate>)
    ensures multiset(r) == multiset(t) + multiset{x}
  {
    if t == [] then [x]
    else if x.score >= t[0].score then [x] + t
    else
      assert t == [t[0]] + t[1..];
      [t[0]] + Insert(x, t[1..])
  }

  lemma {:induction false} InsertSorted(x: RhymeCandidate, t: seq<RhymeCandidate>)
    requires SortedByScore(t)
    ensures SortedByScore(Insert(x, t))
  {
    if t != [] && x.score < t[0].score {
      var rest := Insert(x, t[1..]);
      InsertSorted(x, t[1..]);
      assert multiset(rest) == multiset(t[1..]) + multiset{x};
      forall j | 0 <= j < |rest|
        ensures t[0].score >= rest[j].score
      {
        assert rest[j] in multiset(rest);
        if rest[j] != x {
          assert rest[j] in multiset(t[1..]);
          var m :| 0 <= m < |t[1..]| && t[1..][m] == rest[j];
          assert t[m + 1] == rest[j];
        }
      }
    }
  }

  lemma WithScoreCons(y: RhymeCandidate, t: seq<RhymeCandidate>, v: Tenths)
    ensures WithScore([y] + t, v) == (if y.score == v then [y] else []) + WithScore(t, v)
  {
    assert ([y] + t)[1..] == t;
  }

  /** Insertion keeps the order among candidates of equal score, x coming first. */
  lemma {:induction false} InsertWithScore(x: RhymeCandidate, t: seq<RhymeCandidate>, v: Tenths)
    requires SortedByScore(t)
    ensures WithScore(Insert(x, t), v) == (if x.score == v then [x] else []) + WithScore(t, v)
  {
    if t == [] {
      WithScoreCons(x, [], v);
    } else if x.score >= t[0].score {
      WithScoreCons(x, t, v);
    } else {
      var rest := Insert(x, t[1..]);
      assert Insert(x, t) == [t[0]] + rest;
      assert t == [t[0]] + t[1..];
      WithScoreCons(t[0], t[1..], v);
      WithScoreCons(t[0], rest, v);
      assert SortedByScore(t[1..]);
      InsertWithScore(x, t[1..], v);
      if t[0].score == v {
        assert x.score != v;
      }
    }
  }

  /** `.sort((a, b) => b.score - a.score)`, which is stable. */
  function SortByScore(s: seq<RhymeCandidate>): (r: seq<RhymeCandidate>)
    ensures multiset(r) == multiset(s) && |r| == |s|
    ensures SortedByScore(r)
    ensures forall v :: WithScore(r, v) == WithScore(s, v)
  {
    if s == [] then []
    else
      var rest := SortByScore(s[1..]);
      assert s == [s[0]] + s[1..];
      InsertSorted(s[0], rest);
      assert forall v :: WithScore(Insert(s[0], rest), v) == WithScore(s, v) by {
        forall v ensures WithScore(Insert(s[0], rest), v) == WithScore(s, v) {
          InsertWithScore(s[0], rest, v);
          WithScoreCons(s[0], s[1..], v);
        }
      }
      Insert(s[0], rest)
  }

  /** `rankCandidates`: the meter information is attached, then the list is sorted. */
  function RankCandidates(cs: seq<RawCandidate>): (r: seq<RhymeCandidate>)
    ensures |r| == |cs| && multiset(r) == multiset(ToRhymeCandidates(cs))
    ensures SortedByScore(r)
  {
    SortByScore(ToRhymeCandidates(cs))
  }

  /** Candidates of equal score keep their lexicon order. */
  lemma RankCandidatesStable(cs: seq<RawCandidate>, v: Tenths)
    ensures WithScore(RankCandidates(cs), v) == WithScore(ToRhymeCandidates(cs), v)
  {
  }

  /** `s.slice(0, end)`: a negative end counts from the end of s. */
  function SliceTo<T>(s: seq<T>, end: int): (r: seq<T>)
    ensures end >= 0 ==> |r| == Min(end, |s|)
    ensures end < 0 ==> |r| == Max(0, |s| + end)
    ensures r == s[..|r|]
  {
    if end >= 0 then s[..Min(end, |s|)] else s[..Max(0, |s| + end)]
  }

  /** The list `generateRhymes` computes for a query word on a cache miss. */
  function Rhymes(lexicon: seq<LexiconEntry>, lastWord: string, maxResults: int): seq<RhymeCandidate> {
    SliceTo(RankCandidates(Candidates(lexicon, lastWord, RhymeKey(lastWord))), maxResults)
  }

  /** Every ranked candidate stems from one raw candidate. */
  lemma RankedFromCandidate(cs: seq<RawCandidate>, x: RhymeCandidate)
    requires x in RankCandidates(cs)
    ensures exists k :: 0 <= k < |cs| && x == ToRhymeCandidate(cs[k])
  {
    var mapped := ToRhymeCandidates(cs);
    assert x in multiset(RankCandidates(cs));
    assert x in mapped;
    var k :| 0 <= k < |mapped| && mapped[k] == x;
  }

  /**
   * What the source promises of a result: at most `maxResults` entries
   * (all of them when there are fewer), in non-increasing score order, each
   * a lexicon word other than the query word, with its syllable count (at
   * least 1) and with the score its rhyme type allows.
   */
  lemma {:induction false} RhymesProperties(lexicon: seq<LexiconEntry>, lastWord: string, maxResults: int)
    ensures var r := Rhymes(lexicon, lastWord, maxResults);
            var n := |Candidates(lexicon, lastWord, RhymeKey(lastWord))|;
            && (maxResults >= 0 ==> |r| == Min(maxResults, n))
            && (maxResults < 0 ==> |r| == Max(0, n + maxResults))
            && SortedByScore(r)
            && forall k :: 0 <= k < |r| ==>
                 && r[k].text != lastWord
                 && InLexicon(lexicon, r[k].text)
                 && r[k].meterInfo.syllables == SyllableCount(r[k].text) >= 1
                 && r[k].meterInfo.stressPattern.None?
                 && (r[k].rhymeType == Perfect <==> r[k].score == 10)
                 && (r[k].rhymeType == Multisyllabic ==> r[k].score == 8 || r[k].score == 6)
                 && (r[k].rhymeType == Assonance ==> r[k].score == 6)
                 && (r[k].rhymeType == Alliteration ==> r[k].score == 4)
  {
    var key := RhymeKey(lastWord);
    var cs := Candidates(lexicon, lastWord, key);
    var ranked := RankCandidates(cs);
    var r := Rhymes(lexicon, lastWord, maxResults);
    assert r == ranked[..|r|];
    forall k | 0 <= k < |r|
      ensures r[k].text != lastWord && InLexicon(lexicon, r[k].text)
      ensures r[k].meterInfo.syllables == SyllableCount(r[k].text) >= 1
      ensures r[k].meterInfo.stressPattern.None?
      ensures r[k].rhymeType == Perfect <==> r[k].score == 10
      ensures r[k].rhymeType == Multisyllabic ==> r[k].score == 8 || r[k].score == 6
      ensures r[k].rhymeType == Assonance ==> r[k].score == 6
      ensures r[k].rhymeType == Alliteration ==> r[k].score == 4
    {
      assert r[k] == ranked[k];
      RankedFacts(lexicon, lastWord, r[k]);
    }
    assert SortedByScore(ranked);
  }

  /** One ranked candidate: a lexicon word other than the query word, with its meter and a score its type allows. */
  lemma RankedFacts(lexicon: seq<LexiconEntry>, lastWord: string, x: RhymeCandidate)
    requires x in RankCandidates(Candidates(lexicon, lastWord, RhymeKey(lastWord)))
    ensures x.text != lastWord && InLexicon(lexicon, x.text)
    ensures x.meterInfo.syllables == SyllableCount(x.text) >= 1
    ensures x.meterInfo.stressPattern.None?
    ensures x.rhymeType == Perfect <==> x.score == 10
    ensures x.rhymeType == Multisyllabic ==> x.score == 8 || x.score == 6
    ensures x.rhymeType == Assonance ==> x.score == 6
    ensures x.rhymeType == Alliteration ==> x.score == 4
  {
    var key := RhymeKey(lastWord);
    var cs := Candidates(lexicon, lastWord, key);
    CandidatesExact(lexicon, lastWord, key);
    RankedFromCandidate(cs, x);
    var j :| 0 <= j < |cs| && x == ToRhymeCandidate(cs[j]);
    ClassifyMeaning(lastWord, key, cs[j].word);
  }

  // ---------------------------------------------------------------------
  // The cache key `${lastWord}:${maxResults}`
  // ---------------------------------------------------------------------

  function CacheKey(lastWord: string, maxResults: int): string {
    lastWord + ":" + IntToString(maxResults)
  }

  /** When the part after the first colon is longer, it holds the other colon. */
  lemma ColonInLongerTail(w1: string, s1: string, w2: string, s2: string)
    requires w1 + ":" + s1 == w2 + ":" + s2 && |s1| < |s2|
    ensures ':' in s2
  {
    var k := w1 + ":" + s1;
    var i := |s2| - |s1| - 1;
    assert k[|k| - |s1| - 1] == ':';
    assert (w2 + ":" + s2)[|w2| + 1 + i] == s2[i];
  }

  lemma SplitAtLastColon(w1: string, s1: string, w2: string, s2: string)
    requires ':' !in s1 && ':' !in s2
    requires w1 + ":" + s1 == w2 + ":" + s2
    ensures w1 == w2 && s1 == s2
  {
    var k := w1 + ":" + s1;
    if |s1| < |s2| {
      ColonInLongerTail(w1, s1, w2, s2);
      assert false;
    } else if |s2| < |s1| {
      ColonInLongerTail(w2, s2, w1, s1);
      assert false;
    } else {
      assert s1 == k[|k| - |s1|..] == s2;
      assert w1 == k[..|w1|] == w2;
    }
  }

  /** Distinct (lastWord, maxResults) pairs get distinct cache keys. */
  lemma CacheKeyInjective(w1: string, n1: int, w2: string, n2: int)
    requires CacheKey(w1, n1) == CacheKey(w2, n2)
    ensures w1 == w2 && n1 == n2
  {
    var s1, s2 := IntToString(n1), IntToString(n2);
    assert ':' !in s1 && ':' !in s2;
    SplitAtLastColon(w1, s1, w2, s2);
    IntToStringInjective(n1, n2);
  }

  // ---------------------------------------------------------------------
  // generateRhymes and the module-level cache
  // ---------------------------------------------------------------------

  /** Every key held maps to the list computed for the word and bound it encodes. */
  ghost predicate Memoises(cache: map<string, seq<RhymeCandidate>>, lexicon: seq<LexiconEntry>) {
    forall w: string, n: int :: CacheKey(w, n) in cache ==> cache[CacheKey(w, n)] == Rhymes(lexicon, w, n)
  }

  /** Storing a computed list keeps the cache a memo table. */
  lemma MemoisesStore(cache: map<string, seq<RhymeCandidate>>, lexicon: seq<LexiconEntry>,
                      w0: string, n0: int, result: seq<RhymeCandidate>)
    requires Memoises(cache, lexicon) && result == Rhymes(lexicon, w0, n0)
    ensures Memoises(cache[CacheKey(w0, n0) := result], lexicon)
  {
    var updated := cache[CacheKey(w0, n0) := result];
    forall w: string, n: int | CacheKey(w, n) in updated
      ensures updated[CacheKey(w, n)] == Rhymes(lexicon, w, n)
    {
      if CacheKey(w, n) == CacheKey(w0, n0) {
        CacheKeyInjective(w, n, w0, n0);
      }
    }
  }

  /** The miss path of `generateRhymes`: transcribe, search, rank, cut. */
  method ComputeRhymes(lexicon: seq<LexiconEntry>, lastWord: string, maxResults: int)
    returns (result: seq<RhymeCandidate>)
    ensures result == Rhymes(lexicon, lastWord, maxResults)
  {
    var key := RhymeKeyOf(lastWord);
    var candidates := FindRhymeCandidates(lexicon, lastWord, key);
    var ranked := RankCandidates(candidates);
    result := SliceTo(ranked, maxResults);
  }

  /** The rhyme engine over a lexicon, with its memoising cache. */
  class Engine {
    const lexicon: seq<LexiconEntry>
    var cache: map<string, seq<RhymeCandidate>>

    /** The cache only memoises: every key it holds maps to the computed list. */
    ghost predicate Valid()
      reads this
    {
      Memoises(cache, lexicon)
    }

    constructor (lexicon: seq<LexiconEntry>)
      ensures Valid() && this.lexicon == lexicon && cache == map[]
    {
      this.lexicon := lexicon;
      cache := map[];
    }

    /**
     * `generateRhymes`. On a hit the stored list is returned and the cache is
     * left alone; on a miss the list is computed and stored. Either way the
     * result is the computed list, and `contextLines` plays no part.
     */
    method GenerateRhymes(line: string, contextLines: seq<string> := [], maxResults: int := 6)
      returns (result: seq<RhymeCandidate>)
      requires Valid()
      modifies this
      ensures Valid()
      ensures result == Rhymes(lexicon, LastWord(line), maxResults)
      ensures CacheKey(LastWord(line), maxResults) in old(cache) ==>
                cache == old(cache) && result == old(cache)[CacheKey(LastWord(line), maxResults)]
      ensures cache == old(cache)[CacheKey(LastWord(line), maxResults) := result]
    {
      var lastWord := LastWord(line);
      var cacheKey := CacheKey(lastWord, maxResults);
      if cacheKey in cache {
        result := cache[cacheKey];
        return;
      }
      result := ComputeRhymes(lexicon, lastWord, maxResults);
      MemoisesStore(cache, lexicon, lastWord, maxResults, result);
      cache := cache[cacheKey := result];
    }
  }

  // ---------------------------------------------------------------------
  // generateFlowVariations
  // ---------------------------------------------------------------------

  const HARD_MAP: map<string, string> :=
    map["mooi" := "raw", "goed" := "zieke", "leuk" := "vet", "beter" := "blazend", "groot" := "massief"]

  const POETIC_MAP: map<string, string> :=
    map["zieke" := "mysterieuze", "vet" := "elegante", "raw" := "sublieme", "snelle" := "zwierende"]

  const WORDPLAY_SUFFIX := ", blijf niet stilstaan"

  /** `words.map(w => table[w.toLowerCase()] || w)`. */
  function Substitute(words: seq<string>, table: map<string, string>): (r: seq<string>)
    ensures |r| == |words|
    ensures forall k :: 0 <= k < |words| ==>
              r[k] == if Lower(words[k]) in table then table[Lower(words[k])] else words[k]
  {
    if words == [] then [] else
      [if Lower(words[0]) in table then table[Lower(words[0])] else words[0]] + Substitute(words[1..], table)
  }

  function Rewrite(line: string, table: map<string, string>): string {
    Join(Substitute(Split(line), table), " ")
  }

  /** The last piece of `line.split(/\s+/)`: the query word's token, and the piece whose syllables decide the wordplay line. */
  function LastPiece(line: string): (r: string)
    ensures NoSpace(r)
  {
    var words := Split(line);
    words[|words| - 1]
  }

  /** The last piece is the longest space-free suffix. */
  lemma LastPieceIsSuffix(line: string)
    ensures LastPiece(line) == line[|line| - NonSpaceSuffix(line)..]
  {
  }

  /**
   * The variations `generateFlowVariations` returns: the harder and the more
   * poetic rewrite when they differ from the line, then the wordplay line
   * when the last piece of the split has at most two syllables.
   */
  function FlowVariations(line: string): seq<string> {
    var harder := Rewrite(line, HARD_MAP);
    var poetic := Rewrite(line, POETIC_MAP);
    PushIf(PushIf(PushIf([], harder != line, harder), poetic != line, poetic),
           SyllableCount(LastPiece(line)) <= 2, line + WORDPLAY_SUFFIX)
  }

  /** A `push` guarded by an `if`. */
  function PushIf(xs: seq<string>, c: bool, v: string): (r: seq<string>)
    ensures |r| == |xs| + (if c then 1 else 0) && r[..|xs|] == xs
    ensures c ==> r[|xs|] == v
  {
    if c then xs + [v] else xs
  }

  /** `generateFlowVariations`: up to three pushes onto an empty list. */
  method GenerateFlowVariations(line: string) returns (variations: seq<string>)
    ensures variations == FlowVariations(line)
  {
    variations := [];
    var harder := Rewrite(line, HARD_MAP);
    if harder != line {
      variations := variations + [harder];
    }
    var poetic := Rewrite(line, POETIC_MAP);
    if poetic != line {
      variations := variations + [poetic];
    }
    var syllables := SyllableCount(LastPiece(line));
    if syllables <= 2 {
      variations := variations + [line + WORDPLAY_SUFFIX];
    }
  }

  /**
   * At most three variations, each one of the three forms; the harder
   * rewrite leads exactly when it changes the line, the wordplay line closes
   * the list exactly when the last piece is short, and the count adds up.
   */
  lemma FlowVariationsShape(line: string)
    ensures var v := FlowVariations(line);
            && |v| <= 3
            && (forall k :: 0 <= k < |v| ==>
                  v[k] == Rewrite(line, HARD_MAP) || v[k] == Rewrite(line, POETIC_MAP)
                  || v[k] == line + WORDPLAY_SUFFIX)
            && (Rewrite(line, HARD_MAP) != line <==> |v| > 0 && v[0] == Rewrite(line, HARD_MAP) != line)
            && (SyllableCount(LastPiece(line)) <= 2 ==> |v| > 0 && v[|v| - 1] == line + WORDPLAY_SUFFIX)
            && |v| == (if Rewrite(line, HARD_MAP) != line then 1 else 0)
                      + (if Rewrite(line, POETIC_MAP) != line then 1 else 0)
                      + (if SyllableCount(LastPiece(line)) <= 2 then 1 else 0)
  {
    var harder, poetic := Rewrite(line, HARD_MAP), Rewrite(line, POETIC_MAP);
    var short := SyllableCount(LastPiece(line)) <= 2;
    assert FlowVariations(line)
        == PushIf(PushIf(PushIf([], harder != line, harder), poetic != line, poetic), short, line + WORDPLAY_SUFFIX);
    ThreePushes(line, harder, poetic, short, line + WORDPLAY_SUFFIX);
  }

  lemma ThreePushes(line: string, harder: string, poetic: string, short: bool, wordplay: string)
    ensures var v := PushIf(PushIf(PushIf([], harder != line, harder), poetic != line, poetic), short, wordplay);
            && |v| == (if harder != line then 1 else 0) + (if poetic != line then 1 else 0) + (if short then 1 else 0)
            && (forall k :: 0 <= k < |v| ==> v[k] == harder || v[k] == poetic || v[k] == wordplay)
            && (harder != line <==> |v| > 0 && v[0] == harder != line)
            && (short ==> v[|v| - 1] == wordplay)
  {
    var v1 := PushIf([], harder != line, harder);
    var v2 := PushIf(v1, poetic != line, poetic);
    var v := PushIf(v2, short, wordplay);
    forall k | 0 <= k < |v|
      ensures v[k] == harder || v[k] == poetic || v[k] == wordplay
    {
      if k < |v2| {
        assert v[k] == v[..|v2|][k] == v2[k];
        if k < |v1| {
          assert v2[k] == v2[..|v1|][k];
        }
      }
    }
    if harder != line {
      assert v[0] == v[..|v2|][0] == v2[..|v1|][0];
    }
  }

  // ---------------------------------------------------------------------
  // analyzeFlow
  // ---------------------------------------------------------------------

  const TOO_LONG := "Regels zijn te lang. Knip hier en daar woorden weg voor betere flow."
  const ROOM_TO_ADD := "Je kunt meer toevoegen. Voeg pauzes of adlibs toe (ey, uh, ja)."
  const FLOW_GOOD := "Flow staat goed!"

  datatype FlowReport = FlowReport(syllables: seq<int>, suggestion: string)

  /** `words.reduce((sum, word) => sum + syllableCount(word), 0)`. */
  function SumSyllables(words: seq<string>): (r: int)
    ensures r >= |words|
  {
    if words == [] then 0 else SumSyllables(words[..|words| - 1]) + SyllableCount(words[|words| - 1])
  }

  function LineSyllables(line: string): (r: int)
    ensures r >= 1
  {
    SumSyllables(Split(line))
  }

  function Sum(xs: seq<int>): int {
    if xs == [] then 0 else Sum(xs[..|xs| - 1]) + xs[|xs| - 1]
  }

  function PerLineSyllables(lines: seq<string>): (r: seq<int>)
    ensures |r| == |lines| && forall i :: 0 <= i < |lines| ==> r[i] == LineSyllables(lines[i])
  {
    if lines == [] then [] else [LineSyllables(lines[0])] + PerLineSyllables(lines[1..])
  }

  /**
   * `analyzeFlow`. With S the syllable total and n the number of lines, the
   * source's avg > 1.2 * target and avg < 0.8 * target (target = bpm / 90 * 16)
   * are 75 * S > 16 * bpm * n and 225 * S < 32 * bpm * n; for n = 0 both fail,
   * as the source's NaN comparisons do.
   */
  function AnalyzeFlow(lines: seq<string>, bpm: int := 90): (r: FlowReport)
    ensures |r.syllables| == |lines|
    ensures forall i :: 0 <= i < |lines| ==> r.syllables[i] == LineSyllables(lines[i]) >= 1
    ensures r.suggestion == TOO_LONG || r.suggestion == ROOM_TO_ADD || r.suggestion == FLOW_GOOD
    ensures lines == [] ==> r.suggestion == FLOW_GOOD
    ensures lines != [] ==>
              var avg := Sum(r.syllables) as real / |lines| as real;
              var target := bpm as real / 90.0 * 16.0;
              && (r.suggestion == TOO_LONG <==> avg > target * 1.2)
              && (r.suggestion == ROOM_TO_ADD <==> !(avg > target * 1.2) && avg < target * 0.8)
              && (r.suggestion == FLOW_GOOD <==> !(avg > target * 1.2) && !(avg < target * 0.8))
  {
    var syllables := PerLineSyllables(lines);
    var total := Sum(syllables);
    var n := |lines|;
    assert n > 0 ==>
             var avg := total as real / n as real;
             var target := bpm as real / 90.0 * 16.0;
             && (75 * total > 16 * bpm * n <==> avg > target * 1.2)
             && (225 * total < 32 * bpm * n <==> avg < target * 0.8) by {
      if n > 0 {
        FlowBandsMatchAverage(total, n, bpm);
      }
    }
    var suggestion :=
      if 75 * total > 16 * bpm * n then TOO_LONG
      else if 225 * total < 32 * bpm * n then ROOM_TO_ADD
      else FLOW_GOOD;
    FlowReport(syllables, suggestion)
  }

  /** The integer bands agree with the source's real-valued comparisons. */
  lemma FlowBandsMatchAverage(total: int, n: int, bpm: int)
    requires n > 0
    ensures var avg := total as real / n as real;
            var target := bpm as real / 90.0 * 16.0;
            && (75 * total > 16 * bpm * n <==> avg > target * 1.2)
            && (225 * total < 32 * bpm * n <==> avg < target * 0.8)
  {
    var avg := total as real / n as real;
    var target := bpm as real / 90.0 * 16.0;
    assert avg * n as real == total as real;
    assert target * 1.2 * n as real * 75.0 == (16 * bpm * n) as real;
    assert target * 0.8 * n as real * 225.0 == (32 * bpm * n) as real;
  }
}
