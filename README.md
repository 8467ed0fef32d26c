# Rap-notitie: a verified model of the rhyme core

This project models the core of a Dutch rap-writing app. It has four parts:

- **Phonetic toolkit** (`Phonetics`). It transcribes a word with two ordered tables of literal rewrite rules. It picks a rhyme key, the suffix of the transcription that two words must share to rhyme. It also counts syllables heuristically, builds a stress pattern, computes a Levenshtein distance between phoneme strings, and tests assonance on the first vowel-class character.
- **Rhyme engine** (`RhymeEngine`, with the word list in `Lexicon`). It takes the last word of a line and classifies every lexicon entry. Classification stops at the first rule that applies: equal key, then distance ≤ 2, then assonance, then the same first letter. The engine then sorts the candidates by score (a stable sort) and cuts the list to `maxResults`. A cache field of the `Engine` class memoises the result. The engine also analyses the flow of a verse against a BPM target and produces up to three flow variations of a line.
- **Slang dictionary** (`SlangDB`). It is a mutable map in the `SlangStore` class. Keys are lowercased terms. The store supports upsert, delete and lookup, a heuristic that flags unknown words as possible slang, default seeding, and the clear-and-refill step that reloads the map from the saved list of terms.
- **Editor state** (`AppStore`). The `Store` class holds the project list, the current project, the verse lines, the current line, the suggestions and the feedback history. It models every transition that edits lines or projects, and the sync of the current project back into the list.

Scores are integer tenths (10, 8, 6, 4 for 1.0, 0.8, 0.6, 0.4). Text is `seq<char>`, and `toLowerCase` is ASCII lowercase. Timestamps are parameters.

Where the comments and the code disagree, the model follows the code:

- `extractRhymeKey` and `isAssonance` take the **first** vowel-class character, as the non-global `match` does. The comments say "laatste" (last).
- Because the character class comes first in the alternation, the `ɛi|œy` alternatives are never chosen.
- The vowel class of `syllableCount` contains `j`.
- `line.trim().split(/\s+/)` always has a piece, so a blank line gives the query word `""` and the `words.length === 0` guard never fires (`RhymeEngine.BlankLineLastWord`).
- With no lines, `analyzeFlow` answers "Flow staat goed!", because both NaN comparisons fail.
- `loadFromLocalStorage` tests the stored string, not the parsed array. A saved `"[]"` therefore still clears the dictionary.
- The pronoun pattern of `isKnownWord` never changes its outcome. The short pronouns (ik, de, na) fail the length test, and all the others already contain a three-letter run (`SlangDB.KnownWordIsLetterRun`). As a result, `detectSlang("de")` flags "de" as possible slang.

## Model

| member | source | states |
|---|---|---|
| Phonetics.ApplyTable | src/services/phonetics.ts:45-52 | running one rule table in a loop, one global literal replacement per rule in table order, equals the recursive specification `ApplyRules` |
| Phonetics.ReplaceAll | src/services/phonetics.ts:46 | a global literal replace leaves the string unchanged when the pattern occurs nowhere or the sound is the pattern itself; the empty string stays empty |
| Phonetics.Phonemize | src/services/phonetics.ts:41-55 | the result is the consonant table followed by the vowel table applied to the lowercased word; it contains no 'e', 'i', 'o' or 'u'; the empty word maps to the empty string |
| Phonetics.ReplaceAllExcludes | src/services/phonetics.ts:46 | after a global replace of the single letter c by a sound that lacks c, c no longer occurs; a replace keeps a letter absent when the sound lacks it |
| Phonetics.ApplyRulesExcludes | src/services/phonetics.ts:50-52 | once the rule for the single letter c has run, c stays absent if no later rule writes it |
| Phonetics.PhonemeStringHasNoPlainVowels | src/services/phonetics.ts:22-26 | no transcription contains ASCII 'e', 'i', 'o' or 'u', because the single-vowel rules run last and produce none of them |
| Phonetics.PhonemeStringEmpty | src/services/phonetics.ts:41-55 | the empty word transcribes to the empty string |
| Phonetics.FirstVowelMatch | src/services/phonetics.ts:67 | Some exactly when the string contains a vowel-class character; it then gives the position and the one-character match |
| Phonetics.Chunks | src/services/phonetics.ts:75 | every match of `/.{1,3}/g` has 1 to 3 characters |
| Phonetics.ChunksCover | src/services/phonetics.ts:75 | without line terminators, the matches joined back together give the whole string |
| Phonetics.ExtractRhymeKey | src/services/phonetics.ts:60-77 | for at most two syllables, the key is the suffix starting at the first vowel-class character, or the last min(3, len) characters when there is none; for more syllables, the key is the last LongKeyLength(len) characters |
| Phonetics.LastTwoChunks | src/services/phonetics.ts:75-76 | joining the last two greedy 1-3 character chunks gives the last min(len, 3 + (len mod 3 = 0 ? 3 : len mod 3)) characters |
| Phonetics.ExtractRhymeKeyIsSuffix | src/services/phonetics.ts:60-77 | the rhyme key is always a suffix of the transcription |
| Phonetics.SyllableCount | src/services/phonetics.ts:82-101 | at least 1; exactly 1 when the trimmed, lowercased word has at most 3 characters; at most max(1, number of a/e/i/o/u/j) |
| Phonetics.VowelCount | src/services/phonetics.ts:88 | at most the length of the word, and 0 exactly when no character is one of a, e, i, o, u, j |
| Phonetics.DiphthongCount | src/services/phonetics.ts:97 | every greedy match of ui, ij, ei, ou or au consumes two characters, so there are at most half as many matches as characters |
| Phonetics.DiphthongsPairVowels | src/services/phonetics.ts:97-98 | each greedy ui/ij/ei/ou/au match consumes two counted vowels, so the diphthongs number at most half the vowels |
| Phonetics.SyllableCountLowerBound | src/services/phonetics.ts:88-100 | for words longer than 3 characters, about half the counted vowels survive the corrections (2·count + 2 ≥ vowels) |
| Phonetics.StressPattern | src/services/phonetics.ts:106-114 | the pattern has max(0, n) entries: 'STRESSED' at positions 0 and 1 and 'unstressed' after them |
| Phonetics.PhonemeDistance | src/services/phonetics.ts:119-142 | filling the 2-D table row by row gives the recursive Levenshtein distance `EditDistance` |
| Phonetics.FillRow | src/services/phonetics.ts:131-138 | given row i − 1 of the table and matrix[i][0] = i, one run of the inner loop makes row i hold the distance from a[..i] to every prefix of b, and leaves the first column of later rows alone |
| Phonetics.EditDistanceZeroIff | src/services/phonetics.ts:119-142 | the distance is 0 if and only if the two strings are equal |
| Phonetics.EditDistanceSymmetric | src/services/phonetics.ts:119-142 | the distance is symmetric |
| Phonetics.EditDistanceBounds | src/services/phonetics.ts:119-142 | the difference of the two lengths ≤ the distance ≤ the larger length |
| Phonetics.DistSymmetric | src/services/phonetics.ts:130-139 | each table cell (i, j) equals the transposed cell (j, i) of the swapped strings |
| Phonetics.DistBounds | src/services/phonetics.ts:122-139 | every table cell lies between the difference of the prefix lengths and the larger prefix length |
| Phonetics.DistZeroEqual | src/services/phonetics.ts:130-139 | a zero cell means the two prefixes are equal |
| Phonetics.DistZeroOfEqual | src/services/phonetics.ts:130-139 | equal prefixes give a zero cell |
| Phonetics.IsAssonance | src/services/phonetics.ts:147-159 | true only when both transcriptions contain a vowel-class character, so a word without one is never assonant |
| Phonetics.IsAssonanceSymmetric | src/services/phonetics.ts:147-159 | assonance is symmetric |
| RhymeEngine.StripTrailingPunctuation | src/services/rhymeEngine.ts:257 | removes exactly the maximal trailing run of . , ! ? ; : and keeps the prefix before it |
| RhymeEngine.LastWord | src/services/rhymeEngine.ts:254-257 | the query word has no whitespace and no uppercase letter, and it does not end in punctuation |
| RhymeEngine.LastWordIsLastToken | src/services/rhymeEngine.ts:254-257 | the query word is the last whitespace-free run of the trimmed line, lowercased, with its trailing run of punctuation removed |
| RhymeEngine.LastPieceIsSuffix | src/services/rhymeEngine.ts:254 | the last piece of `split(/\s+/)` is the longest suffix without whitespace |
| RhymeEngine.BlankLineLastWord | src/services/rhymeEngine.ts:254-257 | a line of only whitespace gives the empty query word, so the guard at :255 never returns |
| RhymeEngine.Classify | src/services/rhymeEngine.ts:295-339 | a kept entry is always reported under the entry's own word (its full meaning is `ClassifyMeaning`) |
| RhymeEngine.ClassifyMeaning | src/services/rhymeEngine.ts:294-340 | an entry is kept if and only if one of the four tests holds; perfect exactly when the keys are equal (score 10); distance 1-2 gives multisyllabic with 10 − 2·d; otherwise assonance gives 6; otherwise the same first character (with a non-empty query word) gives alliteration 4 |
| RhymeEngine.ClassifyByKeyMeaning | src/services/rhymeEngine.ts:302-339 | the same four-way meaning, for any candidate key the chain is given |
| RhymeEngine.TestChain | src/services/rhymeEngine.ts:301-339 | the four guarded pushes, each followed by `continue`, produce exactly the first classification that applies (none when no test holds) |
| RhymeEngine.ClassifyEntry | src/services/rhymeEngine.ts:294-339 | the query word itself is skipped; every other entry gives exactly its classification, as a list of zero or one candidate |
| RhymeEngine.CollectSound | src/services/rhymeEngine.ts:294-340 | every collected candidate is the classification of some lexicon entry |
| RhymeEngine.CollectComplete | src/services/rhymeEngine.ts:294-340 | every lexicon entry that classifies to a candidate appears in the result |
| RhymeEngine.CandidatesExact | src/services/rhymeEngine.ts:294-340 | every candidate is a lexicon word other than the query word, together with its classification; every entry that classifies is present |
| RhymeEngine.FindRhymeCandidates | src/services/rhymeEngine.ts:287-343 | the loop over the lexicon yields exactly the specification `Candidates` |
| RhymeEngine.Insert | src/services/rhymeEngine.ts:363 | an insertion step of the sort adds exactly one element (multiset) |
| RhymeEngine.InsertSorted | src/services/rhymeEngine.ts:363 | inserting into a list in non-increasing score order keeps that order |
| RhymeEngine.InsertWithScore | src/services/rhymeEngine.ts:363 | the inserted element lands just before the elements of equal score, which keep their order; the sort inserts the head into the sorted tail, so this makes it stable |
| RhymeEngine.SortByScore | src/services/rhymeEngine.ts:363 | the result is a permutation, in non-increasing score order, and stable: for every score, the candidates with that score keep their input order |
| RhymeEngine.ToRhymeCandidates | src/services/rhymeEngine.ts:354-362 | each raw candidate maps to one candidate, position by position |
| RhymeEngine.RankedFromCandidate | src/services/rhymeEngine.ts:353-363 | every ranked candidate comes from some raw candidate |
| RhymeEngine.RankCandidates | src/services/rhymeEngine.ts:353-363 | the ranked list has one entry per raw candidate, is a permutation of the mapped candidates, and is in non-increasing score order |
| RhymeEngine.RankCandidatesStable | src/services/rhymeEngine.ts:363 | for every score, the candidates with that score keep their input order, as the stable `Array.prototype.sort` keeps them |
| RhymeEngine.RankedFacts | src/services/rhymeEngine.ts:287-363 | every ranked candidate is a lexicon word other than the query word, with syllables = syllableCount(text) ≥ 1, no stress pattern, and the score its rhyme type allows |
| RhymeEngine.SliceTo | src/services/rhymeEngine.ts:276 | `slice(0, n)` is the prefix of length min(n, len), or len + n for negative n |
| RhymeEngine.RhymesProperties | src/services/rhymeEngine.ts:248-281 | every returned candidate is a lexicon word other than the query word; its syllables are syllableCount(text) ≥ 1 with no stress pattern; perfect exactly when the score is 10; multisyllabic scores 8 or 6; assonance scores 6; alliteration scores 4; the result is sorted by score and has min(maxResults, n) entries for n candidates (n + maxResults when maxResults is negative) |
| RhymeEngine.CacheKeyInjective | src/services/rhymeEngine.ts:260 | the key `lastWord:maxResults` determines both the word and the number |
| RhymeEngine.MemoisesStore | src/services/rhymeEngine.ts:279 | storing a freshly computed list keeps every cache entry equal to the rhymes for its word and bound |
| RhymeEngine.ComputeRhymes | src/services/rhymeEngine.ts:265-276 | phonemize, key, candidates, ranking and slice give the specification `Rhymes` |
| RhymeEngine.Engine.constructor | src/services/rhymeEngine.ts:243 | the cache starts empty over the given lexicon |
| RhymeEngine.Engine.GenerateRhymes | src/services/rhymeEngine.ts:248-282 | with contextLines defaulting to [] and maxResults to 6, returns `Rhymes(lexicon, lastWord, maxResults)` whether or not the key is cached; a hit leaves the cache unchanged; a miss stores the result under its key; every cache entry stays correct; contextLines has no effect |
| RhymeEngine.Substitute | src/services/rhymeEngine.ts:374-394 | each word is replaced by its table entry for the lowercased word, if there is one, and kept otherwise; the number of words is unchanged |
| RhymeEngine.GenerateFlowVariations | src/services/rhymeEngine.ts:369-405 | the three guarded pushes give the specification `FlowVariations` |
| RhymeEngine.FlowVariationsShape | src/services/rhymeEngine.ts:369-405 | at most three variations, each the harder rewrite, the poetic rewrite or line + ", blijf niet stilstaan"; the harder rewrite comes first exactly when it differs from the line; the wordplay line comes last when the last piece has at most 2 syllables; the count is the number of guards that hold |
| RhymeEngine.SumSyllables | src/services/rhymeEngine.ts:415 | the sum over the pieces is at least the number of pieces |
| RhymeEngine.LineSyllables | src/services/rhymeEngine.ts:414-416 | every line counts at least 1 syllable, even an empty one |
| RhymeEngine.AnalyzeFlow | src/services/rhymeEngine.ts:410-432 | one syllable count per line, each ≥ 1; with target = bpm / 90 · 16 and bpm defaulting to 90, the suggestion is "too long" exactly when the average exceeds 1.2·target, "room to add" exactly when it does not and lies below 0.8·target, and "Flow staat goed!" otherwise; no lines gives "Flow staat goed!" |
| RhymeEngine.FlowBandsMatchAverage | src/services/rhymeEngine.ts:419-429 | the integer bands are exactly avg > 1.2·target and avg < 0.8·target, with target = bpm / 90 · 16 |
| SlangDB.Put | src/services/slangDB.ts:86 | after `set`, the lowercased term maps to the term, every other key is unchanged, and the insertion order gains the key only when it is new |
| SlangDB.Without | src/services/slangDB.ts:110 | removes exactly the key from the insertion order; distinct keys stay distinct; an absent key changes nothing |
| SlangDB.WithoutAt | src/services/slangDB.ts:110 | on distinct keys, removing the key at position p gives keys[..p] + keys[p + 1..], so the other keys keep their order |
| SlangDB.Delete | src/services/slangDB.ts:110 | after `delete`, the key is absent and every other key is unchanged; the insertion order loses exactly the key's position and keeps the rest in order; deleting an absent key changes nothing |
| SlangDB.PutAll | src/services/slangDB.ts:44-46 | a fold of `set` keeps the map keyed by lowercased terms |
| SlangDB.PutAllLastWins | src/services/slangDB.ts:135-137 | after inserting a list of terms, each key maps to the last term with that key |
| SlangDB.PutAllKeys | src/services/slangDB.ts:135-137 | after inserting a list, a key is present exactly when it was present before or some term in the list has that key |
| SlangDB.Values | src/services/slangDB.ts:103 | the values in insertion order, one per key |
| SlangDB.ReloadValuesRestores | src/services/slangDB.ts:117-137 | saving the values and refilling an empty map from them restores the same map and order |
| SlangDB.KnownWordIsLetterRun | src/services/slangDB.ts:73-80 | on lowercase input, a word is known if and only if it is longer than 2 and contains three consecutive a-z letters |
| SlangDB.IsKnownWord | src/services/slangDB.ts:73-80 | a known word is longer than 2 characters, and every word longer than 2 with three consecutive a-z letters is known |
| SlangDB.SlangStore.constructor | src/services/slangDB.ts:41 | an empty map, with the given stored value |
| SlangDB.SlangStore.Set | src/services/slangDB.ts:86 | the map becomes `Put(old map, term)` |
| SlangDB.SlangStore.DetectSlang | src/services/slangDB.ts:51-68 | with w = trim(lower(word)): a stored w gives isSlang true with the stored confidence and term; otherwise an unknown w gives (true, 0.3, no term) and a known w gives (false, 0, no term) |
| SlangDB.SlangStore.ShortWordIsPossibleSlang | src/services/slangDB.ts:61-64 | an unlisted word of at most 2 characters is always flagged as possible slang |
| SlangDB.SlangStore.DeIsPossibleSlang | src/services/slangDB.ts:61-64 | "de" is flagged as possible slang when it is not listed, although it is in the pronoun list |
| SlangDB.SlangStore.GetSlangTerm | src/services/slangDB.ts:95-97 | Some exactly when lower(word) is a key, without trimming; the stored term has that lowercase name |
| SlangDB.SlangStore.GetAllSlang | src/services/slangDB.ts:102-104 | one value per key, in insertion order, and each is found again by its own name |
| SlangDB.SlangStore.SaveToLocalStorage | src/services/slangDB.ts:117-124 | the stored list becomes the current values |
| SlangDB.SlangStore.AddSlangTerm | src/services/slangDB.ts:85-90 | the map becomes `Put(old map, term)`, stays keyed by lowercased terms, and is saved |
| SlangDB.SlangStore.RemoveSlangTerm | src/services/slangDB.ts:109-112 | the map becomes `Delete(old map, lower(term))` and is saved |
| SlangDB.SlangStore.Refill | src/services/slangDB.ts:134-137 | the map becomes the terms inserted in order into an empty map, so the old entries are replaced, not merged |
| SlangDB.SlangStore.SetAll | src/services/slangDB.ts:44-46 | the map becomes the old map with the terms inserted in order |
| SlangDB.SlangStore.LoadFromLocalStorage | src/services/slangDB.ts:129-142 | a stored list clears the map and refills it in order; without one, the map is unchanged |
| SlangDB.Initialize | src/services/slangDB.ts:41-46 | seeds the map with the defaults, then reloads: without a stored value the map holds the defaults, with one it holds only the stored terms |
| SlangDB.InitializeModule | src/services/slangDB.ts:8-46 | the same, with the 28 default terms of the dictionary |
| AppStore.FindById | src/store/appStore.ts:79 | Some exactly when a project has the id, and then it is the first such project |
| AppStore.FindByIdShift | src/store/appStore.ts:79 | when the head does not match, a search in the list agrees with a search in its tail |
| AppStore.ReplaceById | src/store/appStore.ts:170-172 | same length and ids; each project with the current id becomes the current project, and the others are unchanged |
| AppStore.ReplaceByIdIdempotent | src/store/appStore.ts:170-172 | replacing twice is the same as replacing once |
| AppStore.ReplaceByIdContains | src/store/appStore.ts:170-172 | the current project is in the new list exactly when its id was in the old one |
| AppStore.RemoveAt | src/store/appStore.ts:108 | the filter removes exactly index i when it is in range, and otherwise keeps the lines |
| AppStore.RemoveAtKeepsOthers | src/store/appStore.ts:108 | after removal, the length drops by one, earlier lines keep their positions, and later lines move up by one |
| AppStore.SetAt | src/store/appStore.ts:101-102 | writing at i puts the text at i and keeps every other line; the length grows only when i is the length; a negative index changes nothing |
| AppStore.Store.constructor | src/store/appStore.ts:48-56 | the initial state: no projects, lines [""], line 0, 90 BPM, no suggestions, pending slang or feedback |
| AppStore.Store.CreateProject | src/store/appStore.ts:59-76 | appends the project (the id is the timestamp's digits, lines [""], both times `now`), makes it current, and resets lines to [""] and currentLine to 0 |
| AppStore.Store.SelectProject | src/store/appStore.ts:78-87 | with a match, the first matching project becomes current, its lines become the lines, and currentLine becomes 0; without one, nothing changes |
| AppStore.Store.SaveProject | src/store/appStore.ts:162-176 | without a current project, nothing changes; otherwise the current project takes the lines and `now`, and every project with its id is replaced by it |
| AppStore.Store.UpdateLines | src/store/appStore.ts:89-92 | the lines become the argument, then the project is saved |
| AppStore.Store.AddLine | src/store/appStore.ts:94-98 | appends exactly one "" and keeps the earlier lines, then the project is saved |
| AppStore.Store.UpdateLine | src/store/appStore.ts:100-105 | changes only position i, then the project is saved |
| AppStore.Store.DeleteLine | src/store/appStore.ts:107-111 | removes exactly index i and keeps the order of the rest, then the project is saved |
| AppStore.Store.SetSuggestions | src/store/appStore.ts:113-115 | stores the candidates and resets the selected suggestion to 0 |
| AppStore.Store.SelectSuggestion | src/store/appStore.ts:117-119 | sets the selected suggestion |
| AppStore.Store.ApplySuggestion | src/store/appStore.ts:121-127 | writes the text at currentLine, changes nothing else in lines, then the project is saved |
| AppStore.Store.SetPendingSlang | src/store/appStore.ts:129-131 | sets the pending slang word |
| AppStore.Store.AddFeedback | src/store/appStore.ts:133-137 | appends exactly one entry to the feedback history |
| AppStore.Store.SetCurrentLine | src/store/appStore.ts:157-159 | sets the current line |
| Text.Trim | src/services/rhymeEngine.ts:254 | neither end of the result is whitespace, and a string without whitespace at either end is unchanged |
| Text.TrimAllSpace | src/services/rhymeEngine.ts:254 | a string of whitespace only trims to the empty string |
| Text.TrimKeepsMiddle | src/services/rhymeEngine.ts:254 | a string with a non-whitespace character trims to exactly what lies between its leading and its trailing whitespace run |
| Text.Lower | src/services/rhymeEngine.ts:257 | same length, and every character is lowered one by one (A-Z to a-z, the rest unchanged) |
| Text.Split | src/services/rhymeEngine.ts:254 | `split(/\s+/)` yields at least one piece, no piece contains whitespace, the first piece is the leading whitespace-free run (empty when the string starts with whitespace) and the last piece is the trailing one |
| Text.IntToStringInjective | src/store/appStore.ts:61 | distinct timestamps give distinct project ids |

## Left out

- Unicode: `normalize('NFD')`, stripping combining marks, and `toLowerCase` beyond ASCII are foreign calls. `Lower` folds only A-Z. Lengths count code points, not UTF-16 units.
- Persistence: `localStorage` and JSON are I/O. The slang store keeps its stored value as an already-parsed `Option<seq<SlangTerm>>`. The projects' `saveToLocalStorage` and `loadFromLocalStorage` (src/store/appStore.ts:178-202) are I/O and are not modelled.
- SlangDB.SlangStore.LoadFromLocalStorage: a stored value that is not an array, or a term without `.term`, makes the source throw part-way. That leaves a partly refilled map and is not modelled.
- `exportProject` (src/store/appStore.ts:139-155) uses Blob, the DOM and `alert`, so it is not modelled.
- `Date.now()` becomes a parameter `now`. The three reads in `createProject` are taken as one instant.
- Zustand's `create`/`set`/`get` merging becomes plain field updates. The React components are UI and are not modelled.
- Floating point: scores are integer tenths, and the flow bands are exact cross-multiplied comparisons. Rounding of doubles at the exact band boundaries is not modelled. Slang confidence is carried through as a `real`.
- The lexicon's `frequency` field is never read by the scoring, so it carries no behaviour.
- `hardMap`/`poeticMap` are object literals. A word such as "constructor" would hit a prototype property in the source. The model's maps hold only the listed words.
- AppStore.Store.UpdateLine and AppStore.Store.ApplySuggestion: an index more than one past the end makes a JavaScript array with holes. The model requires index ≤ |lines|.
- Phonetics.ExtractRhymeKeyIsSuffix: `/.{1,3}/g` skips line terminators, so the key is a suffix only for transcriptions without them. The lemma requires that.
- Phonetics.SyllableCount: the contract states bounds. The exact count (vowels, minus one for a final 'e', minus the diphthongs) is the function's definition.
- Text.IntToString: `${n}` uses exponent notation for very large numbers. The model always writes plain digits.
- AppStore.Store.SaveProject: the source mutates the current project object in place, and that object is shared with the list. The model copies the updated value into both places.
- SlangDB.Initialize takes the defaults as a parameter. SlangDB.InitializeModule passes the 28-term table.
