/**
 * The slang store of src/services/slangDB.ts: a JavaScript `Map` from the
 * lowercased term to the term, seeded with the built-in terms, changed by
 * additions and removals, written to and reloaded from local storage.
 */
module SlangDB {
  import opened Wrappers
  import opened Text
  import opened Types

  /** The built-in terms, in the order they are seeded. */
  const DEFAULT_SLANG: seq<SlangTerm> := [
    SlangTerm("sike", "grapje / niet waar / oops", Some("NL"), ["Ha, sike! dat was niet de bedoeling"], None, 0.9),
    SlangTerm("zieke", "heel cool, awesome", Some("NL"), ["Dat is een zieke beat"], None, 0.95),
    SlangTerm("famo", "dude / vriend", Some("NL"), ["Yo famo, wat doe je?"], None, 0.85),
    SlangTerm("main", "vriend / broer", Some("NL"), ["Kom op main, we gaan"], None, 0.8),
    SlangTerm("biekes", "meisjes, chicks", Some("NL"), ["Die biekes zijn cool"], None, 0.75),
    SlangTerm("hossel", "hustle, druk bezig zijn, werken", Some("NL"), ["Ik ben nog op me hossel"], None, 0.9),
    SlangTerm("gesetteld", "geregeld, goed zitten, stabiel", Some("NL"), ["Dan zijn we gesetteld kunnen we brieven blijven tellen"], None, 0.85),
    SlangTerm("prayen", "bidden, hopen", Some("NL"), ["We blijven prayen"], None, 0.9),
    SlangTerm("securen", "veiligstellen, pakken", Some("NL"), ["Hier securen we de bag"], None, 0.88),
    SlangTerm("brieven", "geld, bankbiljetten", Some("NL"), ["Brieven blijven tellen"], None, 0.92),
    SlangTerm("bag", "geld, winst, deal", Some("NL/EN"), ["Money in me bag", "We gonna get the bag"], None, 0.95),
    SlangTerm("chase", "achtervolgen, najagen", Some("EN"), ["Ik ben al dagen aan het chase voor die money"], None, 0.9),
    SlangTerm("ghost", "verdwijnen, onzichtbaar zijn", Some("EN"), ["Je weet toch dat ik ghost"], None, 0.88),
    SlangTerm("ghost rider", "iemand die stiekem/onzichtbaar beweegt", Some("NL/EN"), ["Ghost rider in de wijk"], None, 0.85),
    SlangTerm("nepheid", "fake gedrag, onecht zijn", Some("NL"), ["We waarderen geen nepheid"], None, 0.9),
    SlangTerm("on the road", "onderweg, bezig", Some("EN"), ["Met me jongens on the road"], None, 0.92),
    SlangTerm("capture the flag", "doel bereiken, winnen", Some("EN"), ["Need to capture the flag"], None, 0.8),
    SlangTerm("winning streak", "reeks overwinningen", Some("EN"), ["Ben op een winning streak"], None, 0.85),
    SlangTerm("honey pak", "aantrekkelijke vrouw die blijft hangen", Some("NL"), ["Als honing blijft ze aan me bil plakken geen honey pak"], None, 0.75),
    SlangTerm("zeiknat", "kletsnathellip;, zeer nat", Some("NL"), ["Kwam thuis ik was zeiknat"], None, 0.95),
    SlangTerm("zeikland", "kut land, slecht land", Some("NL"), ["Dit is een zeikland"], None, 0.9),
    SlangTerm("figueres", "6 cijfers, 100k+", Some("NL"), ["6 figueres denk niet alleen aan wijven"], None, 0.85),
    SlangTerm("wijven", "vrouwen (negatief/straat)", Some("NL"), ["Denk niet alleen aan wijven"], None, 0.88),
    SlangTerm("bro", "broer, vriend", Some("NL/EN"), ["Bro je bent de weg kwijt"], None, 0.95),
    SlangTerm("lessons", "lessen, ervaringen", Some("EN"), ["We leerde je weer lessons"], None, 0.9),
    SlangTerm("pressure", "druk, stress", Some("EN"), ["Je had pressure"], None, 0.92),
    SlangTerm("alcantara", "luxe stof voor auto interieurs", Some("NL"), ["Wil die stuur fully alcantara"], None, 0.7),
    SlangTerm("panorama", "panoramadak auto", Some("NL"), ["Dakje panorama"], None, 0.8)
  ]

  // ---------------------------------------------------------------------
  // The Map as a value: its keys in insertion order and its entries
  // ---------------------------------------------------------------------

  datatype Table = Table(keys: seq<string>, entries: map<string, SlangTerm>)

  const EMPTY: Table := Table([], map[])

  ghost predicate Distinct(keys: seq<string>) {
    forall i, j :: 0 <= i < j < |keys| ==> keys[i] != keys[j]
  }

  /**
   * What every store reachable from the source satisfies: the keys are
   * distinct and are exactly the entries' keys, and each key is the
   * lowercased term it holds.
   */
  ghost predicate WellKeyed(t: Table) {
    && Distinct(t.keys)
    && (forall k :: k in t.entries <==> k in t.keys)
    && (forall k :: k in t.entries ==> Lower(t.entries[k].term) == k)
  }

  /** `slangDB.set(term.term.toLowerCase(), term)`: a new key goes last, an existing one keeps its place. */
  function Put(t: Table, term: SlangTerm): (r: Table)
    ensures Lower(term.term) in r.entries && r.entries[Lower(term.term)] == term
    ensures forall k :: k != Lower(term.term) ==>
              (k in r.entries <==> k in t.entries) && (k in t.entries ==> r.entries[k] == t.entries[k])
    ensures Lower(term.term) in t.keys ==> r.keys == t.keys
    ensures Lower(term.term) !in t.keys ==> r.keys == t.keys + [Lower(term.term)]
    ensures WellKeyed(t) ==> WellKeyed(r)
  {
    var key := Lower(term.term);
    Table(if key in t.keys then t.keys else t.keys + [key], t.entries[key := term])
  }

  /** The keys without k, in their order. */
  function Without(keys: seq<string>, k: string): (r: seq<string>)
    ensures forall x :: x in r <==> x in keys && x != k
    ensures Distinct(keys) ==> Distinct(r)
    ensures k !in keys ==> r == keys
  {
    if keys == [] then []
    else
      assert Distinct(keys) ==> Distinct(keys[1..]);
      assert Distinct(keys) ==> keys[0] !in keys[1..];
      (if keys[0] == k then [] else [keys[0]]) + Without(keys[1..], k)
  }

  /** Removing a key from distinct keys cuts out exactly its position: the other keys keep their order. */
  lemma {:induction false} WithoutAt(keys: seq<string>, k: string, p: nat)
    requires Distinct(keys) && p < |keys| && keys[p] == k
    ensures Without(keys, k) == keys[..p] + keys[p + 1..]
  {
    assert Distinct(keys[1..]);
    if p == 0 {
      assert k !in keys[1..];
    } else {
      assert keys[0] != k;
      assert keys[1..][p - 1] == k;
      WithoutAt(keys[1..], k, p - 1);
      assert keys[..p] == [keys[0]] + keys[1..][..p - 1];
      assert keys[p + 1..] == keys[1..][p..];
    }
  }

  /** `slangDB.delete(key)`. */
  function Delete(t: Table, key: string): (r: Table)
    ensures key !in r.entries && key !in r.keys
    ensures forall k :: k != key ==>
              (k in r.entries <==> k in t.entries) && (k in t.entries ==> r.entries[k] == t.entries[k])
    ensures WellKeyed(t) ==> WellKeyed(r)
    ensures WellKeyed(t) && key !in t.entries ==> r == t
    ensures Distinct(t.keys) ==>
              forall p :: 0 <= p < |t.keys| && t.keys[p] == key ==> r.keys == t.keys[..p] + t.keys[p + 1..]
  {
    assert Distinct(t.keys) ==>
             forall p :: 0 <= p < |t.keys| && t.keys[p] == key ==> Without(t.keys, key) == t.keys[..p] + t.keys[p + 1..] by {
      forall p | Distinct(t.keys) && 0 <= p < |t.keys| && t.keys[p] == key
        ensures Without(t.keys, key) == t.keys[..p] + t.keys[p + 1..]
      {
        WithoutAt(t.keys, key, p);
      }
    }
    Table(Without(t.keys, key), t.entries - {key})
  }

  /** `terms.forEach(term => slangDB.set(term.term.toLowerCase(), term))`. */
  function PutAll(t: Table, terms: seq<SlangTerm>): (r: Table)
    ensures WellKeyed(t) ==> WellKeyed(r)
  {
    if terms == [] then t else Put(PutAll(t, terms[..|terms| - 1]), terms[|terms| - 1])
  }

  /** `Array.from(slangDB.values())`: the entries in key order. */
  function Values(t: Table): (r: seq<SlangTerm>)
    requires forall k :: k in t.keys ==> k in t.entries
    ensures |r| == |t.keys| && forall i :: 0 <= i < |t.keys| ==> r[i] == t.entries[t.keys[i]]
    decreases |t.keys|
  {
    if t.keys == [] then []
    else [t.entries[t.keys[0]]] + Values(Table(t.keys[1..], t.entries))
  }

  /** Filling a store term by term: later terms with the same key win. */
  lemma {:induction false} PutAllLastWins(t: Table, terms: seq<SlangTerm>, j: int)
    requires 0 <= j < |terms|
    requires forall l :: j < l < |terms| ==> Lower(terms[l].term) != Lower(terms[j].term)
    ensures Lower(terms[j].term) in PutAll(t, terms).entries
    ensures PutAll(t, terms).entries[Lower(terms[j].term)] == terms[j]
  {
    var init := terms[..|terms| - 1];
    if j < |terms| - 1 {
      forall l | j < l < |init| ensures Lower(init[l].term) != Lower(init[j].term) {
        assert init[l] == terms[l];
      }
      PutAllLastWins(t, init, j);
      assert init[j] == terms[j];
    }
  }

  /** A key is present after filling exactly when it was before or some term has it. */
  lemma {:induction false} PutAllKeys(t: Table, terms: seq<SlangTerm>, k: string)
    ensures k in PutAll(t, terms).entries <==>
            k in t.entries || exists j :: 0 <= j < |terms| && Lower(terms[j].term) == k
  {
    if terms != [] {
      var init := terms[..|terms| - 1];
      PutAllKeys(t, init, k);
      if exists j :: 0 <= j < |init| && Lower(init[j].term) == k {
        var j :| 0 <= j < |init| && Lower(init[j].term) == k;
        assert terms[j] == init[j];
      }
      if exists j :: 0 <= j < |terms| && Lower(terms[j].term) == k {
        var j :| 0 <= j < |terms| && Lower(terms[j].term) == k;
        if j < |init| {
          assert init[j] == terms[j];
        }
      }
    }
  }

  /** The entries of t restricted to the given keys. */
  function Restrict(entries: map<string, SlangTerm>, keys: seq<string>): map<string, SlangTerm> {
    map k | k in keys && k in entries :: entries[k]
  }

  /** Filling with one more term is one more `set`. */
  lemma PutAllSnoc(t: Table, terms: seq<SlangTerm>, term: SlangTerm)
    ensures PutAll(t, terms + [term]) == Put(PutAll(t, terms), term)
  {
    assert (terms + [term])[..|terms|] == terms;
  }

  /** The restriction to one more key gains exactly that key's entry. */
  lemma RestrictSnoc(entries: map<string, SlangTerm>, keys: seq<string>, k: string)
    requires k in entries
    ensures Restrict(entries, keys + [k]) == Restrict(entries, keys)[k := entries[k]]
  {
  }

  lemma TakeOneMore<T>(s: seq<T>, i: nat)
    requires i < |s|
    ensures s[..i + 1] == s[..i] + [s[i]]
  {
  }

  lemma DistinctNotInPrefix(keys: seq<string>, i: nat)
    requires Distinct(keys) && i < |keys|
    ensures keys[i] !in keys[..i]
  {
  }

  /** One step of the reload: the first i + 1 values rebuild the first i + 1 keys. */
  lemma ReloadPrefix(keys: seq<string>, entries: map<string, SlangTerm>, vs: seq<SlangTerm>, i: nat)
    requires Distinct(keys) && i < |keys| == |vs|
    requires keys[i] in entries && vs[i] == entries[keys[i]] && Lower(vs[i].term) == keys[i]
    requires PutAll(EMPTY, vs[..i]) == Table(keys[..i], Restrict(entries, keys[..i]))
    ensures PutAll(EMPTY, vs[..i + 1]) == Table(keys[..i + 1], Restrict(entries, keys[..i + 1]))
  {
    var k := keys[i];
    TakeOneMore(vs, i);
    PutAllSnoc(EMPTY, vs[..i], vs[i]);
    DistinctNotInPrefix(keys, i);
    TakeOneMore(keys, i);
    RestrictSnoc(entries, keys[..i], k);
  }

  /**
   * Saving and reloading restore the store: refilling an empty Map from its
   * own values gives back the same keys, in the same order, with the same
   * entries.
   */
  lemma ReloadValuesRestores(t: Table)
    requires WellKeyed(t)
    ensures PutAll(EMPTY, Values(t)) == t
  {
    var vs := Values(t);
    assert Restrict(t.entries, []) == map[];
    for i := 0 to |t.keys|
      invariant PutAll(EMPTY, vs[..i]) == Table(t.keys[..i], Restrict(t.entries, t.keys[..i]))
    {
      assert t.keys[i] in t.keys;
      ReloadPrefix(t.keys, t.entries, vs, i);
    }
    TakeAll(vs);
    TakeAll(t.keys);
    RestrictAll(t.entries, t.keys);
  }

  lemma TakeAll<T>(s: seq<T>)
    ensures s[..|s|] == s
  {
  }

  lemma RestrictAll(entries: map<string, SlangTerm>, keys: seq<string>)
    requires forall k :: k in entries <==> k in keys
    ensures Restrict(entries, keys) == entries
  {
  }

  // ---------------------------------------------------------------------
  // isKnownWord and detectSlang
  // ---------------------------------------------------------------------

  /** The words of the first known-word pattern, matched case-insensitively. */
  const PRONOUNS: seq<string> := ["ik", "jij", "hij", "zij", "wij", "het", "de", "aan", "bij", "van", "met", "voor", "na"]

  predicate IsLowerLetter(c: char) { 'a' <= c <= 'z' }

  /** `/[a-z]{3,}/.test(w)`: three lower-case ASCII letters in a row. */
  predicate HasLetterRun(w: string) {
    exists i :: 0 <= i && i + 3 <= |w| && IsLowerLetter(w[i]) && IsLowerLetter(w[i + 1]) && IsLowerLetter(w[i + 2])
  }

  /** `isKnownWord`: one of the patterns matches, and the word is longer than two characters. */
  function IsKnownWord(w: string): (r: bool)
    ensures r ==> |w| > 2
    ensures |w| > 2 && HasLetterRun(w) ==> r
  {
    (Lower(w) in PRONOUNS || HasLetterRun(w)) && |w| > 2
  }

  /** On a word without capitals the pronoun list adds nothing: a known word is one with a letter run. */
  lemma KnownWordIsLetterRun(w: string)
    requires forall i :: 0 <= i < |w| ==> !IsUpper(w[i])
    ensures IsKnownWord(w) <==> |w| > 2 && HasLetterRun(w)
  {
    if Lower(w) in PRONOUNS && |w| > 2 {
      assert Lower(w) == w;
      assert IsLowerLetter(w[0]) && IsLowerLetter(w[1]) && IsLowerLetter(w[2]);
    }
  }

  /** The result of `detectSlang`. */
  datatype Detection = Detection(isSlang: bool, confidence: real, term: Option<SlangTerm>)

  const UNKNOWN_CONFIDENCE: real := 0.3

  // ---------------------------------------------------------------------
  // The module-level Map and its operations
  // ---------------------------------------------------------------------

  class SlangStore {
    var keys: seq<string>
    var entries: map<string, SlangTerm>
    /** What local storage holds under 'rap_app_slang', already parsed; None when nothing usable is stored. */
    var saved: Option<seq<SlangTerm>>

    function Current(): Table
      reads this
    {
      Table(keys, entries)
    }

    ghost predicate Valid()
      reads this
    {
      WellKeyed(Current())
    }

    /** `new Map()`, with local storage holding `storage`. */
    constructor (storage: Option<seq<SlangTerm>>)
      ensures Valid() && Current() == EMPTY && saved == storage
    {
      keys := [];
      entries := map[];
      saved := storage;
    }

    /** One `slangDB.set(term.term.toLowerCase(), term)`. */
    method Set(term: SlangTerm)
      modifies this`keys, this`entries
      ensures Current() == Put(old(Current()), term)
    {
      var key := Lower(term.term);
      if key !in keys {
        keys := keys + [key];
      }
      entries := entries[key := term];
    }

    /** `detectSlang`: a stored term first, then the unknown-word heuristic. */
    function DetectSlang(word: string): (d: Detection)
      reads this
      ensures var w := Trim(Lower(word));
              && (d.term.Some? <==> w in entries)
              && (d.term.Some? ==> d.term.value == entries[w] && d.confidence == entries[w].confidence)
              && (d.isSlang <==> w in entries || !IsKnownWord(w))
              && (d.isSlang && d.term.None? ==> d.confidence == UNKNOWN_CONFIDENCE)
              && (!d.isSlang ==> d.confidence == 0.0)
    {
      var normalized := Trim(Lower(word));
      if normalized in entries then
        Detection(true, entries[normalized].confidence, Some(entries[normalized]))
      else if !IsKnownWord(normalized) then
        Detection(true, UNKNOWN_CONFIDENCE, None)
      else
        Detection(false, 0.0, None)
    }

    /** Short words, "de" among them, are reported as possible slang unless stored. */
    lemma ShortWordIsPossibleSlang(word: string)
      requires |Trim(Lower(word))| <= 2 && Trim(Lower(word)) !in entries
      ensures DetectSlang(word) == Detection(true, UNKNOWN_CONFIDENCE, None)
    {
    }

    /** "de" is a pronoun of the known-word list, yet too short to count as known. */
    lemma DeIsPossibleSlang()
      requires "de" !in entries
      ensures DetectSlang("de") == Detection(true, UNKNOWN_CONFIDENCE, None)
    {
      assert Lower("de") == "de";
      ShortWordIsPossibleSlang("de");
    }

    /** `getSlangTerm`: the word is lowercased but, unlike in `detectSlang`, not trimmed. */
    function GetSlangTerm(word: string): (r: Option<SlangTerm>)
      reads this
      ensures r.Some? <==> Lower(word) in entries
      ensures r.Some? ==> r.value == entries[Lower(word)]
      ensures Valid() && r.Some? ==> Lower(r.value.term) == Lower(word)
    {
      if Lower(word) in entries then Some(entries[Lower(word)]) else None
    }

    /** `getAllSlang`: one value per key, in insertion order, each found again by its own term. */
    function GetAllSlang(): (r: seq<SlangTerm>)
      reads this
      requires Valid()
      ensures |r| == |keys|
      ensures forall i :: 0 <= i < |r| ==> r[i] == entries[keys[i]]
      ensures forall i :: 0 <= i < |r| ==> GetSlangTerm(r[i].term) == Some(r[i])
    {
      Values(Current())
    }

    /** `saveToLocalStorage`: the values are written out. */
    method SaveToLocalStorage()
      requires Valid()
      modifies this`saved
      ensures saved == Some(GetAllSlang())
    {
      saved := Some(Values(Current()));
    }

    /** `addSlangTerm`: set under the lowercased term, then save. */
    method AddSlangTerm(term: SlangTerm)
      requires Valid()
      modifies this
      ensures Valid()
      ensures Current() == Put(old(Current()), term)
      ensures saved == Some(GetAllSlang())
    {
      Set(term);
      SaveToLocalStorage();
    }

    /** `removeSlangTerm`: delete the lowercased term, then save. */
    method RemoveSlangTerm(term: string)
      requires Valid()
      modifies this
      ensures Valid()
      ensures Current() == Delete(old(Current()), Lower(term))
      ensures saved == Some(GetAllSlang())
    {
      var key := Lower(term);
      keys := Without(keys, key);
      entries := entries - {key};
      SaveToLocalStorage();
    }

    /** The step of `loadFromLocalStorage` after parsing: clear, then set every term in order. */
    method Refill(terms: seq<SlangTerm>)
      modifies this`keys, this`entries
      ensures Valid()
      ensures Current() == PutAll(EMPTY, terms)
    {
      keys := [];
      entries := map[];
      SetAll(terms);
    }

    /** `terms.forEach(term => slangDB.set(term.term.toLowerCase(), term))`. */
    method SetAll(terms: seq<SlangTerm>)
      requires Valid()
      modifies this`keys, this`entries
      ensures Valid()
      ensures Current() == PutAll(old(Current()), terms)
    {
      ghost var start := Current();
      for i := 0 to |terms|
        invariant Valid()
        invariant Current() == PutAll(start, terms[..i])
      {
        assert terms[..i + 1][..i] == terms[..i];
        Set(terms[i]);
      }
      assert terms[..|terms|] == terms;
    }

    /** `loadFromLocalStorage`: a stored list replaces the whole Map; nothing stored leaves it alone. */
    method LoadFromLocalStorage()
      requires Valid() || saved.Some?
      modifies this`keys, this`entries
      ensures Valid()
      ensures saved.Some? ==> Current() == PutAll(EMPTY, saved.value)
      ensures saved.None? ==> Current() == old(Current())
    {
      if saved.Some? {
        Refill(saved.value);
      }
    }
  }

  /** Seeding a new Map with `defaults`, then loading whatever is stored. */
  method Initialize(defaults: seq<SlangTerm>, storage: Option<seq<SlangTerm>>) returns (db: SlangStore)
    ensures fresh(db) && db.Valid() && db.saved == storage
    ensures storage.None? ==> db.Current() == PutAll(EMPTY, defaults)
    ensures storage.Some? ==> db.Current() == PutAll(EMPTY, storage.value)
  {
    db := new SlangStore(storage);
    db.SetAll(defaults);
    db.LoadFromLocalStorage();
  }

  /** Module initialisation: `DEFAULT_SLANG.forEach(...)`, then `loadFromLocalStorage()`. */
  method InitializeModule(storage: Option<seq<SlangTerm>>) returns (db: SlangStore)
    ensures fresh(db) && db.Valid() && db.saved == storage
    ensures storage.None? ==> db.Current() == PutAll(EMPTY, DEFAULT_SLANG)
    ensures storage.Some? ==> db.Current() == PutAll(EMPTY, storage.value)
  {
    db := Initialize(DEFAULT_SLANG, storage);
  }
}
