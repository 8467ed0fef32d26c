/** The built-in lexicon of src/services/rhymeEngine.ts. */
module Lexicon {

  /** One lexicon entry. The frequency is carried but never read by the scoring. */
  datatype LexiconEntry = LexiconEntry(word: string, frequency: nat)

  predicate InLexicon(lexicon: seq<LexiconEntry>, word: string) {
    exists i :: 0 <= i < |lexicon| && lexicon[i].word == word
  }

  /**
   * DUTCH_WORDS, in source order. Duplicates are kept as they are: 'tijd',
   * 'strijd' and 'wijd' each occur twice, with different frequencies.
   */
  const DUTCH_WORDS: seq<LexiconEntry> := [
    LexiconEntry("me", 1000),
    LexiconEntry("we", 950),
    LexiconEntry("je", 900),
    LexiconEntry("ze", 850),
    LexiconEntry("de", 800),
    LexiconEntry("het", 750),
    LexiconEntry("lied", 700),
    LexiconEntry("tijd", 680),
    LexiconEntry("strijd", 650),
    LexiconEntry("wijd", 620),
    LexiconEntry("blij", 600),
    LexiconEntry("vrij", 580),
    LexiconEntry("zij", 560),
    LexiconEntry("deur", 550),
    LexiconEntry("keur", 540),
    LexiconEntry("zeur", 530),
    LexiconEntry("leuk", 520),
    LexiconEntry("straat", 500),
    LexiconEntry("graat", 480),
    LexiconEntry("laat", 450),
    LexiconEntry("zieke", 400),
    LexiconEntry("biekes", 380),
    LexiconEntry("sike", 360),
    LexiconEntry("bro", 350),
    LexiconEntry("famo", 340),
    LexiconEntry("main", 330),
    LexiconEntry("respect", 320),
    LexiconEntry("waardeloos", 300),
    LexiconEntry("perfect", 310),
    LexiconEntry("momentje", 290),
    LexiconEntry("resolutie", 280),
    LexiconEntry("executie", 270),
    LexiconEntry("mijn leven", 250),
    LexiconEntry("mijn droom", 240),
    LexiconEntry("mijn hart", 230),
    LexiconEntry("de nacht", 220),
    LexiconEntry("de wereld", 210),
    LexiconEntry("kijken", 900),
    LexiconEntry("lijken", 880),
    LexiconEntry("begrijpen", 860),
    LexiconEntry("krijgen", 840),
    LexiconEntry("blijven", 820),
    LexiconEntry("wijven", 800),
    LexiconEntry("rijden", 780),
    LexiconEntry("drive", 760),
    LexiconEntry("kiezen", 850),
    LexiconEntry("verliezen", 830),
    LexiconEntry("vriezen", 810),
    LexiconEntry("giezen", 790),
    LexiconEntry("hoek", 870),
    LexiconEntry("boek", 850),
    LexiconEntry("zoek", 830),
    LexiconEntry("beroep", 810),
    LexiconEntry("troep", 790),
    LexiconEntry("stoep", 770),
    LexiconEntry("groep", 750),
    LexiconEntry("boos", 840),
    LexiconEntry("doos", 820),
    LexiconEntry("roos", 800),
    LexiconEntry("groot", 780),
    LexiconEntry("boot", 760),
    LexiconEntry("noot", 740),
    LexiconEntry("ghost", 820),
    LexiconEntry("most", 800),
    LexiconEntry("post", 780),
    LexiconEntry("cost", 760),
    LexiconEntry("host", 740),
    LexiconEntry("hoopt", 810),
    LexiconEntry("loopt", 790),
    LexiconEntry("koop", 770),
    LexiconEntry("loop", 750),
    LexiconEntry("hoop", 730),
    LexiconEntry("bag", 900),
    LexiconEntry("back", 880),
    LexiconEntry("flag", 860),
    LexiconEntry("track", 840),
    LexiconEntry("pack", 820),
    LexiconEntry("stack", 800),
    LexiconEntry("attack", 780),
    LexiconEntry("weg", 880),
    LexiconEntry("peg", 860),
    LexiconEntry("leg", 840),
    LexiconEntry("zeg", 820),
    LexiconEntry("cash", 900),
    LexiconEntry("dash", 880),
    LexiconEntry("flash", 860),
    LexiconEntry("smash", 840),
    LexiconEntry("trash", 820),
    LexiconEntry("vertellen", 850),
    LexiconEntry("tellen", 830),
    LexiconEntry("ellen", 810),
    LexiconEntry("snellen", 790),
    LexiconEntry("stellen", 770),
    LexiconEntry("bellen", 750),
    LexiconEntry("vertrouwen", 840),
    LexiconEntry("bouwen", 820),
    LexiconEntry("verbouwen", 800),
    LexiconEntry("schouwen", 780),
    LexiconEntry("houwen", 760),
    LexiconEntry("alcantara", 790),
    LexiconEntry("panorama", 770),
    LexiconEntry("drama", 750),
    LexiconEntry("mama", 730),
    LexiconEntry("karma", 710),
    LexiconEntry("wedstrijd", 820),
    LexiconEntry("strijd", 800),
    LexiconEntry("tijd", 780),
    LexiconEntry("mijd", 760),
    LexiconEntry("snijd", 740),
    LexiconEntry("kwijt", 720),
    LexiconEntry("nepheid", 810),
    LexiconEntry("waarheid", 790),
    LexiconEntry("heid", 770),
    LexiconEntry("wijd", 750),
    LexiconEntry("zeiknat", 800),
    LexiconEntry("nat", 780),
    LexiconEntry("glad", 760),
    LexiconEntry("mad", 740),
    LexiconEntry("bad", 720),
    LexiconEntry("plat", 700),
    LexiconEntry("land", 820),
    LexiconEntry("zeikland", 800),
    LexiconEntry("hand", 780),
    LexiconEntry("brand", 760),
    LexiconEntry("stand", 740),
    LexiconEntry("kant", 720),
    LexiconEntry("zijkant", 700),
    LexiconEntry("bil", 790),
    LexiconEntry("stil", 770),
    LexiconEntry("mil", 750),
    LexiconEntry("will", 730),
    LexiconEntry("chill", 710),
    LexiconEntry("skill", 690),
    LexiconEntry("chase", 880),
    LexiconEntry("race", 860),
    LexiconEntry("base", 840),
    LexiconEntry("case", 820),
    LexiconEntry("face", 800),
    LexiconEntry("place", 780),
    LexiconEntry("space", 760),
    LexiconEntry("car", 870),
    LexiconEntry("bar", 850),
    LexiconEntry("star", 830),
    LexiconEntry("far", 810),
    LexiconEntry("scar", 790),
    LexiconEntry("hossel", 850),
    LexiconEntry("gesetteld", 830),
    LexiconEntry("prayen", 810),
    LexiconEntry("securen", 790),
    LexiconEntry("brieven", 770),
    LexiconEntry("honey pak", 750),
    LexiconEntry("ghost rider", 730),
    LexiconEntry("on the road", 710),
    LexiconEntry("winning streak", 690),
    LexiconEntry("capture the flag", 670),
    LexiconEntry("money", 880),
    LexiconEntry("cijfers", 860),
    LexiconEntry("figueres", 840),
    LexiconEntry("zorgen", 820),
    LexiconEntry("hoofd", 800),
    LexiconEntry("moeder", 780),
    LexiconEntry("dingen", 760),
    LexiconEntry("lessons", 740),
    LexiconEntry("pressure", 720),
    LexiconEntry("jongens", 700),
    LexiconEntry("vrouwen", 680),
    LexiconEntry("body", 660),
    LexiconEntry("regen", 640),
    LexiconEntry("schoenen", 620),
    LexiconEntry("spullen", 600),
    LexiconEntry("plannen", 580),
    LexiconEntry("dagen", 560),
    LexiconEntry("billen", 540),
    LexiconEntry("blaren", 520),
    LexiconEntry("getallen", 500)
  ]
}
