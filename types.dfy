/** The records of src/types.ts that the core produces and consumes. */
module Types {
  import opened Wrappers

  datatype RhymeType = Perfect | Assonance | Alliteration | Multisyllabic

  /**
   * A rhyme score in tenths: the engine only ever produces 1.0, 0.8, 0.6 and
   * 0.4, held here as 10, 8, 6 and 4.
   */
  type Tenths = int

  datatype MeterInfo = MeterInfo(syllables: int, stressPattern: Option<string>)

  datatype RhymeCandidate = RhymeCandidate(
    text: string,
    rhymeType: RhymeType,
    score: Tenths,
    meterInfo: MeterInfo)

  datatype SlangTerm = SlangTerm(
    term: string,
    meaning: string,
    region: Option<string>,
    examples: seq<string>,
    addedBy: Option<string>,
    confidence: real)

  datatype FeedbackLabel = Fire | Accurate | NotMyStyle | Wrong

  datatype Feedback = Feedback(suggestionId: string, feedbackLabel: FeedbackLabel, timestamp: int)

  datatype UserProject = UserProject(
    id: string,
    name: string,
    lines: seq<string>,
    createdAt: int,
    updatedAt: int)
}
