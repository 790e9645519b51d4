/** The values exchanged by the voice-analysis service: the transcript job result
    returned by the remote transcription service (untyped JSON in the TypeScript service,
    given an explicit schema here, with every field the code guards with `?.`
    or `!x` as an Option), and the application's own analysis values. */
module VoiceTypes {
  import opened Wrappers

  /** The list behind an optional array field; an absent list reads as empty. */
  function Items<T>(o: Option<seq<T>>): seq<T> {
    match o
    case None => []
    case Some(xs) => xs
  }

  /** One entry of `sentiment_analysis_results`: a label such as "POSITIVE",
      "NEGATIVE" or "NEUTRAL" (any other string is possible) and a confidence. */
  datatype SentimentResult = SentimentResult(sentiment: string, confidence: real)

  /** One entry of `iab_categories_result.results`, read only for its label (`name` here). */
  datatype Category = Category(name: string)

  /** `iab_categories_result`, whose `results` list may be missing. */
  datatype CategoriesResult = CategoriesResult(results: Option<seq<Category>>)

  /** One entry of `utterances`; its sentiment label may be missing. */
  datatype Utterance = Utterance(speaker: string, sentiment: Option<string>, confidence: real, start: int)

  /** The body of a `GET /transcript/{id}` reply. */
  datatype TranscriptResult = TranscriptResult(
    status: string,
    error: Option<string>,
    sentimentResults: Option<seq<SentimentResult>>,
    categories: Option<CategoriesResult>,
    utterances: Option<seq<Utterance>>)

  /** `EmotionalAnalysis['sentiment']`. */
  datatype Sentiment = Positive | Negative | Neutral

  /** `EmotionalAnalysis['emotions']`. */
  datatype Emotions = Emotions(joy: real, sadness: real, anger: real, fear: real, surprise: real)

  /** `EmotionalAnalysis['tone']`. */
  datatype Tone = Tone(formal: real, informal: real, confident: real, tentative: real)

  datatype EmotionalAnalysis = EmotionalAnalysis(
    sentiment: Sentiment,
    emotions: Emotions,
    topics: seq<string>,
    tone: Tone)

  /** The mood labels produced for an utterance ('enthusiastic', 'concerned', 'neutral'). */
  datatype Mood = Enthusiastic | Concerned | NeutralMood

  /** `SpeakerMood`: speaker id, mood, confidence and start offset of one utterance. */
  datatype SpeakerMood = SpeakerMood(speakerId: string, mood: Mood, confidence: real, timestamp: int)

  predicate InUnitRange(x: real) {
    0.0 <= x <= 1.0
  }

  /** Every emotion intensity lies in [0, 1]. */
  predicate EmotionsInRange(e: Emotions) {
    InUnitRange(e.joy) && InUnitRange(e.sadness) && InUnitRange(e.anger)
    && InUnitRange(e.fear) && InUnitRange(e.surprise)
  }

  /** Every tone value lies in [0, 1]. */
  predicate ToneInRange(t: Tone) {
    InUnitRange(t.formal) && InUnitRange(t.informal) && InUnitRange(t.confident) && InUnitRange(t.tentative)
  }
}
