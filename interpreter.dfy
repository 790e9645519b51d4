/** The result interpreter of `VoiceAnalysisService`: the private helpers that
    turn a completed transcript result into an `EmotionalAnalysis` and a list
    of `SpeakerMood`s. Scores are exact reals; the TypeScript service uses IEEE
    doubles. */
module ResultInterpreter {
  import opened Wrappers
  import opened VoiceTypes
  import opened SentimentTally

  const JOY_STEP: real := 0.2
  const SADNESS_STEP: real := 0.1
  const ANGER_STEP: real := 0.1
  const SURPRISE_STEP: real := 0.1
  const MAX_TOPICS: nat := 5
  /** The starting value of every tone field. */
  const TONE_DEFAULT: real := 0.5

  function Min(x: real, y: real): real {
    if x <= y then x else y
  }

  function Abs(x: real): real {
    if x < 0.0 then -x else x
  }

  /** The sentiment label of every result, in order. */
  function LabelsOf(rs: seq<SentimentResult>): (labels: seq<string>)
    ensures |labels| == |rs|
    ensures forall i :: 0 <= i < |rs| ==> labels[i] == rs[i].sentiment
  {
    if rs == [] then [] else [rs[0].sentiment] + LabelsOf(rs[1..])
  }

  // ---------------------------------------------------------------- emotions

  /** Extending a prefix by one label adds one to that label's count only. */
  lemma CountStep(labels: seq<string>, i: nat, x: string)
    requires i < |labels|
    ensures Count(labels[..i + 1], x) == Count(labels[..i], x) + (if labels[i] == x then 1 else 0)
  {
    assert labels[..i + 1][..i] == labels[..i];
  }

  /** The first pass of `processEmotions` (the `forEach` with its `switch`):
      0.2 to joy per POSITIVE result, 0.1 to sadness and to anger per NEGATIVE
      one, 0.1 to surprise per NEUTRAL one; any other label adds nothing. */
  method AccumulateEmotions(results: seq<SentimentResult>) returns (raw: Emotions)
    ensures raw.joy == JOY_STEP * Count(LabelsOf(results), "POSITIVE") as real
    ensures raw.sadness == SADNESS_STEP * Count(LabelsOf(results), "NEGATIVE") as real
    ensures raw.anger == ANGER_STEP * Count(LabelsOf(results), "NEGATIVE") as real
    ensures raw.fear == 0.0
    ensures raw.surprise == SURPRISE_STEP * Count(LabelsOf(results), "NEUTRAL") as real
  {
    raw := Emotions(0.0, 0.0, 0.0, 0.0, 0.0);
    ghost var labels := LabelsOf(results);
    var i := 0;
    while i < |results|
      invariant 0 <= i <= |results|
      invariant raw.joy == JOY_STEP * Count(labels[..i], "POSITIVE") as real
      invariant raw.sadness == SADNESS_STEP * Count(labels[..i], "NEGATIVE") as real
      invariant raw.anger == ANGER_STEP * Count(labels[..i], "NEGATIVE") as real
      invariant raw.fear == 0.0
      invariant raw.surprise == SURPRISE_STEP * Count(labels[..i], "NEUTRAL") as real
    {
      CountStep(labels, i, "POSITIVE");
      CountStep(labels, i, "NEGATIVE");
      CountStep(labels, i, "NEUTRAL");
      var sentiment := results[i].sentiment;
      if sentiment == "POSITIVE" {
        raw := raw.(joy := raw.joy + JOY_STEP);
      } else if sentiment == "NEGATIVE" {
        raw := raw.(sadness := raw.sadness + SADNESS_STEP, anger := raw.anger + ANGER_STEP);
      } else if sentiment == "NEUTRAL" {
        raw := raw.(surprise := raw.surprise + SURPRISE_STEP);
      }
      i := i + 1;
    }
    assert labels[..i] == labels;
  }

  /** `processEmotions`: every score is its accumulated value capped at 1, so
      all lie in [0, 1] and fear is always 0; an absent or empty list leaves
      every score at 0. */
  method ProcessEmotions(sentimentResults: Option<seq<SentimentResult>>) returns (emotions: Emotions)
    ensures EmotionsInRange(emotions)
    ensures emotions.fear == 0.0
    ensures emotions.joy == Min(JOY_STEP * Count(LabelsOf(Items(sentimentResults)), "POSITIVE") as real, 1.0)
    ensures emotions.sadness == Min(SADNESS_STEP * Count(LabelsOf(Items(sentimentResults)), "NEGATIVE") as real, 1.0)
    ensures emotions.anger == emotions.sadness
    ensures emotions.surprise == Min(SURPRISE_STEP * Count(LabelsOf(Items(sentimentResults)), "NEUTRAL") as real, 1.0)
    ensures Items(sentimentResults) == [] ==> emotions == Emotions(0.0, 0.0, 0.0, 0.0, 0.0)
  {
    emotions := Emotions(0.0, 0.0, 0.0, 0.0, 0.0);
    var results := Items(sentimentResults);
    if |results| == 0 {
      assert LabelsOf(results) == [];
      return;
    }
    emotions := AccumulateEmotions(results);
    emotions := Emotions(
      Min(emotions.joy, 1.0), Min(emotions.sadness, 1.0), Min(emotions.anger, 1.0),
      Min(emotions.fear, 1.0), Min(emotions.surprise, 1.0));
  }

  // ------------------------------------------------------------------ topics

  /** `.map((category) => category.label)`. */
  function CategoryLabels(categories: seq<Category>): (labels: seq<string>)
    ensures |labels| == |categories|
    ensures forall i :: 0 <= i < |categories| ==> labels[i] == categories[i].name
  {
    if categories == [] then [] else [categories[0].name] + CategoryLabels(categories[1..])
  }

  /** `processTopics`: the labels of the first five categories, in order; none
      when the category result or its `results` list is absent. */
  function ProcessTopics(iabCategories: Option<CategoriesResult>): (topics: seq<string>)
    ensures |topics| <= MAX_TOPICS
    ensures iabCategories.None? || iabCategories.value.results.None? ==> topics == []
    ensures iabCategories.Some? && iabCategories.value.results.Some? ==>
              var categories := iabCategories.value.results.value;
              && |topics| == (if |categories| < MAX_TOPICS then |categories| else MAX_TOPICS)
              && forall i :: 0 <= i < |topics| ==> topics[i] == categories[i].name
  {
    match iabCategories
    case None => []
    case Some(c) =>
      match c.results
      case None => []
      case Some(categories) =>
        CategoryLabels(categories[..if |categories| < MAX_TOPICS then |categories| else MAX_TOPICS])
  }

  // -------------------------------------------------------------------- tone

  /** The running total of `Math.abs(result.confidence)` over `rs`. */
  function SumAbsConfidence(rs: seq<SentimentResult>): (total: real)
    ensures total >= 0.0
  {
    if rs == [] then 0.0 else SumAbsConfidence(rs[..|rs| - 1]) + Abs(rs[|rs| - 1].confidence)
  }

  /** The mean absolute confidence of a non-empty list of results. */
  function MeanAbsConfidence(rs: seq<SentimentResult>): real
    requires rs != []
  {
    SumAbsConfidence(rs) / |rs| as real
  }

  /** Confidences within [-1, 1] keep the total within the number of results. */
  lemma {:induction false} SumAbsConfidenceBounded(rs: seq<SentimentResult>)
    requires forall i :: 0 <= i < |rs| ==> -1.0 <= rs[i].confidence <= 1.0
    ensures SumAbsConfidence(rs) <= |rs| as real
  {
    if rs != [] {
      SumAbsConfidenceBounded(rs[..|rs| - 1]);
    }
  }

  lemma DivideAtMost(x: real, n: real)
    requires 0.0 <= x <= n && n > 0.0
    ensures 0.0 <= x / n <= 1.0
  {
  }

  /** Confidences within [-1, 1] keep their mean absolute value within [0, 1]. */
  lemma MeanAbsConfidenceInRange(rs: seq<SentimentResult>)
    requires rs != []
    requires forall i :: 0 <= i < |rs| ==> -1.0 <= rs[i].confidence <= 1.0
    ensures InUnitRange(MeanAbsConfidence(rs))
  {
    SumAbsConfidenceBounded(rs);
    DivideAtMost(SumAbsConfidence(rs), |rs| as real);
  }

  /** The `reduce` of `processTone`: the total of `Math.abs(result.confidence)`. */
  method TotalAbsConfidence(results: seq<SentimentResult>) returns (total: real)
    ensures total == SumAbsConfidence(results)
    ensures total >= 0.0
  {
    total := 0.0;
    var i := 0;
    while i < |results|
      invariant 0 <= i <= |results|
      invariant total == SumAbsConfidence(results[..i])
    {
      assert results[..i + 1][..i] == results[..i];
      total := total + Abs(results[i].confidence);
      i := i + 1;
    }
    assert results[..i] == results;
  }

  /** `processTone`: formal and informal stay at 0.5; with at least one result
      `confident` becomes the mean absolute confidence and `tentative` its
      complement to 1, otherwise both stay at 0.5. */
  method ProcessTone(sentimentResults: Option<seq<SentimentResult>>) returns (tone: Tone)
    ensures tone.formal == TONE_DEFAULT && tone.informal == TONE_DEFAULT
    ensures Items(sentimentResults) == [] ==> tone.confident == TONE_DEFAULT && tone.tentative == TONE_DEFAULT
    ensures Items(sentimentResults) != [] ==>
              tone.confident == MeanAbsConfidence(Items(sentimentResults)) && tone.confident + tone.tentative == 1.0
    ensures tone.confident >= 0.0
    ensures (forall i :: 0 <= i < |Items(sentimentResults)| ==> -1.0 <= Items(sentimentResults)[i].confidence <= 1.0)
              ==> ToneInRange(tone)
  {
    tone := Tone(TONE_DEFAULT, TONE_DEFAULT, TONE_DEFAULT, TONE_DEFAULT);
    var results := Items(sentimentResults);
    if |results| == 0 {
      return;
    }
    var total := TotalAbsConfidence(results);
    var sentimentStrength := total / |results| as real;
    assert sentimentStrength == MeanAbsConfidence(results);
    tone := tone.(confident := sentimentStrength, tentative := 1.0 - sentimentStrength);
    if forall k :: 0 <= k < |results| ==> -1.0 <= results[k].confidence <= 1.0 {
      MeanAbsConfidenceInRange(results);
    }
  }

  // --------------------------------------------------------------- sentiment

  /** The `switch` that ends `getOverallSentiment`. */
  function SentimentOfLabel(name: string): Sentiment {
    if name == "POSITIVE" then Positive
    else if name == "NEGATIVE" then Negative
    else Neutral
  }

  /** `getOverallSentiment`: neutral for an absent or empty list, otherwise the
      mapped label elected by the two reductions. */
  function OverallSentiment(sentimentResults: Option<seq<SentimentResult>>): Sentiment {
    var labels := LabelsOf(Items(sentimentResults));
    if labels == [] then Neutral else SentimentOfLabel(PluralityLabel(labels))
  }

  /** The overall sentiment is that of the most frequent label, ties going to
      the label seen first, and neutral when there is no result. */
  lemma OverallSentimentIsPlurality(sentimentResults: Option<seq<SentimentResult>>)
    ensures Items(sentimentResults) == [] ==> OverallSentiment(sentimentResults) == Neutral
    ensures Items(sentimentResults) != [] ==>
              exists w :: IsPlurality(LabelsOf(Items(sentimentResults)), w)
    ensures forall w :: IsPlurality(LabelsOf(Items(sentimentResults)), w) ==>
              OverallSentiment(sentimentResults) == SentimentOfLabel(w)
  {
    var labels := LabelsOf(Items(sentimentResults));
    if labels != [] {
      PluralityLabelIsPlurality(labels);
      forall w | IsPlurality(labels, w)
        ensures OverallSentiment(sentimentResults) == SentimentOfLabel(w)
      {
        PluralityUnique(labels, w, PluralityLabel(labels));
      }
    }
  }

  // ------------------------------------------------------------ speaker moods

  /** `getMoodFromSentiment`; a missing label falls to the default case. */
  function MoodFromSentiment(sentiment: Option<string>): (mood: Mood)
    ensures mood == Enthusiastic <==> sentiment == Some("POSITIVE")
    ensures mood == Concerned <==> sentiment == Some("NEGATIVE")
  {
    match sentiment
    case Some(name) =>
      if name == "POSITIVE" then Enthusiastic
      else if name == "NEGATIVE" then Concerned
      else NeutralMood
    case None => NeutralMood
  }

  /** `.map(utterance => ({ speakerId, mood, confidence, timestamp }))`. */
  function MoodsOf(utterances: seq<Utterance>): (moods: seq<SpeakerMood>)
    ensures |moods| == |utterances|
    ensures forall i :: 0 <= i < |utterances| ==>
              && moods[i].speakerId == utterances[i].speaker
              && moods[i].mood == MoodFromSentiment(utterances[i].sentiment)
              && moods[i].confidence == utterances[i].confidence
              && moods[i].timestamp == utterances[i].start
  {
    if utterances == [] then []
    else
      var u := utterances[0];
      [SpeakerMood(u.speaker, MoodFromSentiment(u.sentiment), u.confidence, u.start)] + MoodsOf(utterances[1..])
  }

  /** `processSpeakerMoods`: one mood per utterance, in order; none when the
      result has no `utterances`. */
  function ProcessSpeakerMoods(result: TranscriptResult): (moods: seq<SpeakerMood>)
    ensures result.utterances.None? ==> moods == []
    ensures |moods| == |Items(result.utterances)|
    ensures forall i :: 0 <= i < |moods| ==>
              && moods[i].speakerId == Items(result.utterances)[i].speaker
              && moods[i].mood == MoodFromSentiment(Items(result.utterances)[i].sentiment)
              && moods[i].confidence == Items(result.utterances)[i].confidence
              && moods[i].timestamp == Items(result.utterances)[i].start
  {
    match result.utterances
    case None => []
    case Some(utterances) => MoodsOf(utterances)
  }

  // ---------------------------------------------------------------- analysis

  /** The shaping step of `analyzeEmotion` once the transcript has completed:
      the four helpers applied to the result's fields. */
  method AnalyzeResult(result: TranscriptResult) returns (analysis: EmotionalAnalysis)
    ensures analysis.sentiment == OverallSentiment(result.sentimentResults)
    ensures analysis.topics == ProcessTopics(result.categories)
    ensures EmotionsInRange(analysis.emotions) && analysis.emotions.fear == 0.0
    ensures var labels := LabelsOf(Items(result.sentimentResults));
            && analysis.emotions.joy == Min(JOY_STEP * Count(labels, "POSITIVE") as real, 1.0)
            && analysis.emotions.sadness == Min(SADNESS_STEP * Count(labels, "NEGATIVE") as real, 1.0)
            && analysis.emotions.anger == analysis.emotions.sadness
            && analysis.emotions.surprise == Min(SURPRISE_STEP * Count(labels, "NEUTRAL") as real, 1.0)
    ensures analysis.tone.formal == TONE_DEFAULT && analysis.tone.informal == TONE_DEFAULT
    ensures Items(result.sentimentResults) != [] ==>
              && analysis.tone.confident == MeanAbsConfidence(Items(result.sentimentResults))
              && analysis.tone.confident + analysis.tone.tentative == 1.0
    ensures Items(result.sentimentResults) == [] ==>
              && analysis.sentiment == Neutral
              && analysis.emotions == Emotions(0.0, 0.0, 0.0, 0.0, 0.0)
              && analysis.tone == Tone(TONE_DEFAULT, TONE_DEFAULT, TONE_DEFAULT, TONE_DEFAULT)
  {
    var emotions := ProcessEmotions(result.sentimentResults);
    var topics := ProcessTopics(result.categories);
    var tone := ProcessTone(result.sentimentResults);
    analysis := EmotionalAnalysis(OverallSentiment(result.sentimentResults), emotions, topics, tone);
  }
}
