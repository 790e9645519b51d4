# Voice journal analysis service — a Dafny model

This project models the logic of the voice journal's `VoiceAnalysisService`
(`src/services/voiceAnalysis.ts`). That logic has four parts:

- **Result interpreter.** It turns a completed AssemblyAI transcript result into
  the app's `EmotionalAnalysis`: emotion scores, topics, tone and overall
  sentiment. It also builds one `SpeakerMood` per utterance.
- **Reflection prompts.** Three threshold rules produce the journaling questions.
- **Polling loop.** It waits for a transcription job to finish.
- **Recording buffer.** The recorder fields collect audio chunks and join them
  into one blob on stop.

It also models the elapsed-time display of the `VoiceRecorder` component
(`formatTime` and the progress-bar value).

Modules, one per part:

- `Wrappers` (`wrappers.dfy`): `Option`.
- `VoiceTypes` (`types.dfy`): the transcript payload as datatypes, and the
  app's `EmotionalAnalysis` and `SpeakerMood`. The TypeScript service reads the
  payload as untyped JSON. Here every field the code guards with `?.` or `!x` is an
  `Option`.
- `SentimentTally` (`tally.dfy`): the two reductions of `getOverallSentiment`.
  It proves that they elect the most frequent label, with ties going to the
  label seen first (`IsPlurality`), and that this label is unique.
- `ResultInterpreter` (`interpreter.dfy`): `processEmotions`, `processTopics`,
  `processTone`, `getOverallSentiment`, `processSpeakerMoods`,
  `getMoodFromSentiment`, and the step of `analyzeEmotion` that combines them.
  Scores are exact `real`s. The loops of the TypeScript service stay loops; the
  `slice`/`map`/`switch` code stays functions.
- `ReflectionPrompts` (`prompts.dfy`): `generateReflectionPrompts`.
- `TranscriptPolling` (`polling.dfy`): `pollForCompletion`. The status request
  becomes `server(i)`, the reply to the i-th query.
- `Recording` (`recording.dfy`): class `VoiceAnalysisService` with the fields
  `mediaRecorder` (as `hasMediaRecorder`), `recordedChunks` and `isRecording`.
  A ghost field `delivered` records every chunk the handler received since the
  buffer was last emptied. The invariant `Valid()` says the buffer is exactly
  the non-empty delivered chunks, in order.
- `TimeFormat` (`time_format.dfy`): `formatTime`, with a parser for its output
  and the round trip.

Three behaviours of the code are easy to misread; the model follows the code:

- `confident` is not clamped to [0, 1]. It is sure to stay in range when every
  confidence lies in [-1, 1], and `ProcessTone` states it that way.
- The vote counts every label, not just the three known ones. A winning label
  that is not POSITIVE or NEGATIVE gives `neutral`.
- `stopRecording` rejects only when no recorder was ever created. It does not
  reject when the recorder is idle, and `mediaRecorder` is never reset.

## Model

| member | source | states |
|---|---|---|
| `SentimentTally.BumpExisting` | src/services/voiceAnalysis.ts:254 | counting a label that is already a key adds one to that key's count and keeps its place |
| `SentimentTally.BumpNew` | src/services/voiceAnalysis.ts:254 | counting a label that is not yet a key appends it last with count 1 |
| `SentimentTally.TallyCounts` | src/services/voiceAnalysis.ts:253-256 | the counting object lists each distinct label once, in order of first occurrence, with its exact number of occurrences |
| `SentimentTally.FirstSeenOrder` | src/services/voiceAnalysis.ts:253-256 | keys that come earlier in the counting object first occur earlier in the results |
| `SentimentTally.Winner` | src/services/voiceAnalysis.ts:258-260 | the entries reduction ends on an entry whose count no entry exceeds, and every earlier entry has a strictly smaller count |
| `SentimentTally.PluralityLabelIsPlurality` | src/services/voiceAnalysis.ts:253-260 | the elected label occurs in the list, no label occurs more often, and every label seen before it occurs strictly less often |
| `SentimentTally.PluralityUnique` | src/services/voiceAnalysis.ts:258-260 | at most one label meets that election rule, so the tie-break decides the winner |
| `ResultInterpreter.AccumulateEmotions` | src/services/voiceAnalysis.ts:196-209 | joy is 0.2 per POSITIVE, sadness and anger 0.1 per NEGATIVE, surprise 0.1 per NEUTRAL, fear 0; other labels add nothing |
| `ResultInterpreter.ProcessEmotions` | src/services/voiceAnalysis.ts:184-219 | each score is its accumulated value capped at 1 and lies in [0, 1]; fear is 0; an absent or empty list gives all zeros |
| `ResultInterpreter.CategoryLabels` | src/services/voiceAnalysis.ts:226 | the labels of the categories, same length, same order |
| `ResultInterpreter.ProcessTopics` | src/services/voiceAnalysis.ts:222-227 | no topics when the category result or its list is absent; otherwise exactly the labels of the first min(5, n) categories in order, so at most 5 |
| `ResultInterpreter.TotalAbsConfidence` | src/services/voiceAnalysis.ts:240-242 | the reduce yields the total of the absolute confidences, which is at least 0 |
| `ResultInterpreter.SumAbsConfidenceBounded` | src/services/voiceAnalysis.ts:240-242 | with confidences in [-1, 1] the total of absolute confidences is at most the number of results |
| `ResultInterpreter.MeanAbsConfidenceInRange` | src/services/voiceAnalysis.ts:240-242 | with confidences in [-1, 1] the mean absolute confidence lies in [0, 1] |
| `ResultInterpreter.ProcessTone` | src/services/voiceAnalysis.ts:229-247 | formal and informal are 0.5; no results gives 0.5 throughout; otherwise confident is the mean absolute confidence (at least 0) and confident + tentative = 1; all four lie in [0, 1] when confidences lie in [-1, 1] |
| `ResultInterpreter.OverallSentimentIsPlurality` | src/services/voiceAnalysis.ts:250-269 | neutral for an absent or empty list; otherwise a most frequent label exists and the result is its mapping (POSITIVE to positive, NEGATIVE to negative, anything else to neutral), ties going to the label seen first |
| `ResultInterpreter.MoodFromSentiment` | src/services/voiceAnalysis.ts:307-316 | enthusiastic exactly for POSITIVE, concerned exactly for NEGATIVE, neutral otherwise, including a missing label |
| `ResultInterpreter.MoodsOf` | src/services/voiceAnalysis.ts:299-304 | one mood per utterance, in order, carrying its speaker, mapped sentiment, confidence and start |
| `ResultInterpreter.ProcessSpeakerMoods` | src/services/voiceAnalysis.ts:296-305 | no moods without `utterances`; otherwise one per utterance, at the same position, with its speaker, mapped sentiment, confidence and start time |
| `ResultInterpreter.AnalyzeResult` | src/services/voiceAnalysis.ts:143-153 | the sentiment is the plurality mapping and the topics the first five labels; each emotion is 0.2 per POSITIVE (joy), 0.1 per NEGATIVE (sadness, anger) or 0.1 per NEUTRAL (surprise) capped at 1, fear 0, all in [0, 1]; formal and informal are 0.5, and with results confident is the mean absolute confidence and tentative its complement to 1; with no sentiment results it is neutral, all zeros and tone 0.5 throughout |
| `ReflectionPrompts.GenerateReflectionPrompts` | src/services/voiceAnalysis.ts:318-334 | at most 3 prompts; the joy prompt appears exactly when joy > 0.7, the challenge prompt exactly when sadness > 0.3, the confidence prompt exactly when confident > 0.7; each appears once, in rule order |
| `TranscriptPolling.PollForCompletion` | src/services/voiceAnalysis.ts:160-182 | between 1 and 60 status queries; every reply before the last is non-terminal; a final `completed` reply is returned; a final `error` reply fails with its error text; timeout happens exactly when none of the first 60 replies is terminal, and then the thrown message is "Transcription timed out"; only a completed call throws nothing |
| `Recording.VoiceAnalysisService.constructor` | src/services/voiceAnalysis.ts:30-32 | no recorder, an empty buffer, not recording |
| `Recording.VoiceAnalysisService.StartRecording` | src/services/voiceAnalysis.ts:52-69 | with microphone access, installs a recorder and sets recording without clearing the buffer; without access, fails and changes nothing |
| `Recording.VoiceAnalysisService.OnDataAvailable` | src/services/voiceAnalysis.ts:58-62 | a chunk with at least one byte is appended at the end; an empty chunk is dropped; the buffer stays the non-empty delivered chunks |
| `Recording.VoiceAnalysisService.StopRecording` | src/services/voiceAnalysis.ts:71-87 | with no recorder, fails with "No recording in progress" and changes nothing; otherwise returns the buffered chunks joined as `audio/webm` (the same bytes as every delivered chunk joined, empty exactly when no chunk was kept), empties the buffer and clears recording |
| `Recording.ConcatSize` | src/services/voiceAnalysis.ts:79 | the blob's length is the sum of the chunk lengths |
| `Recording.NonEmptyConcat` | src/services/voiceAnalysis.ts:58-62 | dropping the empty chunks does not change the joined audio |
| `Recording.KeptAudioEmpty` | src/services/voiceAnalysis.ts:79 | a buffer of kept chunks joins to empty audio exactly when it holds no chunk |
| `Recording.RecordSession` | src/services/voiceAnalysis.ts:52-87 | start, then any chunks, then stop yields exactly those chunks joined in arrival order |
| `Recording.StopBeforeStart` | src/services/voiceAnalysis.ts:73-76 | stopping before any start is rejected |
| `TimeFormat.NatToString` | src/components/VoiceJournal/VoiceRecorder.tsx:60 | decimal digits only, at least one, no leading zero, a single digit exactly below 10 |
| `TimeFormat.ParseNatToString` | src/components/VoiceJournal/VoiceRecorder.tsx:60 | reading the decimal text of n back gives n |
| `TimeFormat.FormatTime` | src/components/VoiceJournal/VoiceRecorder.tsx:57-61 | the decimal text of seconds div 60, then ':', then exactly two digits denoting seconds mod 60 (so below 60); the first of these is '0' exactly when the seconds of the minute are below 10 |
| `TimeFormat.FormatTimeRoundTrip` | src/components/VoiceJournal/VoiceRecorder.tsx:57-61 | reading the displayed `M:SS` back as M·60 + SS gives the seconds |
| `TimeFormat.FormatTimeInjective` | src/components/VoiceJournal/VoiceRecorder.tsx:57-61 | different second counts never display alike |
| `TimeFormat.FormatTimeZero` | src/components/VoiceJournal/VoiceRecorder.tsx:57-61 | zero seconds display as `0:00` |
| `TimeFormat.ProgressValue` | src/components/VoiceJournal/VoiceRecorder.tsx:84 | over the reals the progress value lies in [0, 100) |
| `TimeFormat.ProgressPeriodic` | src/components/VoiceJournal/VoiceRecorder.tsx:84 | the progress value repeats every 60 seconds |

## Left out

- Network traffic is not modelled. This covers `uploadToAssemblyAI`, the job
  submission POSTs in `analyzeEmotion` and `detectSpeakerMood`, `uploadToStorage`,
  `saveToJournal` and its `auth.getUser` call. The status GET of
  `pollForCompletion` is replaced by the `server` parameter, so the transcript
  id is not modelled.
- The five-second wait between polls is not modelled, nor are the `Date.now()`
  storage key and the ISO timestamp. These are clock effects.
- Browser media APIs are abstracted. `getUserMedia` becomes the
  `microphoneGranted` parameter. `AudioContext`, `MediaRecorder.start`/`stop`
  and `Blob` construction are not modelled; a blob is its bytes and MIME type.
  The asynchronous callbacks become ordinary calls made one after another.
- `Recording.VoiceAnalysisService.StopRecording`: assumes the recorder always
  fires `onstop`. In a browser, stopping a recorder that is already inactive
  (a second stop) fires no `onstop`, so that promise never settles. The model
  returns the (empty) buffer instead.
- The credential reads from `process.env` in the constructor are not modelled.
- Scores use exact reals, not IEEE doubles. Results at the thresholds can differ.
  In JavaScript three NEGATIVE results give a sadness of 0.30000000000000004,
  which triggers the challenge prompt; in the model it is exactly 0.3, which
  does not.
- `SentimentTally.Bump`: JavaScript objects list integer-like keys first, in
  ascending order, and a label that names an `Object.prototype` member
  (`__proto__`, `constructor`, `toString`, `valueOf`, `hasOwnProperty`, ...)
  reads an inherited value at `acc[x] || 0`: its count becomes a string (or,
  for `__proto__`, is never stored). Comparing a number with such a string is
  false both ways, so once such a label is the running best only another such
  label (compared as text) can replace it; the vote goes to such a label, and
  the answer is `neutral`, exactly when the first key is one. A list of only
  `__proto__` labels makes the second reduce throw. For ["POSITIVE",
  "constructor", "constructor"] the code answers positive and the model
  neutral. The model keeps plain insertion order and numeric counts for every
  label; the service only sends POSITIVE, NEGATIVE and NEUTRAL.
- The `console.error` logging in `startRecording`, `analyzeEmotion` and
  `detectSpeakerMood` is not modelled; it has no effect on results.
- Payload fields that the code reads without a guard are assumed present. This
  covers a sentiment result's `sentiment` and `confidence`, a category's
  `label`, and an utterance's `speaker`, `confidence` and `start`. An absent
  value (`undefined`, giving `NaN` scores or an `"undefined"` key) is not
  modelled. An utterance's `sentiment` may be missing and falls to `neutral`.
- The second pass of `processEmotions` loops over the five keys. The model
  writes the five caps out in one assignment.
- The rest of the `VoiceRecorder` component is not modelled: its `useState`
  flags, the one-second `setInterval` counter and the JSX. Only the
  non-negativity of the counter is used, through the `nat` type. The other
  files (`App.tsx`, `VoiceTest.tsx`, `EmotionalTimeline.tsx`,
  `pages/VoiceJournal.tsx`) are routing, orchestration and presentation and
  are not modelled.
