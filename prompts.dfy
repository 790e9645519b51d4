/** `generateReflectionPrompts`: three threshold rules, checked in a fixed
    order, each pushing its own question when its strict comparison holds. */
module ReflectionPrompts {
  import opened VoiceTypes

  const JOY_PROMPT := "What specific moments brought you the most joy during this conversation?"
  const CHALLENGE_PROMPT := "What aspects of the discussion felt challenging or difficult?"
  const CONFIDENCE_PROMPT := "What gave you confidence during this interaction?"

  const JOY_THRESHOLD: real := 0.7
  const SADNESS_THRESHOLD: real := 0.3
  const CONFIDENCE_THRESHOLD: real := 0.7

  /** Position of a prompt in rule-declaration order; 3 for any other string. */
  function PromptRank(prompt: string): nat {
    if prompt == JOY_PROMPT then 0
    else if prompt == CHALLENGE_PROMPT then 1
    else if prompt == CONFIDENCE_PROMPT then 2
    else 3
  }

  /** The result holds exactly the prompts whose rule fires, each once, in
      rule order; it may be empty and never has more than three entries. */
  method GenerateReflectionPrompts(analysis: EmotionalAnalysis) returns (prompts: seq<string>)
    ensures |prompts| <= 3
    ensures JOY_PROMPT in prompts <==> analysis.emotions.joy > JOY_THRESHOLD
    ensures CHALLENGE_PROMPT in prompts <==> analysis.emotions.sadness > SADNESS_THRESHOLD
    ensures CONFIDENCE_PROMPT in prompts <==> analysis.tone.confident > CONFIDENCE_THRESHOLD
    ensures forall p :: p in prompts ==> PromptRank(p) < 3
    ensures forall i, j :: 0 <= i < j < |prompts| ==> PromptRank(prompts[i]) < PromptRank(prompts[j])
  {
    assert |JOY_PROMPT| != |CHALLENGE_PROMPT| && |JOY_PROMPT| != |CONFIDENCE_PROMPT|;
    assert |CHALLENGE_PROMPT| != |CONFIDENCE_PROMPT|;
    prompts := [];
    if analysis.emotions.joy > JOY_THRESHOLD {
      prompts := prompts + [JOY_PROMPT];
    }
    if analysis.emotions.sadness > SADNESS_THRESHOLD {
      prompts := prompts + [CHALLENGE_PROMPT];
    }
    if analysis.tone.confident > CONFIDENCE_THRESHOLD {
      prompts := prompts + [CONFIDENCE_PROMPT];
    }
  }
}
