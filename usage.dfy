/** The process-wide token counters each adapter keeps (`PROMPT_TOKENS` and
    `RESPONSE_TOKENS` of `_aws.py`, `_anthropic.py` and `_openai.py`), and the
    character-based token estimate the Anthropic-family adapters and the batch scripts use. */
module Usage {

  /** One adapter's pair of module-level counters. */
  class Counters {
    var promptTokens: int
    var responseTokens: int

    /** Both counters start at 0 when the module is imported. */
    constructor ()
      ensures promptTokens == 0 && responseTokens == 0
    {
      promptTokens := 0;
      responseTokens := 0;
    }

    method AddPrompt(n: int)
      modifies this
      ensures promptTokens == old(promptTokens) + n && responseTokens == old(responseTokens)
    {
      promptTokens := promptTokens + n;
    }

    method AddResponse(n: int)
      modifies this
      ensures responseTokens == old(responseTokens) + n && promptTokens == old(promptTokens)
    {
      responseTokens := responseTokens + n;
    }
  }

  /** `(chars + 4) // 5`: about one token per five characters, rounded up. The result is
      the least `t` with `5 * t >= chars`. */
  function EstimateTokens(chars: nat): (t: nat)
    ensures 5 * t >= chars
    ensures t == 0 || 5 * (t - 1) < chars
  {
    (chars + 4) / 5
  }
}
