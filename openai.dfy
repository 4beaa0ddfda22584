/** `_openai.py`: chatting with GPT models through OpenAI's API. */
module OpenAiApi {

  import opened Wrappers
  import opened Limiters
  import opened Usage
  import opened Retry

  const MaxTokens: nat := 1000

  datatype Message = Message(role: string, content: string)

  /** The arguments of `chat.completions.create`. */
  datatype Request = Request(
    model: string,
    messages: seq<Message>,
    responseFormat: string,
    temperature: real,
    maxTokens: nat)

  /** The request: system text and prompt as two "system" messages, JSON output, at most
      1000 tokens, and no assistant prefix. */
  function BuildRequest(model: string, system: string, prompt: string, temperature: real): (q: Request)
    ensures q.model == model && q.temperature == temperature
    ensures q.messages == [Message("system", system), Message("system", prompt)]
    ensures forall k :: 0 <= k < |q.messages| ==> q.messages[k].role != "assistant"
    ensures q.responseFormat == "json_object" && q.maxTokens == MaxTokens
  {
    Request(model, [Message("system", system), Message("system", prompt)], "json_object", temperature, MaxTokens)
  }

  /** `response.usage`; a field that is not an `int` is `None`. */
  datatype CompletionUsage = CompletionUsage(promptTokens: Option<int>, completionTokens: Option<int>)

  datatype Choice = Choice(content: string)

  /** The completion; `usage` is `None` when the attribute is missing or `None`. */
  datatype Completion = Completion(usage: Option<CompletionUsage>, choices: seq<Choice>)

  /** `if response is not None: break`. */
  function NotNone(r: Option<Completion>): bool { r.Some? }

  /** The input estimate: the encoded lengths of system and prompt. `encodedLen` stands for
      `len(get_encoding(model).encode(.))`. */
  function InputTokens(encodedLen: string -> nat, system: string, prompt: string): nat {
    encodedLen(system) + encodedLen(prompt)
  }

  /** The effect of the usage block: how much each counter grows, and whether a
      `TypeError` escapes it. */
  datatype UsageStep = UsageStep(promptDelta: int, responseDelta: int, typeError: bool)

  /** The usage block as written: the `isinstance` fallback rebinds the locals only, and
      the counters add the raw fields, so a field that is not an `int` makes `+=` raise
      `TypeError` (not caught: only `AttributeError` is), after the prompt count has
      grown when only the completion field is bad. A missing usage changes nothing. */
  function UsageAsWritten(usage: Option<CompletionUsage>): (s: UsageStep)
    ensures usage.None? ==> s == UsageStep(0, 0, false)
    ensures s.typeError <==> usage.Some? && (usage.value.promptTokens.None? || usage.value.completionTokens.None?)
  {
    match usage
    case None => UsageStep(0, 0, false)
    case Some(u) =>
      if u.promptTokens.None? then UsageStep(0, 0, true)
      else if u.completionTokens.None? then UsageStep(u.promptTokens.value, 0, true)
      else UsageStep(u.promptTokens.value, u.completionTokens.value, false)
  }

  /** The usage block as its fallback intends: a field that is not an `int` counts as 0. */
  function UsageCorrected(usage: Option<CompletionUsage>): (s: UsageStep)
    ensures !s.typeError
    ensures usage.None? ==> s.promptDelta == 0 && s.responseDelta == 0
    ensures usage.Some? ==>
              s.promptDelta == usage.value.promptTokens.GetOr(0) && s.responseDelta == usage.value.completionTokens.GetOr(0)
  {
    match usage
    case None => UsageStep(0, 0, false)
    case Some(u) => UsageStep(u.promptTokens.GetOr(0), u.completionTokens.GetOr(0), false)
  }

  /** The two agree whenever both fields are integers. */
  lemma UsageVersionsAgree(usage: Option<CompletionUsage>)
    requires usage.Some? ==> usage.value.promptTokens.Some? && usage.value.completionTokens.Some?
    ensures UsageAsWritten(usage) == UsageCorrected(usage)
  {
  }

  /** A completion whose usage reports `completion_tokens` as `None` makes the as-written
      block raise after the prompt count has grown, where the fallback means to add 0. */
  lemma UsageCounterexample()
    ensures UsageAsWritten(Some(CompletionUsage(Some(12), None))) == UsageStep(12, 0, true)
    ensures UsageCorrected(Some(CompletionUsage(Some(12), None))) == UsageStep(12, 0, false)
  {
  }

  /** What `chat` returns or raises once the loop ended as `ending`: the content of the
      first choice, unchanged, or `IndexError` when there is no choice. */
  function ChatResult(model: string, ending: Ending<Option<Completion>>): (r: Result<string, ChatError>)
    requires ending.Done? ==> ending.response.Some?
    ensures r.Ok? <==> ending.Done? && ending.response.value.choices != []
    ensures r.Ok? ==> r.value == ending.response.value.choices[0].content
    ensures ending.Exhausted? ==> r == Err(RetriesExhausted(model, ending.retries))
    ensures ending.Wrapped? ==> r == Err(ConnectFailed(model))
  {
    match ending
    case Done(c) => if c.value.choices == [] then Err(IndexOutOfRange) else Ok(c.value.choices[0].content)
    case Exhausted(n) => Err(RetriesExhausted(model, n))
    case Wrapped => Err(ConnectFailed(model))
    case Stalled => Err(OutcomesExhausted)
  }

  /** `chat`, with the usage block as its fallback intends. Holding the concurrency
      semaphore is not modelled; `outcomes` are the results of the successive
      `chat.completions.create` calls. */
  method Chat(
    model: string, system: string, prompt: string, temperature: real, encodedLen: string -> nat,
    limiter: Limiter, counters: Counters, outcomes: seq<Attempt<Option<Completion>>>, w0: nat)
    returns (result: Result<string, ChatError>)
    modifies limiter, counters
    ensures var run := Loop(outcomes, NotNone, 0, w0);
      && (run.ending.Done? ==> run.ending.response.Some?)
      && limiter.acquired == old(limiter.acquired) + Copies(InputTokens(encodedLen, system, prompt), run.attempts)
      && result == ChatResult(model, run.ending)
      && (run.ending.Done? ==>
            var s := UsageCorrected(run.ending.response.value.usage);
            && counters.promptTokens == old(counters.promptTokens) + s.promptDelta
            && counters.responseTokens == old(counters.responseTokens) + s.responseDelta)
      && (!run.ending.Done? ==>
            counters.promptTokens == old(counters.promptTokens) && counters.responseTokens == old(counters.responseTokens))
  {
    var tokens := encodedLen(system) + encodedLen(prompt);
    var request := BuildRequest(model, system, prompt, temperature);
    var run := RetryLoop(outcomes, NotNone, limiter, tokens, w0);
    LoopEndings(outcomes, NotNone, 0, w0);
    if run.ending.Done? {
      var usage := run.ending.response.value.usage;
      if usage.Some? {
        counters.AddPrompt(usage.value.promptTokens.GetOr(0));
        counters.AddResponse(usage.value.completionTokens.GetOr(0));
      }
    }
    result := ChatResult(model, run.ending);
  }
}
