/** `_aws.py`: chatting with Claude through AWS Bedrock. The request body, the retry loop
    over a pooled client, the usage counters and the assembly of the reply text. */
module Aws {

  import opened Wrappers
  import opened Text
  import opened Limiters
  import opened Usage
  import opened Retry
  import opened ConnPool

  const MaxTokens: nat := 1000
  const AnthropicVersion: string := "bedrock-2023-05-31"

  /** `{"type": kind, "text": text}`. */
  datatype TextPart = TextPart(kind: string, text: string)

  datatype Message = Message(role: string, content: seq<TextPart>)

  /** The JSON body sent to `invoke_model`. */
  datatype Payload = Payload(
    anthropicVersion: string,
    maxTokens: nat,
    temperature: real,
    system: string,
    messages: seq<Message>)

  /** `format_payload`: the fixed fields, the user prompt, and the assistant prefix only
      when there is one. */
  function FormatPayload(system: string, prompt: string, temperature: real, jsonStart: string): (p: Payload)
    ensures p.anthropicVersion == AnthropicVersion && p.maxTokens == MaxTokens
    ensures p.temperature == temperature && p.system == system
    ensures 1 <= |p.messages| <= 2
    ensures p.messages[0] == Message("user", [TextPart("text", prompt)])
    ensures |p.messages| == 2 <==> jsonStart != []
    ensures |p.messages| == 2 ==> p.messages[1] == Message("assistant", [TextPart("text", jsonStart)])
  {
    var user := Message("user", [TextPart("text", prompt)]);
    var messages := if jsonStart != [] then [user, Message("assistant", [TextPart("text", jsonStart)])] else [user];
    Payload(AnthropicVersion, MaxTokens, temperature, system, messages)
  }

  /** One item of the reply's `content` list; a missing key is `None`. */
  datatype ContentItem = ContentItem(kind: Option<string>, text: Option<string>)

  /** The reply's `usage` object; a missing key is `None`. */
  datatype BodyUsage = BodyUsage(inputTokens: Option<int>, outputTokens: Option<int>)

  /** The decoded reply body (a JSON object); a missing key is `None`. */
  datatype Body = Body(usage: Option<BodyUsage>, content: Option<seq<ContentItem>>)

  /** The `text` of every item whose `type` is "text", in order (`""` for a missing text). */
  function TextsOf(items: seq<ContentItem>): (texts: seq<string>)
    ensures |texts| <= |items|
  {
    if items == [] then []
    else (if items[0].kind == Some("text") then [items[0].text.GetOr("")] else []) + TextsOf(items[1..])
  }

  lemma {:induction false} TextsOfConcat(a: seq<ContentItem>, b: seq<ContentItem>)
    ensures TextsOf(a + b) == TextsOf(a) + TextsOf(b)
    decreases |a|
  {
    if a == [] {
      assert a + b == b;
    } else {
      assert (a + b)[1..] == a[1..] + b;
      TextsOfConcat(a[1..], b);
    }
  }

  /** The returned string: the prefix, then the text items joined by spaces and stripped. */
  function ReplyText(jsonStart: string, content: Option<seq<ContentItem>>): (r: string)
    ensures |r| >= |jsonStart| && r[..|jsonStart|] == jsonStart
    ensures var rest := r[|jsonStart|..]; rest == [] || (!IsSpace(rest[0]) && !IsSpace(rest[|rest| - 1]))
    ensures content.None? ==> r == jsonStart
  {
    jsonStart + Strip(Join(" ", TextsOf(content.GetOr([]))))
  }

  /** Items that are not text do not change the reply, wherever they sit. */
  lemma OtherItemsIgnored(jsonStart: string, before: seq<ContentItem>, item: ContentItem, after: seq<ContentItem>)
    requires item.kind != Some("text")
    ensures ReplyText(jsonStart, Some(before + [item] + after)) == ReplyText(jsonStart, Some(before + after))
  {
    TextsOfConcat(before + [item], after);
    TextsOfConcat(before, [item]);
    TextsOfConcat(before, after);
    assert TextsOf([item]) == [];
    assert TextsOf(before) + [] == TextsOf(before);
  }

  /** A single text item comes back stripped behind the prefix. */
  lemma SingleTextItem(jsonStart: string, before: seq<ContentItem>, text: string, after: seq<ContentItem>)
    requires forall k :: 0 <= k < |before| ==> before[k].kind != Some("text")
    requires forall k :: 0 <= k < |after| ==> after[k].kind != Some("text")
    ensures ReplyText(jsonStart, Some(before + [ContentItem(Some("text"), Some(text))] + after))
         == jsonStart + Strip(text)
  {
    var item := ContentItem(Some("text"), Some(text));
    NoTexts(before);
    NoTexts(after);
    TextsOfConcat(before + [item], after);
    TextsOfConcat(before, [item]);
    assert TextsOf([item]) == [text];
    JoinSmall(" ", [text]);
  }

  lemma {:induction false} NoTexts(items: seq<ContentItem>)
    requires forall k :: 0 <= k < |items| ==> items[k].kind != Some("text")
    ensures TextsOf(items) == []
    decreases |items|
  {
    if items != [] {
      NoTexts(items[1..]);
    }
  }

  /** Every reply ends the retry loop: the body is read whatever it holds. */
  function AnyBody(b: Option<Body>): bool { true }

  /** The input estimate: the characters of system, prompt and prefix, by fives. */
  function InputTokens(system: string, prompt: string, jsonStart: string): nat {
    EstimateTokens(|system| + |prompt| + |jsonStart|)
  }

  /** What `chat` returns or raises after the loop ended as `run`. A body that is not
      JSON is `Returned(None)`. */
  function ChatResult(model: string, jsonStart: string, ending: Ending<Option<Body>>): Result<string, ChatError> {
    match ending
    case Done(None) => Err(IllFormatted)
    case Done(Some(b)) => Ok(ReplyText(jsonStart, b.content))
    case Exhausted(n) => Err(RetriesExhausted(model, n))
    case Wrapped => Err(ConnectFailed(model))
    case Stalled => Err(OutcomesExhausted)
  }

  /** How much the counters grow after the loop ended as `run`: nothing unless the body
      has `usage.input_tokens`; then the prompt count, and the response count when
      `output_tokens` is there too (the first `+=` has happened when the second key is
      found missing). */
  function UsageDelta(ending: Ending<Option<Body>>): (int, int) {
    if ending.Done? && ending.response.Some? && ending.response.value.usage.Some? then
      var u := ending.response.value.usage.value;
      if u.inputTokens.None? then (0, 0)
      else (u.inputTokens.value, u.outputTokens.GetOr(0))
    else (0, 0)
  }

  /** The `async with pool.client()` block: the retry loop on one client taken from the
      head of the queue and put back at its tail, however the loop ends. */
  method InvokeWithClient(pool: ClientPool, limiter: Limiter, tokens: nat, outcomes: seq<Attempt<Option<Body>>>, w0: nat)
    returns (run: Run<Option<Body>>)
    requires pool.Valid() && pool.queue != []
    modifies limiter, pool
    ensures pool.Valid() && pool.queue == old(pool.queue)[1..] + [old(pool.queue)[0]] && pool.out == old(pool.out)
    ensures run == Loop(outcomes, AnyBody, 0, w0)
    ensures limiter.acquired == old(limiter.acquired) + Copies(tokens, run.attempts)
  {
    var scope := pool.Scope();
    var client := scope.Enter();
    run := RetryLoop(outcomes, AnyBody, limiter, tokens, w0);
    scope.Exit(!run.ending.Done?);
  }

  /** The `PROMPT_TOKENS += ...; RESPONSE_TOKENS += ...` block and its `KeyError` handler. */
  method RecordUsage(counters: Counters, ending: Ending<Option<Body>>)
    modifies counters
    ensures counters.promptTokens == old(counters.promptTokens) + UsageDelta(ending).0
    ensures counters.responseTokens == old(counters.responseTokens) + UsageDelta(ending).1
  {
    if ending.Done? && ending.response.Some? {
      var usage := ending.response.value.usage;
      if usage.Some? && usage.value.inputTokens.Some? {
        counters.AddPrompt(usage.value.inputTokens.value);
        if usage.value.outputTokens.Some? {
          counters.AddResponse(usage.value.outputTokens.value);
        }
      }
    }
  }

  /** `chat`: one client from the pool for the whole loop, then the counters, then the
      reply. `outcomes` are the results of the successive `invoke_model` calls. */
  method Chat(
    model: string, system: string, prompt: string, temperature: real, jsonStart: string,
    limiter: Limiter, pool: ClientPool, counters: Counters,
    outcomes: seq<Attempt<Option<Body>>>, w0: nat)
    returns (result: Result<string, ChatError>)
    requires pool.Valid() && pool.queue != []
    modifies limiter, pool, counters
    ensures pool.Valid() && pool.queue == old(pool.queue)[1..] + [old(pool.queue)[0]] && pool.out == old(pool.out)
    ensures var run := Loop(outcomes, AnyBody, 0, w0);
      && limiter.acquired == old(limiter.acquired) + Copies(InputTokens(system, prompt, jsonStart), run.attempts)
      && result == ChatResult(model, jsonStart, run.ending)
      && counters.promptTokens == old(counters.promptTokens) + UsageDelta(run.ending).0
      && counters.responseTokens == old(counters.responseTokens) + UsageDelta(run.ending).1
  {
    var payload := FormatPayload(system, prompt, temperature, jsonStart);
    var tokens := EstimateTokens(|system| + |prompt| + |jsonStart|);
    var run := InvokeWithClient(pool, limiter, tokens, outcomes, w0);
    RecordUsage(counters, run.ending);
    result := ChatResult(model, jsonStart, run.ending);
  }

  /** With any outcomes, the AWS adapter calls `invoke_model` at most three times,
      acquiring the token estimate before each call. */
  lemma AtMostThreeCalls(outcomes: seq<Attempt<Option<Body>>>, w0: nat)
    ensures Loop(outcomes, AnyBody, 0, w0).attempts <= MaxRetries
  {
    LoopAttemptsBounded(outcomes, AnyBody, 0, w0);
  }
}
