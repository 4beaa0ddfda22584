/** `_anthropic.py`: chatting with Claude through Anthropic's own API. */
module AnthropicApi {

  import opened Wrappers
  import opened Limiters
  import opened Usage
  import opened Retry

  const MaxTokens: nat := 1000

  datatype Message = Message(role: string, content: string)

  /** The message list: the user prompt, then the assistant prefix when there is one. */
  method BuildMessages(prompt: string, jsonStart: string) returns (messages: seq<Message>)
    ensures 1 <= |messages| <= 2 && messages[0] == Message("user", prompt)
    ensures |messages| == 2 <==> jsonStart != []
    ensures |messages| == 2 ==> messages[1] == Message("assistant", jsonStart)
  {
    messages := [Message("user", prompt)];
    if jsonStart != [] {
      messages := messages + [Message("assistant", jsonStart)];
    }
  }

  datatype ReplyUsage = ReplyUsage(inputTokens: int, outputTokens: int)

  /** A content block of the reply. */
  datatype Block = Block(text: string)

  /** The `Message` object `messages.create` returns. */
  datatype Reply = Reply(usage: ReplyUsage, content: seq<Block>)

  /** `if response: break`. A falsy response (`None`) is tried again without spending a retry. */
  function Truthy(r: Option<Reply>): bool { r.Some? }

  /** The input estimate counts system and prompt but not the prefix. */
  function InputTokens(system: string, prompt: string): nat {
    EstimateTokens(|system| + |prompt|)
  }

  /** What `chat` returns or raises once the loop ended as `ending`: the prefix followed by
      the text of the first content block, or `IndexError` when there is none. */
  function ChatResult(model: string, jsonStart: string, ending: Ending<Option<Reply>>): (r: Result<string, ChatError>)
    requires ending.Done? ==> ending.response.Some?
    ensures ending.Done? && ending.response.value.content != [] ==>
              r.Ok? && |r.value| >= |jsonStart| && r.value[..|jsonStart|] == jsonStart && r.value[|jsonStart|..] == ending.response.value.content[0].text
    ensures ending.Exhausted? ==> r == Err(RetriesExhausted(model, ending.retries))
    ensures ending.Wrapped? ==> r == Err(ConnectFailed(model))
    ensures r.Ok? <==> ending.Done? && ending.response.value.content != []
  {
    match ending
    case Done(reply) =>
      if reply.value.content == [] then Err(IndexOutOfRange) else Ok(jsonStart + reply.value.content[0].text)
    case Exhausted(n) => Err(RetriesExhausted(model, n))
    case Wrapped => Err(ConnectFailed(model))
    case Stalled => Err(OutcomesExhausted)
  }

  /** `chat`. Holding the concurrency semaphore (`async with pool`) is not modelled;
      `outcomes` are the results of the successive `messages.create` calls. The counters
      grow by the reply's usage on every reply, before the content is read. */
  method Chat(
    model: string, system: string, prompt: string, temperature: real, jsonStart: string,
    limiter: Limiter, counters: Counters, outcomes: seq<Attempt<Option<Reply>>>, w0: nat)
    returns (result: Result<string, ChatError>)
    modifies limiter, counters
    ensures var run := Loop(outcomes, Truthy, 0, w0);
      && (run.ending.Done? ==> run.ending.response.Some?)
      && limiter.acquired == old(limiter.acquired) + Copies(InputTokens(system, prompt), run.attempts)
      && result == ChatResult(model, jsonStart, run.ending)
      && (run.ending.Done? ==>
            && counters.promptTokens == old(counters.promptTokens) + run.ending.response.value.usage.inputTokens
            && counters.responseTokens == old(counters.responseTokens) + run.ending.response.value.usage.outputTokens)
      && (!run.ending.Done? ==>
            counters.promptTokens == old(counters.promptTokens) && counters.responseTokens == old(counters.responseTokens))
  {
    var tokens := EstimateTokens(|system| + |prompt|);
    var messages := BuildMessages(prompt, jsonStart);
    var run := RetryLoop(outcomes, Truthy, limiter, tokens, w0);
    LoopEndings(outcomes, Truthy, 0, w0);
    if run.ending.Done? {
      var reply := run.ending.response.value;
      counters.AddPrompt(reply.usage.inputTokens);
      counters.AddResponse(reply.usage.outputTokens);
    }
    result := ChatResult(model, jsonStart, run.ending);
  }

  /** A first reply with content ends the loop at once, without a wait, and comes back
      as the prefix followed by the text of its first block, whatever the later outcomes;
      by `Chat`'s contract the counters then grow by that reply's usage. */
  lemma PrefixedReply(model: string, jsonStart: string, reply: Reply, rest: seq<Attempt<Option<Reply>>>, w0: nat)
    requires reply.content != []
    ensures var run := Loop([Returned(Some(reply))] + rest, Truthy, 0, w0);
      && run == Run(1, [], Done(Some(reply)))
      && ChatResult(model, jsonStart, run.ending) == Ok(jsonStart + reply.content[0].text)
  {
    assert ([Returned(Some(reply))] + rest)[0] == Returned(Some(reply));
  }

  /** Falsy replies do not use up the retries: after any number of them, three provider
      errors are still needed to exhaust the loop. */
  lemma FalsyRepliesAreFree(falsy: nat, w0: nat)
    ensures var run := Loop(FalsyReplies(falsy) + [Transient, Transient, Transient], Truthy, 0, w0);
      run.ending == Exhausted(MaxRetries) && run.attempts == falsy + 3
  {
    var junk := FalsyReplies(falsy);
    UnusableResponsesAreFree(junk, [Transient, Transient, Transient], Truthy, 0, w0);
    ThreeErrorsExhaust([], Truthy, w0);
    var errors: seq<Attempt<Option<Reply>>> := [Transient, Transient, Transient];
    assert errors + [] == errors;
  }

  /** `k` falsy replies in a row. */
  function FalsyReplies(k: nat): (s: seq<Attempt<Option<Reply>>>)
    ensures |s| == k && forall i :: 0 <= i < k ==> s[i] == Returned(None)
  {
    if k == 0 then [] else [Returned(None)] + FalsyReplies(k - 1)
  }
}
