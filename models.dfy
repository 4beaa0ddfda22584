/** `_models.py`: the static catalog of services and model aliases, the limiter and
    price tables, `calculate_cost`, and `ModelContext`, which binds one catalog entry to
    its shared limiters and dispatches `chat` to the matching adapter. */
module Models {

  import opened Wrappers
  import opened Limiters
  import opened Usage
  import opened Retry
  import opened ConnPool
  import Aws
  import AnthropicApi
  import OpenAiApi

  const FineTunedAliases: seq<string> :=
    ["ft-events-1", "ft-events-2", "ft-events-3", "ft-classify-1", "ft-classify-2", "ft-classify-3"]

  /** `MODELS`: service, then alias, to the provider's model id. */
  const ModelIds: map<string, map<string, string>> := map[
    "OpenAI" := map[
      "gpt-4" := "gpt-4-turbo-2024-04-09",
      "gpt-3.5" := "gpt-3.5-turbo-0125",
      "ft-events-1" := "ft:gpt-3.5-turbo-0125:computational-policy-lab:events:9A33J3DL",
      "ft-events-2" := "ft:gpt-3.5-turbo-0125:computational-policy-lab:events2:9A6G5JOs",
      "ft-events-3" := "ft:gpt-3.5-turbo-0125:computational-policy-lab:events3:9AAUeVtD",
      "ft-classify-1" := "ft:gpt-3.5-turbo-0125:computational-policy-lab:classify:9AWOhGqH",
      "ft-classify-2" := "ft:gpt-3.5-turbo-0125:computational-policy-lab:classify2:9Aazgks8",
      "ft-classify-3" := "ft:gpt-3.5-turbo-0125:computational-policy-lab:classify3:9AdamZ7x"],
    "AWS" := map[
      "sonnet" := "anthropic.claude-3-sonnet-20240229-v1:0",
      "haiku" := "anthropic.claude-3-haiku-20240307-v1:0"],
    "Anthropic" := map[
      "opus" := "claude-3-opus-20240229",
      "sonnet" := "claude-3-sonnet-20240229",
      "haiku" := "claude-3-haiku-20240307"]]

  /** The limiter objects of the tables, by a name for each object: the two objects the
      source binds to variables keep those names, the others are named by their entry. */
  datatype LimiterConfig = LimiterConfig(maxRate: nat, timePeriod: nat)

  const RateLimiterConfigs: map<string, LimiterConfig> := map[
    "OpenAI/gpt-4" := LimiterConfig(250, 3),
    "gpt_3_5_turbo_rl" := LimiterConfig(500, 3),
    "AWS/sonnet" := LimiterConfig(50, 6),
    "AWS/haiku" := LimiterConfig(100, 6),
    "Anthropic/opus" := LimiterConfig(200, 6),
    "Anthropic/sonnet" := LimiterConfig(200, 6),
    "Anthropic/haiku" := LimiterConfig(200, 6)]

  /** `RATE_LIMITERS`, as the name of the object each entry holds. */
  const RateLimiterOf: map<string, map<string, string>> := map[
    "OpenAI" := map[
      "gpt-4" := "OpenAI/gpt-4",
      "gpt-3.5" := "gpt_3_5_turbo_rl",
      "ft-events-1" := "gpt_3_5_turbo_rl",
      "ft-events-2" := "gpt_3_5_turbo_rl",
      "ft-events-3" := "gpt_3_5_turbo_rl",
      "ft-classify-1" := "gpt_3_5_turbo_rl",
      "ft-classify-2" := "gpt_3_5_turbo_rl",
      "ft-classify-3" := "gpt_3_5_turbo_rl"],
    "AWS" := map["sonnet" := "AWS/sonnet", "haiku" := "AWS/haiku"],
    "Anthropic" := map["opus" := "Anthropic/opus", "sonnet" := "Anthropic/sonnet", "haiku" := "Anthropic/haiku"]]

  /** The token limiters; `AsyncLimiter(n)` has the library's default period of 60 seconds. */
  const TokenLimiterConfigs: map<string, LimiterConfig> := map[
    "OpenAI/gpt-4" := LimiterConfig(150_000, 15),
    "gpt_3_5_turbo" := LimiterConfig(500_000, 15),
    "AWS/sonnet" := LimiterConfig(100_000, 6),
    "AWS/haiku" := LimiterConfig(200_000, 6),
    "Anthropic/opus" := LimiterConfig(200_000, 60),
    "Anthropic/sonnet" := LimiterConfig(160_000, 60),
    "Anthropic/haiku" := LimiterConfig(80_000, 60)]

  /** `TOKEN_LIMITERS`, as the name of the object each entry holds. */
  const TokenLimiterOf: map<string, map<string, string>> := map[
    "OpenAI" := map[
      "gpt-4" := "OpenAI/gpt-4",
      "gpt-3.5" := "gpt_3_5_turbo",
      "ft-events-1" := "gpt_3_5_turbo",
      "ft-events-2" := "gpt_3_5_turbo",
      "ft-events-3" := "gpt_3_5_turbo",
      "ft-classify-1" := "gpt_3_5_turbo",
      "ft-classify-2" := "gpt_3_5_turbo",
      "ft-classify-3" := "gpt_3_5_turbo"],
    "AWS" := map["sonnet" := "AWS/sonnet", "haiku" := "AWS/haiku"],
    "Anthropic" := map["opus" := "Anthropic/opus", "sonnet" := "Anthropic/sonnet", "haiku" := "Anthropic/haiku"]]

  /** `CONNECTION_LIMITERS`: a client pool of 100 for AWS, semaphores of 100 otherwise. */
  datatype ConnectionLimiter = ClientPoolOf(maxsize: nat) | SemaphoreOf(capacity: nat)

  const ConnectionLimiters: map<string, ConnectionLimiter> := map[
    "AWS" := ClientPoolOf(100),
    "OpenAI" := SemaphoreOf(100),
    "Anthropic" := SemaphoreOf(100)]

  /** A price in dollars per million tokens, times 4 (every price is a multiple of 0.25). */
  datatype Price = Price(prompt4: nat, response4: nat)

  /** `MODEL_COSTS`. */
  const ModelCosts: map<string, map<string, Price>> := map[
    "OpenAI" := map[
      "gpt-4" := Price(40, 120),
      "gpt-3.5" := Price(2, 6),
      "ft-events-1" := Price(12, 24),
      "ft-events-2" := Price(12, 24),
      "ft-events-3" := Price(12, 24),
      "ft-classify-1" := Price(12, 24),
      "ft-classify-2" := Price(12, 24),
      "ft-classify-3" := Price(12, 24)],
    "AWS" := map["sonnet" := Price(12, 60), "haiku" := Price(1, 5)],
    "Anthropic" := map["opus" := Price(60, 300), "sonnet" := Price(12, 60), "haiku" := Price(1, 5)]]

  /** Every catalog entry has a rate limiter, a token limiter and a price, every limiter
      name an entry uses is configured, and every service has a connection limiter. */
  lemma TablesConsistent()
    ensures forall s :: s in ModelIds ==>
      && s in RateLimiterOf && s in TokenLimiterOf && s in ModelCosts && s in ConnectionLimiters
      && (forall a :: a in ModelIds[s] ==>
            && a in RateLimiterOf[s] && RateLimiterOf[s][a] in RateLimiterConfigs
            && a in TokenLimiterOf[s] && TokenLimiterOf[s][a] in TokenLimiterConfigs
            && a in ModelCosts[s])
  {
  }

  /** "gpt-3.5" and the six fine-tuned aliases share one request limiter and one token
      limiter, which no other alias uses. */
  lemma GptThreeFiveShared()
    ensures forall a :: a in FineTunedAliases ==>
      && a in ModelIds["OpenAI"]
      && RateLimiterOf["OpenAI"][a] == RateLimiterOf["OpenAI"]["gpt-3.5"]
      && TokenLimiterOf["OpenAI"][a] == TokenLimiterOf["OpenAI"]["gpt-3.5"]
    ensures RateLimiterOf["OpenAI"]["gpt-4"] != RateLimiterOf["OpenAI"]["gpt-3.5"]
    ensures TokenLimiterOf["OpenAI"]["gpt-4"] != TokenLimiterOf["OpenAI"]["gpt-3.5"]
  {
  }

  const RateLimiterNames: seq<string> := [
    "OpenAI/gpt-4", "gpt_3_5_turbo_rl", "AWS/sonnet", "AWS/haiku",
    "Anthropic/opus", "Anthropic/sonnet", "Anthropic/haiku"]

  const TokenLimiterNames: seq<string> := [
    "OpenAI/gpt-4", "gpt_3_5_turbo", "AWS/sonnet", "AWS/haiku",
    "Anthropic/opus", "Anthropic/sonnet", "Anthropic/haiku"]

  /** One new limiter object per configured name: no two names share a bucket. */
  method MakeLimiters(names: seq<string>, configs: map<string, LimiterConfig>) returns (m: map<string, Limiter>)
    requires forall n :: n in configs <==> n in names
    ensures forall n :: n in m <==> n in configs
    ensures forall n :: n in m ==>
      fresh(m[n]) && LimiterConfig(m[n].maxRate, m[n].timePeriod) == configs[n] && m[n].acquired == []
    ensures DistinctLimiters(m)
  {
    m := map[];
    for i := 0 to |names|
      invariant forall n :: n in m <==> n in names[..i]
      invariant forall n :: n in m ==>
        fresh(m[n]) && LimiterConfig(m[n].maxRate, m[n].timePeriod) == configs[n] && m[n].acquired == []
      invariant DistinctLimiters(m)
    {
      assert names[..i + 1] == names[..i] + [names[i]];
      var l := new Limiter(configs[names[i]].maxRate, configs[names[i]].timePeriod);
      m := m[names[i] := l];
    }
    assert names[..|names|] == names;
  }

  /** Distinct names are bound to distinct limiter objects. */
  predicate DistinctLimiters(m: map<string, Limiter>) {
    forall a, b :: a in m && b in m && a != b ==> m[a] != m[b]
  }

  /** The catalog has exactly the three services the dispatch knows. */
  lemma ServicesAreThree(service: string)
    ensures service in ModelIds <==> service == "OpenAI" || service == "AWS" || service == "Anthropic"
  {
  }

  datatype ConfigError = UnknownService(service: string) | UnknownModel(model: string)

  /** The process-wide objects the tables hold: one limiter object per name, the AWS
      client pool, and each adapter's usage counters. */
  class Registry {
    const rateLimiters: map<string, Limiter>
    const tokenLimiters: map<string, Limiter>
    const awsPool: ClientPool
    const openAiCounters: Counters
    const awsCounters: Counters
    const anthropicCounters: Counters

    ghost predicate Valid()
      reads this
    {
      && (forall n :: n in rateLimiters <==> n in RateLimiterConfigs)
      && (forall n :: n in tokenLimiters <==> n in TokenLimiterConfigs)
      && (forall n :: n in rateLimiters ==>
            LimiterConfig(rateLimiters[n].maxRate, rateLimiters[n].timePeriod) == RateLimiterConfigs[n])
      && (forall n :: n in tokenLimiters ==>
            LimiterConfig(tokenLimiters[n].maxRate, tokenLimiters[n].timePeriod) == TokenLimiterConfigs[n])
      && (forall m, n :: m in rateLimiters && n in tokenLimiters ==> rateLimiters[m] != tokenLimiters[n])
      && DistinctLimiters(rateLimiters) && DistinctLimiters(tokenLimiters)
      && awsPool.maxsize == ConnectionLimiters["AWS"].maxsize
      && openAiCounters != awsCounters && awsCounters != anthropicCounters && openAiCounters != anthropicCounters
    }

    /** The module-level objects created at import time. */
    constructor ()
      ensures Valid() && awsPool.Valid() && awsPool.queue == [] && awsPool.out == {}
    {
      var rate := MakeLimiters(RateLimiterNames, RateLimiterConfigs);
      var token := MakeLimiters(TokenLimiterNames, TokenLimiterConfigs);
      rateLimiters := rate;
      tokenLimiters := token;
      awsPool := new ClientPool(100);
      openAiCounters := new Counters();
      awsCounters := new Counters();
      anthropicCounters := new Counters();
    }

    function CountersOf(service: string): Counters
      reads this
    {
      if service == "OpenAI" then openAiCounters else if service == "AWS" then awsCounters else anthropicCounters
    }
  }

  /** The text `calculate_cost` formats, before rounding: the counters it read and the cost
      in dollars. */
  datatype CostReport = CostReport(promptTokens: int, responseTokens: int, cost: real)

  datatype CostError = CostUnknownService(service: string) | MissingPrice(model: string)

  /** The linear price formula, in dollars. */
  function Cost(price: Price, promptTokens: int, responseTokens: int): real {
    ((price.prompt4 * promptTokens + price.response4 * responseTokens) as real) / 4_000_000.0
  }

  /** Costs add up over calls: the cost of summed counters is the sum of the costs. */
  lemma CostAdditive(price: Price, p1: int, r1: int, p2: int, r2: int)
    ensures Cost(price, p1 + p2, r1 + r2) == Cost(price, p1, r1) + Cost(price, p2, r2)
  {
    var a := price.prompt4 * p1 + price.response4 * r1;
    var b := price.prompt4 * p2 + price.response4 * r2;
    assert price.prompt4 * (p1 + p2) + price.response4 * (r1 + r2) == a + b;
  }

  /** `calculate_cost(service, model)`: an unknown service is rejected, an alias without a
      price fails the table lookup (`KeyError`); otherwise the provider's counters priced
      at the model's rates. It only reads state. */
  function CalculateCost(reg: Registry, service: string, model: string): (r: Result<CostReport, CostError>)
    reads reg, reg.openAiCounters, reg.awsCounters, reg.anthropicCounters
    ensures service !in ModelIds <==> r == Err(CostUnknownService(service))
    ensures r.Ok? <==> service in ModelIds && model in ModelCosts[service]
    ensures r.Ok? ==>
      var c := reg.CountersOf(service);
      && r.value.promptTokens == c.promptTokens && r.value.responseTokens == c.responseTokens
      && r.value.cost * 4_000_000.0
         == (ModelCosts[service][model].prompt4 * c.promptTokens + ModelCosts[service][model].response4 * c.responseTokens) as real
  {
    if service !in ModelIds then Err(CostUnknownService(service))
    else if model !in ModelCosts[service] then Err(MissingPrice(model))
    else
      var c := reg.CountersOf(service);
      Ok(CostReport(c.promptTokens, c.responseTokens, Cost(ModelCosts[service][model], c.promptTokens, c.responseTokens)))
  }

  /** `ModelContext`: one catalog entry bound to its limiters and connection limiter. */
  class ModelContext {
    const registry: Registry
    const service: string
    const model: string
    const fullModel: string
    const rateLimiter: Limiter
    const tokenLimiter: Limiter

    ghost predicate Valid()
      reads this, registry
    {
      && registry.Valid()
      && service in ModelIds && model in ModelIds[service]
      && fullModel == ModelIds[service][model]
      && RateLimiterOf[service][model] in registry.rateLimiters
      && rateLimiter == registry.rateLimiters[RateLimiterOf[service][model]]
      && TokenLimiterOf[service][model] in registry.tokenLimiters
      && tokenLimiter == registry.tokenLimiters[TokenLimiterOf[service][model]]
      && rateLimiter != tokenLimiter
    }

    constructor (registry: Registry, service: string, model: string)
      requires registry.Valid() && service in ModelIds && model in ModelIds[service]
      ensures Valid() && this.registry == registry && this.service == service && this.model == model
    {
      TablesConsistent();
      this.registry := registry;
      this.service := service;
      this.model := model;
      fullModel := ModelIds[service][model];
      rateLimiter := registry.rateLimiters[RateLimiterOf[service][model]];
      tokenLimiter := registry.tokenLimiters[TokenLimiterOf[service][model]];
    }

    /** `initialize()`: fills the AWS pool; nothing for the other services. */
    method Initialize()
      requires Valid()
      requires service == "AWS" ==> registry.awsPool.Valid() && registry.awsPool.queue == [] && registry.awsPool.out == {}
      modifies registry.awsPool
      ensures service == "AWS" ==> registry.awsPool.Valid() && |registry.awsPool.queue| == 100
      ensures service != "AWS" ==> unchanged(registry.awsPool)
    {
      if service == "AWS" {
        registry.awsPool.Initialize();
      }
    }

    /** `close()`: drains the AWS pool; nothing for the other services. */
    method Close()
      requires Valid()
      requires service == "AWS" ==> registry.awsPool.Valid()
      modifies registry.awsPool, registry.awsPool.queue
      ensures service == "AWS" ==> registry.awsPool.queue == [] && registry.awsPool.out == old(registry.awsPool.out)
      ensures service == "AWS" ==> forall c :: c in old(registry.awsPool.queue) ==> c.closeCount == old(c.closeCount) + 1
      ensures service != "AWS" ==> unchanged(registry.awsPool) && unchanged(old(registry.awsPool.queue))
    {
      if service == "AWS" {
        registry.awsPool.Close();
      }
    }

    /** `chat`: the request limiter is entered once (an acquisition of 1) around the whole
        adapter call, retries included; then the adapter of the service runs with the
        model id, the token limiter and the connection limiter. OpenAI drops the prefix.
        The outcomes of the network calls are given per provider; only the service's are
        used. */
    method Chat(
      system: string, prompt: string, temperature: real, jsonStart: string, encodedLen: string -> nat,
      openAiOutcomes: seq<Attempt<Option<OpenAiApi.Completion>>>,
      awsOutcomes: seq<Attempt<Option<Aws.Body>>>,
      anthropicOutcomes: seq<Attempt<Option<AnthropicApi.Reply>>>,
      w0: nat)
      returns (result: Result<string, ChatError>)
      requires Valid()
      requires service == "AWS" ==> registry.awsPool.Valid() && registry.awsPool.queue != []
      modifies rateLimiter, tokenLimiter, registry.awsPool, registry.CountersOf(service)
      ensures rateLimiter.acquired == old(rateLimiter.acquired) + [1]
      ensures service == "OpenAI" ==>
        var run := Loop(openAiOutcomes, OpenAiApi.NotNone, 0, w0);
        && (run.ending.Done? ==> run.ending.response.Some?)
        && result == OpenAiApi.ChatResult(fullModel, run.ending)
        && tokenLimiter.acquired == old(tokenLimiter.acquired) + Copies(OpenAiApi.InputTokens(encodedLen, system, prompt), run.attempts)
      ensures service == "AWS" ==>
        var run := Loop(awsOutcomes, Aws.AnyBody, 0, w0);
        && result == Aws.ChatResult(fullModel, jsonStart, run.ending)
        && tokenLimiter.acquired == old(tokenLimiter.acquired) + Copies(Aws.InputTokens(system, prompt, jsonStart), run.attempts)
        && registry.awsPool.Valid() && registry.awsPool.out == old(registry.awsPool.out)
        && registry.awsPool.queue == old(registry.awsPool.queue)[1..] + [old(registry.awsPool.queue)[0]]
      ensures service == "Anthropic" ==>
        var run := Loop(anthropicOutcomes, AnthropicApi.Truthy, 0, w0);
        && (run.ending.Done? ==> run.ending.response.Some?)
        && result == AnthropicApi.ChatResult(fullModel, jsonStart, run.ending)
        && tokenLimiter.acquired == old(tokenLimiter.acquired) + Copies(AnthropicApi.InputTokens(system, prompt), run.attempts)
      ensures service == "OpenAI" ==>
        var run := Loop(openAiOutcomes, OpenAiApi.NotNone, 0, w0);
        var c := registry.openAiCounters;
        && (run.ending.Done? ==>
              var s := OpenAiApi.UsageCorrected(run.ending.response.value.usage);
              c.promptTokens == old(c.promptTokens) + s.promptDelta && c.responseTokens == old(c.responseTokens) + s.responseDelta)
        && (!run.ending.Done? ==> c.promptTokens == old(c.promptTokens) && c.responseTokens == old(c.responseTokens))
      ensures service == "AWS" ==>
        var run := Loop(awsOutcomes, Aws.AnyBody, 0, w0);
        var c := registry.awsCounters;
        c.promptTokens == old(c.promptTokens) + Aws.UsageDelta(run.ending).0
        && c.responseTokens == old(c.responseTokens) + Aws.UsageDelta(run.ending).1
      ensures service == "Anthropic" ==>
        var run := Loop(anthropicOutcomes, AnthropicApi.Truthy, 0, w0);
        var c := registry.anthropicCounters;
        && (run.ending.Done? ==>
              c.promptTokens == old(c.promptTokens) + run.ending.response.value.usage.inputTokens
              && c.responseTokens == old(c.responseTokens) + run.ending.response.value.usage.outputTokens)
        && (!run.ending.Done? ==> c.promptTokens == old(c.promptTokens) && c.responseTokens == old(c.responseTokens))
      ensures service != "OpenAI" ==> unchanged(registry.openAiCounters)
      ensures service != "AWS" ==> unchanged(registry.awsPool) && unchanged(registry.awsCounters)
      ensures service != "Anthropic" ==> unchanged(registry.anthropicCounters)
    {
      rateLimiter.Acquire(1);
      ServicesAreThree(service);
      if service == "OpenAI" {
        result := OpenAiApi.Chat(fullModel, system, prompt, temperature, encodedLen,
                                 tokenLimiter, registry.openAiCounters, openAiOutcomes, w0);
      } else if service == "AWS" {
        result := Aws.Chat(fullModel, system, prompt, temperature, jsonStart,
                           tokenLimiter, registry.awsPool, registry.awsCounters, awsOutcomes, w0);
      } else {
        result := AnthropicApi.Chat(fullModel, system, prompt, temperature, jsonStart,
                                    tokenLimiter, registry.anthropicCounters, anthropicOutcomes, w0);
      }
    }

    /** `__aexit__` returns `False`: an exception raised in the `async with` body is not
        suppressed. */
    function SuppressesException(): (suppress: bool)
      ensures !suppress
    {
      false
    }
  }

  /** `ModelContext(service, model)`: an unknown service is rejected first, then an alias
      the service does not have; otherwise the context is bound to the tables' entries. */
  method Resolve(registry: Registry, service: string, model: string) returns (r: Result<ModelContext, ConfigError>)
    requires registry.Valid()
    ensures service !in ModelIds ==> r == Err(UnknownService(service))
    ensures service in ModelIds && model !in ModelIds[service] ==> r == Err(UnknownModel(model))
    ensures r.Ok? <==> service in ModelIds && model in ModelIds[service]
    ensures r.Ok? ==> fresh(r.value) && r.value.Valid() && r.value.registry == registry
                      && r.value.service == service && r.value.model == model
  {
    if service !in ModelIds {
      return Err(UnknownService(service));
    }
    if model !in ModelIds[service] {
      return Err(UnknownModel(model));
    }
    var m := new ModelContext(registry, service, model);
    return Ok(m);
  }
}
