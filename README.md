# no-news, modelled in Dafny

This project models the core of *no-news*, a set of Python scripts that use large language
models to turn decades of evening-news abstracts (ABC, CBS, NBC) into a database. The
scripts extract each day's events, build a list of news topics and a list of each year's
important issues, classify every segment against them, produce fine-tuning data, and set
up a Qualtrics validation survey.

The model has two layers, one Dafny module per source file:

- **The invocation layer.**
  - `ConnPool` models the pool of AWS clients.
  - `Limiters` and `Usage` model the rate limiters and the process-wide token counters.
  - `Retry` holds the bounded retry loop that all three adapters share.
  - `Aws`, `AnthropicApi` and `OpenAiApi` are the adapters.
  - `Models` holds the model tables, the cost formula and `ModelContext`.
- **The scripts.**
  - `Events`, `Topics`, `Classify` (with `Batch` for the Bedrock batch path it shares with `Other`), `Other`, `Issues`, `FineTune` and `Qualtrics`, one per script.
  - `Utils` models the date adapters and `handle_exceptions`.
  - `Scripts` models the `segments` table the classification scripts update.
  - `Text` and `Wrappers` are shared helpers.

**How the outside world enters the model.**
- Network and model outcomes are inputs:
  - the retry loop consumes a sequence of attempt outcomes;
  - a chat reply is given already parsed, or as the way it failed.
- The ids the Qualtrics API hands back are parameters, and so are the random choices.
- Code whose form is imperative becomes imperative Dafny:
  - the client pool, the limiters and the counters are classes;
  - the database tables the scripts update are classes with `map` or `seq` fields;
  - the script loops are `method`s with loop invariants.

  Each such method is proved against a specification function, and the properties are proved as lemmas about that function.
- The retry loop's waits are integers. They start at `w0` and double on every provider error; the jitter is left out.

## Model

| member | source | states |
|---|---|---|
| ConnPool.Client.constructor | _connpool.py:61-67 | a newly created client has not been closed |
| ConnPool.ClientPool.constructor | _connpool.py:45-55 | a new pool is an empty queue bounded by `maxsize`, with nothing checked out |
| ConnPool.ClientPool.Initialize | _connpool.py:57-69 | exactly `maxsize` fresh, unclosed, distinct clients end up queued, and nothing is checked out |
| ConnPool.ClientPool.Acquire | _connpool.py:78-79 | the head of the queue is handed out, removed from the queue and counted as checked out; an empty queue hands out nothing and changes nothing |
| ConnPool.ClientPool.Release | _connpool.py:81-82 | the client goes back to the tail of the queue and is no longer checked out; the pool invariant (bounded, distinct, queued clients not checked out) is kept |
| ConnPool.ClientPool.Close | _connpool.py:71-76 | the queue ends empty, every queued client is closed exactly once, and checked-out clients are not closed |
| ConnPool.ClientPool.Scope | _connpool.py:84-85 | a new manager bound to this pool that holds no client |
| ConnPool.ClientManager.constructor | _connpool.py:29-31 | the manager is bound to its pool and holds no client |
| ConnPool.ClientManager.Enter | _connpool.py:33-35 | the manager holds and returns the client taken from the head of the queue |
| ConnPool.ClientManager.Exit | _connpool.py:37-39 | the held client goes back to the tail of the queue and the manager forgets it, whether or not the body raised |
| ConnPool.UseOnce | _connpool.py:28-39 | one scoped use rotates the queue: its head moves to its tail and nothing stays checked out |
| Limiters.Limiter.constructor | _models.py:38 | a limiter keeps its rate and period and has had nothing acquired from it |
| Limiters.Limiter.Acquire | _aws.py:76 | the amount is appended to the amounts acquired so far |
| Usage.Counters.constructor | _aws.py:16-17 | both token counters start at 0 |
| Usage.Counters.AddPrompt | _aws.py:110 | the prompt counter grows by `n` and the response counter is unchanged |
| Usage.Counters.AddResponse | _aws.py:111 | the response counter grows by `n` and the prompt counter is unchanged |
| Usage.EstimateTokens | _aws.py:68 | `(chars + 4) // 5` is the least `t` with `5 * t >= chars` |
| Retry.Copies | _aws.py:75-76 | `k` copies of the amount, one per attempt |
| Retry.RetryLoop | _aws.py:71-99 | the loop behaves as the specification `Loop` from 0 retries and wait `w0`, acquiring the token amount once before every attempt |
| Retry.LoopWaits | _aws.py:89-99 | the waits are `w0`, `2*w0`, `4*w0`, ...; one per provider error among the attempts, at most three; the loop is exhausted exactly when three retries are spent and then reports 3 retries |
| Retry.LoopEndings | _aws.py:75-99 | for each ending, what the last attempt was (a usable response, an unrecognised exception), that every earlier attempt let the loop go on, and that no more attempts are made than there are outcomes |
| Retry.LoopAttemptsBounded | _aws.py:75-87 | when every response ends the loop, there are at most three attempts |
| Retry.UnusableResponsesAreFree | _anthropic.py:66-67 | any number of rejected responses in front of a run only add attempts and change nothing else |
| Retry.TwoErrorsThenSuccess | _aws.py:75-93 | two provider errors then a response: three attempts, waits `w0` and `2*w0`, and that response |
| Retry.ThreeErrorsExhaust | _aws.py:98-99 | three provider errors end the loop with "after 3 retries" whatever follows, having slept `w0`, `2*w0`, `4*w0` |
| Aws.FormatPayload | _aws.py:23-45 | the fixed version and 1000-token cap, the user prompt as one text part, and an assistant message with the prefix if and only if the prefix is non-empty |
| Aws.TextsOf | _aws.py:115-123 | at most one text per content item |
| Aws.TextsOfConcat | _aws.py:119-123 | collecting texts distributes over concatenation of the content list |
| Aws.ReplyText | _aws.py:115-125 | the reply starts with the prefix and the rest has no leading or trailing whitespace; with no `content` key the reply is the prefix alone |
| Aws.OtherItemsIgnored | _aws.py:122 | a content item whose type is not "text" does not change the reply, wherever it sits |
| Aws.SingleTextItem | _aws.py:115-125 | a reply with one text item is the prefix followed by that text stripped |
| Aws.NoTexts | _aws.py:122 | content without text items contributes no text |
| Aws.InvokeWithClient | _aws.py:74-99 | the loop runs on the client at the head of the pool's queue, which is back at its tail afterwards however the loop ended |
| Aws.RecordUsage | _aws.py:108-113 | the counters grow by the reported input and output tokens; a missing `usage` or `input_tokens` changes neither, a missing `output_tokens` after a present `input_tokens` leaves only the prompt count grown |
| Aws.Chat | _aws.py:50-125 | the pool rotates by one client, the estimate `(len(system)+len(prompt)+len(json_start)+4)//5` is acquired before each attempt, the counters follow the usage block, and the result is the reply text or the error the loop ending raises (a body that is not JSON raises "Ill-formatted") |
| Aws.AtMostThreeCalls | _aws.py:75-99 | whatever the outcomes, `invoke_model` is called at most three times |
| AnthropicApi.BuildMessages | _anthropic.py:43-47 | the user prompt first, and an assistant message with the prefix if and only if the prefix is non-empty |
| AnthropicApi.ChatResult | _anthropic.py:54-86 | a reply with content gives the prefix followed by the first block's text; a reply without content is the `IndexError`; an exhausted loop and an unrecognised exception raise their messages |
| AnthropicApi.Chat | _anthropic.py:25-86 | `(len(system)+len(prompt)+4)//5` is acquired before each attempt, the counters grow by the reply's usage only when a reply ended the loop, and the result is `ChatResult` of the loop's ending |
| AnthropicApi.PrefixedReply | _anthropic.py:54-86 | a first reply with content ends the loop on that attempt without a wait, and `chat` returns the prefix followed by its first block's text, whatever comes after |
| AnthropicApi.FalsyRepliesAreFree | _anthropic.py:66-67 | after any number of falsy replies, three provider errors are still needed to exhaust the loop |
| AnthropicApi.FalsyReplies | _anthropic.py:66-67 | `k` falsy replies in a row |
| OpenAiApi.BuildRequest | _openai.py:62-71 | system text and prompt as two "system" messages, no assistant prefix, JSON output and at most 1000 tokens |
| OpenAiApi.UsageAsWritten | _openai.py:89-105 | as written, a usage field that is `None` makes the block raise `TypeError`, and a missing `usage` changes nothing |
| OpenAiApi.UsageCorrected | _openai.py:89-105 | as the fallback intends, a field that is not an `int` adds 0 and nothing raises |
| OpenAiApi.UsageVersionsAgree | _openai.py:89-103 | the written and the intended usage blocks agree whenever both fields are integers |
| OpenAiApi.UsageCounterexample | _openai.py:96-103 | `completion_tokens` of `None` makes the written block raise after adding the prompt tokens, where the intended block adds 0 |
| OpenAiApi.ChatResult | _openai.py:85-107 | a completion with choices gives the first choice's content unchanged; no choice is the `IndexError`; exhausted and unrecognised endings raise their messages |
| OpenAiApi.Chat | _openai.py:36-107 | the encoded lengths of system and prompt are acquired before each attempt, the counters grow by the intended usage only when a completion ended the loop, and the result is `ChatResult` of the ending |
| Models.TablesConsistent | _models.py:13-157 | every catalog entry has a request limiter, a token limiter and a price, every limiter an entry names is configured, and every service has a connection limiter |
| Models.GptThreeFiveShared | _models.py:38-50 | "gpt-3.5" and the six fine-tuned aliases share one request limiter object and one token limiter object, which "gpt-4" does not use |
| Models.MakeLimiters | _models.py:38-87 | one fresh limiter per configured name, with that name's rate and period and nothing acquired; distinct names never share a limiter object |
| Models.ServicesAreThree | _models.py:13-33 | a service is in the catalog if and only if it is "OpenAI", "AWS" or "Anthropic" |
| Models.Registry.constructor | _models.py:38-96 | the import-time objects: limiters matching the tables, one distinct limiter object per name, request and token limiters apart, an empty AWS pool of 100, and three separate counter pairs |
| Models.CostAdditive | _models.py:179-182 | the price formula is additive: the cost of summed counts is the sum of the costs |
| Models.CalculateCost | _models.py:160-188 | an unknown service is rejected (and only then), an alias without a price fails, otherwise the report shows the service's counters and `cost * 1e6 = prompt_price * prompt_tokens + response_price * response_tokens` |
| Models.ModelContext.constructor | _models.py:198-209 | the context is bound to the catalog's model id and the tables' request and token limiters |
| Models.ModelContext.Initialize | _models.py:211-213 | for AWS the pool is filled with 100 clients; for other services nothing changes |
| Models.ModelContext.Close | _models.py:215-217 | for AWS every queued client is closed once and the queue is empty; for other services nothing changes |
| Models.ModelContext.Chat | _models.py:225-271 | the request limiter is acquired once around the whole call; the service's adapter runs with the model id and token limiter; OpenAI gets no prefix; for AWS the pool rotates by one client, otherwise the pool is untouched; the service's counters grow as its adapter says (AWS by the usage block's deltas, Anthropic by the reply's usage on success, OpenAI by the intended usage fallback on success) and the other services' counters are unchanged |
| Models.ModelContext.SuppressesException | _models.py:222-223 | leaving the context never suppresses an exception |
| Models.Resolve | _models.py:198-202 | an unknown service is rejected first, then an unknown alias; a context is made exactly when both are known |
| Utils.DaysInMonth | _utils.py:41-43 | every month of the Gregorian calendar has 28 to 31 days |
| Utils.Digits | _utils.py:41-43 | a zero-padded decimal numeral is all digits and at least `width` long |
| Utils.AdaptDate | _utils.py:41-43 | `isoformat()` is ten characters `YYYY-MM-DD`, with dashes at 4 and 7 and the three digit fields reading back as year, month and day |
| Utils.FixedWidthDigits | _utils.py:41-43 | a number below `10^width` padded to `width` digits is exactly `width` long and keeps its value |
| Utils.FirstMatch | _utils.py:36-38 | a matching alternative of a `strptime` directive stays inside the text |
| Utils.Strptime | _utils.py:36-38 | `strptime(text, "%Y-%m-%d")` accepts only texts that form a valid date |
| Utils.ConvertDate | _utils.py:36-38 | bytes that are not ASCII fail to decode; anything accepted is a valid date |
| Utils.DateRoundTrip | _utils.py:36-43 | every valid date, adapted to text, stored as ASCII bytes and converted back, is the same date |
| Utils.HandleExceptions | _utils.py:10-29 | the decorated coroutine returns the value unchanged, turns any `Exception` into `None` with the error logged, lets base exceptions through, and never raises an `Exception` |
| Scripts.Sentinel | classify.py:226-228 | a missing classification is stored as -1, a present one as itself |
| Scripts.SegmentTable.SetIssue | classify.py:459-471 | `UPDATE segments SET issue_id`: the row of a known id gets the value, an unknown id updates no row, and no other column changes |
| Scripts.SegmentTable.SetTopic | classify.py:474-488 | `UPDATE segments SET topic_id, hard_news`: both columns of a known id change together and nothing else does |
| Scripts.SegmentTable.SetOther | other.py:266-280 | `UPDATE segments SET other_id`: the row of a known id gets the value and nothing else changes |
| Events.SegmentIds | events.py:158 | the set of the day's segment ids: every segment's id, and nothing else |
| Events.WithSegments | events.py:166 | the events that list at least one segment, every such event kept, none added |
| Events.WithSegmentsIsSubsequence | events.py:166 | the filter keeps the events in their order |
| Events.WithSegmentsKeepsFull | events.py:166 | events that all list segments pass unchanged |
| Events.CleanEvents | events.py:155-173 | `ValueError` exactly when some event lists an unknown segment id; otherwise every kept event lists segments, all of them known |
| Events.CleanEventsIdempotent | events.py:155-173 | the kept events are the input's in order, and cleaning them again changes nothing |
| Events.OutletEntries | events.py:56-65 | an outlet contributes at most one entry per segment |
| Events.GetPrompt | events.py:50-83 | the loop over ABC, CBS, NBC builds the prompt: the introduction with the ISO date, each outlet's entries joined by newlines, then the fixed question |
| Events.OtherOutletsIgnored | events.py:64 | a segment of another outlet does not appear in the prompt |
| Events.OutletBlockAppend | events.py:56-66 | a further segment of an outlet appears after that outlet's earlier ones, separated by one newline |
| Events.LastListing | events.py:215-233 | the last event listing a segment: it lists it and no later event does; no result means no event lists it |
| Events.Database.constructor | events.py:214-234 | no event rows and no segment pointing at an event |
| Events.Database.StoreEvents | events.py:214-233 | one row per event appended in order with `top_story` only for the first; every listed segment with a row points at the row of the last event listing it; other segments keep their event |
| Events.Database.PointSegments | events.py:225-233 | every listed segment that has a row now points at the new event, the rest are unchanged |
| Events.AssignedAfterStep | events.py:215-233 | one round of the storage loop keeps every segment at the event the first `i+1` events assign it |
| Events.LaterEventWins | events.py:225-233 | of two events listing one segment, the later one is recorded |
| Events.StoreReply | events.py:200-236 | no parsed reply, or an event naming an unknown segment, stores nothing; otherwise the cleaned events are stored as `StoreEvents` says |
| Events.GenerateEvents | events.py:176-236 | a date without segments makes no call and stores nothing; otherwise one call with the prompt, temperature 0.9 and prefix `{"events":`, and the database changes exactly as `StoreReply` says |
| Classify.Ids | classify.py:163-178 | the set of ids of a topic or issue table: every row's id and no other |
| Classify.CheckIssue | classify.py:163-169 | `KeyError` exactly for a year without an issue list; otherwise accepted iff the reply names no issue or an issue of that year |
| Classify.CheckTopic | classify.py:172-178 | accepted iff the reply names no topic or a known topic |
| Classify.RowLines | classify.py:107-113 | one `id: title: description` line per row, in table order |
| Classify.GetPrompt | classify.py:105-141 | `KeyError` for a year without issues (looked up before the level is checked), `ValueError` for a level other than "issues"/"topics", otherwise the issue or topic prompt of the segment |
| Classify.IssuesPromptShowsAll | classify.py:110-117 | the issues prompt contains every issue line of the year and the segment text |
| Classify.TopicsPromptShowsAll | classify.py:107-119 | the topics prompt contains every topic line and the segment text |
| Classify.ClassifyIssue | classify.py:182-242 | a segment whose year has no issues makes no call; otherwise one call with the issues prompt, temperature 1.0 and the `{"explanation": "` prefix; only a parsed, accepted reply is stored (`-1` for no issue) and only in `issue_id` |
| Classify.ClassifyTopic | classify.py:245-307 | the same for topics: an accepted reply stores topic (`-1` for none) and `hard_news` together, and nothing else changes |
| Classify.StoredIssueIsKnown | classify.py:219-235 | every label the chat path stores is `-1` or an issue of the segment's year |
| Classify.BatchPrompt | classify.py:354-371 | the batch prompt fails exactly for the "issues" level on a year without issues |
| Classify.BatchPrompts | classify.py:352-371 | one prompt result per segment, in order |
| Classify.SegmentIds | classify.py:375 | the segment ids in query order |
| Classify.GeneratePrompts | classify.py:344-388 | the first failing prompt stops the job with its error; otherwise one record per segment, in order, keyed by its padded id, carrying its prompt and the prefix, and the token estimate of all prompts |
| Classify.BatchPromptFails | classify.py:358-371 | a failing batch prompt is the "issues" level on a year without issues, and reports that year |
| Classify.ReadClassification | classify.py:328-338 | a result read back starts with the whole `{"explanation": "` prefix |
| Classify.ReadClassificationCompletesPrefix | classify.py:328-336 | the result line of a request reads back as that request's segment id and its assistant prefill followed by the model's text |
| Classify.UpdateDatabase | classify.py:454-494 | "issues" writes only `issue_id` (`-1` for none); any other level writes `topic_id` (`-1` for none) and `hard_news` together; an unknown id changes no row |
| Batch.RecordId | classify.py:375 | the record id is all digits and at least eleven long |
| Batch.ParseRecordId | classify.py:330 | `int(lstrip("0"))` succeeds exactly when something is left and it is all ASCII digits |
| Batch.RecordIdRoundTrip | classify.py:330-375 | every positive id reads back from its record id, whatever its length; id 0 does not (`int("")` fails) |
| Batch.ChunksPartition | classify.py:391-394 | the chunks concatenate to the whole list, there are ceil(n/50000) of them, each holds 1 to 50,000 items and all but the last exactly 50,000 |
| Batch.ChunkKeysDistinct | classify.py:401 | two chunk numbers with the same `{i:03}` key are equal, so no upload overwrites another |
| Batch.UploadChunks | classify.py:390-407 | chunk `k` goes to key `k` in order; the loop stops at the first rejected upload and otherwise sends every chunk |
| Batch.TokenTotalBounds | classify.py:385 | the estimate is the character count divided by five, rounded up per prompt: between count/5 and (count + 4n)/5 |
| Batch.CharTotalIsSum | classify.py:385 | the characters counted are the prompts' own plus one system message and one `{` per prompt |
| Batch.GenerateRecords | classify.py:349-385 | the records and token total of all prompts in order, or the error of the first failing prompt |
| Batch.ReadResult | classify.py:328-338 | missing `recordId` and a bad id fail first; a result exists iff the id parses and the first content item has text, and it is that id and the prefix followed by the text |
| Batch.ReadResultOfRecord | classify.py:328-336 | a line written for a record of segment `id >= 1` reads back as `id` and the prefixed text |
| Other.ChatLabel | other.py:319-332 | a topic outside 1..17 stores nothing; no topic stores `-1`; a topic in range stores itself |
| Other.Chat | other.py:288-349 | one call with `"{date} {title}\n\n{abstract}"`, temperature 1.0 and the prefix; only a parsed reply with a storable label changes `other_id` of the segment, and no other column changes |
| Other.OtherPrompts | other.py:133 | one prompt per segment, none failing |
| Other.GeneratePrompts | other.py:124-168 | one record per segment in order, keyed by its id, with its prompt, and the token estimate of all prompts |
| Other.ReadOtherAsWritten | other.py:105-118 | as written, the text parsed starts with `{` only |
| Other.ReadOtherAsWrittenLosesKey | other.py:115 | as written, a result line for a request is `{` followed by the model's text: not the prefill plus the text, and its second character is not the quote a key needs |
| Other.ReadOtherCompletesPrefix | other.py:105-118 | as intended, the result line of a request reads back as the request's prefill followed by the model's text |
| Other.BatchLabelAsWritten | other.py:266-276 | as written, the batch path stores the parsed topic as it is, `NULL` for none |
| Other.BatchLabel | other.py:266-276 | as intended, the batch path always stores a value, `-1` exactly for no topic |
| Other.BatchAndChatLabels | other.py:266-332 | as written, no topic is `NULL` in the batch path but `-1` in the chat path; corrected, the two agree on no topic and every path agrees on topics 1..17 |
| Other.UpdateDatabase | other.py:266-282 | writes the corrected label to `other_id` of the result's segment; an unknown id changes no row; no other column changes |
| Topics.RemovalIds | topics.py:272 | the set of removal ids: every removal's id and nothing else |
| Topics.InRange | topics.py:275-280 | the removal ids that name a 1-based position of the current list |
| Topics.KeptLength | topics.py:275-280 | each in-range removal id drops exactly one topic, the others none |
| Topics.KeptIgnoresOutOfRange | topics.py:275-280 | removal ids outside 1..n have no effect on the kept topics |
| Topics.KeptFromCurrent | topics.py:275-280 | the kept topics are a sub-multiset of the current list: nothing is invented or duplicated |
| Topics.AddedTopics | topics.py:283-285 | one topic per addition, in order, with its title and description |
| Topics.NextListLength | topics.py:267-291 | the new list has the current length, minus the in-range removals, plus the additions |
| Topics.PyIndex | topics.py:216 | a Python index into a list of length n is valid exactly in -n..n-1, negatives counting from the end |
| Topics.LastN | topics.py:428 | `TOPICS[-N_SAMPLES:]` is the last ten lists, or all of them when there are fewer |
| Topics.Numbered | topics.py:214-217 | one `i: title — description` line per topic, numbered from the start given |
| Topics.EventLines | topics.py:211-213 | one `• date: description` line per event, in order |
| Topics.FinalBlocks | topics.py:228-235 | one block per candidate list, headed `Topics i:` from 1, over that list numbered from 1 |
| Topics.GetFinalPrompt | topics.py:221-236 | the final prompt starts with the events text |
| Topics.FirstDigitRun | topics.py:369 | no number exactly when the reply has no ASCII digit (the `AttributeError` of `None.group()`) |
| Topics.DigitRunLength | topics.py:369 | `\d+` matches the longest run of ASCII digits at that point |
| Topics.FirstDigitRunFinds | topics.py:369 | a number preceded by text without ASCII digits and not followed by one is read back exactly |
| Topics.LeadingParsed | topics.py:399-415 | how many replies, from the first, parsed |
| Topics.RunOutcome | topics.py:397-428 | with every reply parsed the history ends with 46 lists; a chat error ends `main` at that iteration; an unparsable reply leaves the history one short, so the next prompt raises `IndexError`, unless it was the last iteration |
| Topics.TopicHistory.constructor | topics.py:38-121 | the history starts as the one initial list |
| Topics.TopicHistory.GetPrompt | topics.py:209-218 | `IndexError` exactly for an index outside the history (negatives count from the end); otherwise the events and the list `TOPICS[iteration - 1]` numbered from 1 |
| Topics.TopicHistory.ApplyResponse | topics.py:257-291 | `ValueError` and no change unless the history has exactly `iteration` lists; otherwise the list minus the removals, plus the additions, is appended |
| Topics.TopicHistory.RunIterations | topics.py:397-425 | the loop of `main` ends with the history and outcome the specification `Run` gives |
| Topics.TopicHistory.FinalPickAsWritten | topics.py:435 | as written, the pick is `TOPICS[N_WARMUP + choice - 1]`, and fails past the end |
| Topics.TopicHistory.FinalPick | topics.py:428-435 | as intended, the pick is the list shown as `Topics {choice}`, element `choice - 1` of the last ten |
| Topics.FinalPickIsShown | topics.py:228-235 | every choice the final prompt offers picks a list, and the prompt shows that very list numbered under the heading `Topics {choice}` |
| Topics.FinalPickOffByOne | topics.py:428-435 | after a full run, choice 1 picks `TOPICS[35]`, which was not shown, and choice `c > 1` picks the list shown as `Topics {c - 1}` |
| Issues.YearsOf | issues.py:94-98 | the years listed with a title, in input order |
| Issues.FirstIndex | issues.py:94-98 | the first position holding a title, or the length when none does |
| Issues.FirstSeenSpec | issues.py:94-98 | the dict's keys are distinct, are exactly the titles present, each with at least one year, in order of first appearance |
| Issues.GroupYears | issues.py:94-98 | the loop builds the dict whose keys, in insertion order, are the distinct titles and whose values are each title's years |
| Issues.NumberField | issues.py:105 | `{i:3}` is at least three characters wide |
| Issues.NumberFieldRoundTrip | issues.py:105 | numbers below 1000 fill the field exactly, larger ones widen it, and the number reads back from the field |
| Issues.NatStrWidth | issues.py:105 | a number has at most three digits exactly when it is below 1000 |
| Issues.PreviousLines | issues.py:103-108 | one numbered line per distinct title, numbered from 1 in first-seen order, with its years joined by `, ` |
| Issues.StoryLines | issues.py:100-102 | one `date: description` line per story, in order |
| Issues.IssuesPromptShape | issues.py:109-130 | the prompt opens with the stories and question, ends with the note naming the year, and has the reuse paragraph between them exactly when there are previous issues |
| Issues.IssuesPromptShowsAll | issues.py:100-130 | the prompt shows every story and every distinct previous title's line |
| Issues.GetPromptIssues | issues.py:86-130 | the prompt the dict loop and the f-strings build is the specification `IssuesPrompt` |
| Issues.Matching | issues.py:142-159 | the entries carrying a title, in input order |
| Issues.MatchingSpec | issues.py:142-159 | the selection keeps exactly the entries with the title, and is empty exactly when no entry has it |
| Issues.MatchLines | issues.py:147-164 | one numbered line per selected entry, from 1 |
| Issues.RevisionsPrompt | issues.py:133-182 | as intended, an error exactly when the old or the new title has no entry; otherwise the prompt as written |
| Issues.UnknownTitleStillAsked | issues.py:168-172 | as written, a title with no entry still yields a prompt, with an empty block under that title; as intended it is refused |
| Issues.RevisionsPromptShowsMatches | issues.py:140-182 | the revision prompt lists every entry under the old title and under the new one |
| Issues.CauseOf | issues.py:314-318 | a missing reply is the `ValueError` of no response, a raising chat propagates |
| Issues.NewRows | issues.py:331-338 | one row per issue, in response order, with the year, title and description |
| Issues.Renamed | issues.py:393-402 | every row with the old title, of any year, takes the new title (`NULL` when none came back); every other row and every year and description stays |
| Issues.ReviseSpec | issues.py:349-410 | with either version of the revision prompt, revisions keep every row with its year and description, append at most one request per revision after those sent, and change nothing when none is approved |
| Issues.ReviseUnknownSkipped | issues.py:355-364 | as intended, revisions that each name a title with no previous entry are skipped: nothing sent, nothing changed |
| Issues.ReviseVersionsAgree | issues.py:168-172 | where every revision names two titles with previous entries, the loop as written and the loop as intended do the same |
| Issues.ReviseAsWrittenSendsEach | issues.py:349-373 | as written, every revision is sent with its prompt, in order, up to the first failing reply; the loop fails exactly when some reply does |
| Issues.NewTitleRevisionVersionsDiffer | issues.py:349-402 | a revision from "The War in Iraq" to this year's new "The Iraq War" is sent and, approved, renames the earlier row as written, and fails the year on a missing reply; as intended it is skipped |
| Issues.GenerateEarlyExit | issues.py:290-295 | a year already present returns at once, sending nothing and changing nothing, and only such a year does |
| Issues.GenerateRequests | issues.py:297-385 | a new year sends the issues prompt first and at most one revision request per revision after it; as written, a generated year sent exactly one per revision |
| Issues.GenerateRows | issues.py:306-413 | with either version of the revision prompt, a failure leaves the table as it was (the connection rolls back); success adds one row per issue with the year and description, and without an approved revision exactly the inserted rows |
| Issues.GenerateTwice | issues.py:290-413 | a year generated with at least one issue is an early exit the next time |
| Issues.IssuesTable.GenerateIssues | issues.py:282-417 | the table and requests after `generate_issues` are those the specification `Generate` gives for the code as written |
| Issues.IssuesTable.InsertIssues | issues.py:331-338 | the `INSERT` loop appends the new rows in order |
| Issues.IssuesTable.ApplyRevisions | issues.py:349-410 | the revision loop sends every revision and applies the approved ones as the specification `Revise` says for the code as written, stopping at the first failure |
| FineTune.SegmentBlockShape | fine_tune_events.py:65-70 | every segment block opens with `({id}) ` and closes with the delimiter line |
| FineTune.SegmentBlocks | fine_tune_events.py:65-70 | one block per segment row, in row order |
| FineTune.GetPrompt | fine_tune_events.py:55-79 | `KeyError` exactly for a year whose issues are not loaded; otherwise the prompt from the topic lines, that year's issue lines and the segment blocks |
| FineTune.PromptSections | fine_tune_events.py:72-79 | the headers `Topics:`, `Issues:` and `News Segments:` come in that order, each where the previous listing ends, and the segment blocks close the prompt |
| FineTune.PromptShowsSegments | fine_tune_events.py:65-79 | the prompt shows every segment block |
| FineTune.JsonInt | fine_tune_events.py:136-146 | a label dumps as `null` exactly when the column is `NULL` |
| FineTune.LabelObjects | fine_tune_events.py:137-145 | one label object per segment row |
| FineTune.LabelsInOrder | fine_tune_events.py:136-146 | the answer lists the labels in row order: the labels of two runs of rows are the first run's, then the second's, in one list |
| FineTune.LabelsShowAll | fine_tune_events.py:136-146 | the answer shows every row's `{id, issue, topic, hard_news}` object |
| FineTune.Payload.Messages | fine_tune_events.py:130-149 | exactly three turns: system with the system message, user with the prompt, assistant with the labels |
| FineTune.GenerateJsonl | fine_tune_events.py:114-151 | `KeyError` exactly for a year without issues; otherwise the prompt of the rows and the labels of the same rows |
| FineTune.SplitPoint | fine_tune_events.py:181 | `int(split * n)` is at most `n`, within one below `split * n`, and `n` for a split of 1 |
| FineTune.SplitEntries | fine_tune_events.py:168-183 | a split outside (0, 1] is refused, and so is a file with a line `json.loads` rejects; otherwise the training and testing groups together are the file's parsed lines in order, the training part of the split-point length |
| FineTune.WriteLines | fine_tune_events.py:190-200 | one payload per group in order, each the `generate_jsonl` of its rows and year, stopping at the first group whose year has no issues with that `KeyError` |
| Qualtrics.BuildChoices | qualtrics.py:452-461 | the choice ids are "1" to "n+1" in order, id `i` shows the `i`-th title and id n+1 the closing "none of these" choice, and there is no other choice |
| Qualtrics.ChoiceIdsDistinct | qualtrics.py:452-461 | no choice id is listed twice |
| Qualtrics.ChoiceAnswer | qualtrics.py:452-461 | every recorded answer is a choice id that reads back as a number in 1..n+1 naming the title at that position, or the closing choice |
| Qualtrics.AddSegmentBlock | qualtrics.py:354-669 | eight questions in order (abstract, hard or soft news forced, topics, primary topic forced, secondary topic optional, issues, primary issue forced, secondary issue optional) with their export tags and choice lists, then a quota of ten for the block; a year without issues raises after the topic questions, with five questions posted and no quota |
| Qualtrics.FlowIdOfBlockId | qualtrics.py:689 | a block id `BL_x` gets the flow id `FL_x` |
| Qualtrics.FlowIdsDistinct | qualtrics.py:689 | distinct block ids get distinct flow ids |
| Qualtrics.RandomizerFlow | qualtrics.py:684-692 | one block entry per segment block, in order, with its flow id |
| Qualtrics.SetupSurveyFlow | qualtrics.py:671-751 | consent block, a branch ending the survey without consent, instructions, then a randomizer showing three of the segment blocks evenly; `Count` is the number of flow elements, nested ones included, `5 + n` |
| Qualtrics.SampleSize | qualtrics.py:166-167 | at most 100 segments and at most those available, one of the two |
| Qualtrics.SampleSegments | qualtrics.py:166-167 | above 100 segments the ones at the drawn positions, otherwise all of them in order |
| Qualtrics.SampleDistinct | qualtrics.py:166-167 | the drawn positions are distinct, so no segment is shown twice |
| Qualtrics.Participants | qualtrics.py:206 | the recruits are ten more than the classifications shared out at three segments each, rounded down |
| Qualtrics.ParticipantsSuffice | qualtrics.py:206 | the recruits see enough segments for every one to be classified ten times, and at most 343 are asked for |
| Qualtrics.CreateSurvey | qualtrics.py:149-209 | block `i` holds the questions of segment `i` (its export tags, the topic list, and the issue list of its year) and quota `i` belongs to block `i`, then the flow over all blocks; the first segment whose year has no issues ends the run with its five-question block last and no flow |
| Qualtrics.DeleteSurvey | qualtrics.py:114-147 | no request and `False` unless the stripped input matches the confirmation; otherwise one `DELETE` of the survey's URL, `True` on success, `False` on an HTTP error, and any other failure propagates |
| Qualtrics.CmdDeleteAsWritten | qualtrics.py:798-801 | as written, the `delete` subcommand raises `TypeError` at the call, whatever `--confirm`, the typed line and the response: nothing is sent |
| Qualtrics.CmdDelete | qualtrics.py:798-801 | as intended, the subcommand runs `delete_survey`: one `DELETE` exactly when the stripped line matches, success exactly when it matches and the request succeeds |
| Qualtrics.CmdDeleteDiscrepancy | qualtrics.py:801 | with the confirmation typed exactly and a successful response, the subcommand as written deletes nothing while the intended call deletes the survey |
| Qualtrics.PaddedConfirmationAccepted | qualtrics.py:130-132 | the confirmation is accepted with any whitespace typed around it |
| Qualtrics.AcceptedIsPaddedConfirmation | qualtrics.py:130-132 | an accepted line is the confirmation with only whitespace around it |

## Left out

- Concurrency is not modelled. That covers `asyncio` tasks and `gather`, the per-script `SEMAPHORE`s, the `async with pool` semaphore of the adapters, and the blocking of `asyncio.Queue`. Every operation is one sequential step, so `get` on an empty pool hands out nothing instead of waiting, and `put` into a full pool is a precondition.
- The leaky-bucket timing of `aiolimiter.AsyncLimiter` is not modelled, so a limiter only records the amounts acquired from it.
- `random.uniform` jitter and the real `asyncio.sleep` are not modelled; the waits are the integers `w0`, `2*w0`, `4*w0`.
- SDK clients and HTTP are not modelled: boto3/aiobotocore, the `openai` and `anthropic` SDKs, S3 uploads, Bedrock batch jobs and the Qualtrics REST calls. Their outcomes are inputs and their ids parameters. `start_bedrock_batch_job` and the file iteration of `process_results` are I/O only and left out.
- SQLite queries are not modelled: their results are given as sequences of rows. `SELECT` without `ORDER BY` has no defined order, and the model takes whatever order it is given. Only the writes are modelled: the `segments` columns, the `events` rows and the `issues` rows.
- Library text handling is not modelled:
  - the regular-expression extraction of `{...}` from a reply;
  - pydantic `parse_raw` (a reply is given as parsed or as its failure);
  - `json.dumps` of whole payloads;
  - the jinja and markdown templates that render the survey questions' HTML, which are left out of `Qualtrics.Question`.
- The `dedent(prompt).strip()` of the events prompt and the `dedent` of the issues prompt are not modelled. Both prompts start at column 0 and end in a non-whitespace character, so the only effect is to empty lines of an abstract that hold nothing but whitespace.
- `tiktoken` is not modelled: the encoded length is the function parameter `encodedLen`.
- Float arithmetic is not modelled:
  - prices are scaled by 4 to integers, since every price is a multiple of 0.25;
  - `calculate_cost` returns an exact real and its `:.2f` formatting is left out;
  - `split * len` is computed on exact reals.
- `random.shuffle` of the new topic list is not modelled. `Topics.TopicHistory.ApplyResponse` states the list before the shuffle, which is the same multiset.
- `random.sample` and `ORDER BY RANDOM()` are parameters: the drawn positions and the rows.
- The random confirmation of `delete_survey` and the typed line are parameters.
- `Utils.Strptime` models only the `%Y-%m-%d` format. Python's `\d` also accepts non-ASCII digits, but such bytes never get past the ASCII decoding of `convert_date`.
- Logging and `print` are not modelled, including the sampling message at `qualtrics.py:168-170`, which reports the sample size as the number available.
- argparse, the `main` function, the `cmd_*` functions other than `cmd_delete`, `list_surveys`, `get_events`, `get_segment`, `get_top_stories` and the `print_*` helpers are not modelled: they are glue, queries or display.
- `embed.py`, `viewer.py` and `_ratelimiters.py` are not part of this model.
- Topics.GetFinalPrompt: states only that the prompt starts with the events text. Its blocks are stated by `Topics.FinalBlocks` and `Topics.FinalPickIsShown`.
- Topics.FirstDigitRun: the source raises `AttributeError` when the reply has no digit. The model returns `None` for that case. Only ASCII digits are read: `\d` also matches other Unicode decimal digits, which are not modelled.
- Topics.DigitRunLength: the run is of ASCII digits only; `\d+` would continue through other Unicode decimal digits, which are not modelled.
- Topics.FirstDigitRunFinds: "preceded by no digit" means no ASCII digit; a Unicode decimal digit before the number would be read by the source instead, and is not modelled.
- Batch.ParseRecordId: only ASCII digits are read. Python's `int` also accepts a sign, surrounding whitespace, underscores between digits and other Unicode decimal digits; none of these is modelled, since the script writes every record id itself as ASCII digits (`Batch.RecordId`).

## Findings

| source | as written | input that shows it | evidently intended | confidence | as-written member | corrected member |
|---|---|---|---|---|---|---|
| topics.py:435 | the final list is `TOPICS[N_WARMUP + choice - 1]` | a full run (46 lists) and the reply choice 1: it inserts `TOPICS[35]`, which the final prompt never showed; choice 2 inserts the list shown as `Topics 1` | the list shown as `Topics {choice}`, `TOPICS[-N_SAMPLES:][choice - 1]` | high, not executed | Topics.TopicHistory.FinalPickAsWritten, Topics.FinalPickOffByOne | Topics.TopicHistory.FinalPick, Topics.FinalPickIsShown |
| other.py:115 | the batch result is re-prefixed with `{` only | any result line: the request prefilled `{"explanation": "`, so the text parsed is `{` followed by the explanation's characters, which is not the object the model wrote | re-prefix the whole prefill, as `classify.py:333-336` does | high, not executed | Other.ReadOtherAsWritten, Other.ReadOtherAsWrittenLosesKey | Other.ReadOtherCompletesPrefix |
| other.py:269-275 | the batch path stores the parsed topic as is | a result without a topic leaves `other_id` `NULL`, so the segment is selected again by `other_id IS NULL`, where the chat path stores `-1` | store `-1` for no topic, as the chat path and `classify.py:466-468` do | medium, not executed | Other.BatchLabelAsWritten, Other.BatchAndChatLabels | Other.BatchLabel, Other.UpdateDatabase |
| issues.py:168-172 | the `ValueError` is created but not raised | a revision whose old or new title has no previous issue, such as "The War in Iraq" to this year's new "The Iraq War": a revision request is still sent, with an empty list under that title, an approval renames the earlier rows, and the skip handler at `issues.py:362-364` is unreachable | raise, so that the revision is skipped | high, not executed | Issues.RevisionsPromptAsWritten, Issues.UnknownTitleStillAsked, Issues.ReviseAsWrittenSendsEach, Issues.NewTitleRevisionVersionsDiffer, Issues.IssuesTable.ApplyRevisions | Issues.RevisionsPrompt, Issues.ReviseUnknownSkipped, Issues.ReviseVersionsAgree |
| _openai.py:93-103 | the fallback to 0 rebinds the locals, but the counters add the raw fields | a completion whose `usage.completion_tokens` is `None`: `RESPONSE_TOKENS += None` raises `TypeError` after `PROMPT_TOKENS` grew, and `chat` fails after a successful reply | add the checked locals | high, not executed | OpenAiApi.UsageAsWritten, OpenAiApi.UsageCounterexample | OpenAiApi.UsageCorrected, OpenAiApi.Chat |
| qualtrics.py:801 | `cmd_delete` calls `delete_survey(args.survey_id, args.confirm)`, but `delete_survey` (`qualtrics.py:114`) takes only the survey id | any `delete` command, with or without `--confirm`: the call raises `TypeError` before the confirmation prompt, so no survey can be deleted from the command line | call `delete_survey(args.survey_id)`, which then asks for the confirmation | high, not executed | Qualtrics.CmdDeleteAsWritten, Qualtrics.CmdDeleteDiscrepancy | Qualtrics.CmdDelete |
