/** `topics.py`: the iterative refinement of the topic list. Each iteration shows the
    model the latest list, numbered from 1, and applies its reply (removals by position,
    then additions) by appending a new list to the global history `TOPICS`; the final
    prompt shows the last `N_SAMPLES` lists and the model picks one. */
module Topics {

  import opened Wrappers
  import opened Text

  const NWarmup: nat := 35
  const NSamples: nat := 10
  const NTotal: nat := NWarmup + NSamples + 1

  datatype Topic = Topic(title: string, description: string)

  datatype Removal = Removal(id: int, title: string)
  datatype Addition = Addition(title: string, description: string)

  /** The parsed reply of one iteration. */
  datatype Response = Response(explanation: string, removals: seq<Removal>, additions: seq<Addition>)

  /** A row of the random event sample the prompts show. */
  datatype EventLine = EventLine(date: string, description: string)

  /** `{r.id for r in response.removals}`. */
  function RemovalIds(removals: seq<Removal>): (ids: set<int>)
    ensures forall k :: 0 <= k < |removals| ==> removals[k].id in ids
    ensures forall id :: id in ids ==> exists k :: 0 <= k < |removals| && removals[k].id == id
  {
    KeySet((r: Removal) => r.id, removals)
  }

  /** The topics whose 1-based position is not in `removals`, in order. */
  function Kept(current: seq<Topic>, removals: set<int>): seq<Topic>
    decreases |current|
  {
    if current == [] then []
    else Kept(current[..|current| - 1], removals) + (if |current| in removals then [] else [current[|current| - 1]])
  }

  /** The removal ids that name a position of a list of length `n`. */
  function InRange(removals: set<int>, n: nat): (r: set<int>)
    ensures forall i :: i in r <==> i in removals && 1 <= i <= n
  {
    set i | i in removals && 1 <= i <= n
  }

  /** Each removal id that names a position removes exactly one topic; the others do nothing. */
  lemma {:induction false} KeptLength(current: seq<Topic>, removals: set<int>)
    ensures |Kept(current, removals)| == |current| - |InRange(removals, |current|)|
    decreases |current|
  {
    var n := |current|;
    if n > 0 {
      KeptLength(current[..n - 1], removals);
      if n in removals {
        assert InRange(removals, n) == InRange(removals, n - 1) + {n};
      } else {
        assert InRange(removals, n) == InRange(removals, n - 1);
      }
    } else {
      assert InRange(removals, 0) == {};
    }
  }

  /** Out-of-range removal ids have no effect. */
  lemma {:induction false} KeptIgnoresOutOfRange(current: seq<Topic>, removals: set<int>, other: set<int>)
    requires InRange(removals, |current|) == InRange(other, |current|)
    ensures Kept(current, removals) == Kept(current, other)
    decreases |current|
  {
    var n := |current|;
    if n > 0 {
      assert InRange(removals, n - 1) == InRange(other, n - 1);
      KeptIgnoresOutOfRange(current[..n - 1], removals, other);
      assert n in removals <==> n in InRange(removals, n);
    }
  }

  /** Every kept topic is one of the current ones, the one at that position. */
  lemma {:induction false} KeptFromCurrent(current: seq<Topic>, removals: set<int>)
    ensures multiset(Kept(current, removals)) <= multiset(current)
    decreases |current|
  {
    var n := |current|;
    if n > 0 {
      KeptFromCurrent(current[..n - 1], removals);
      assert current == current[..n - 1] + [current[n - 1]];
    }
  }

  function AddedTopics(additions: seq<Addition>): (r: seq<Topic>)
    ensures |r| == |additions|
    ensures forall k :: 0 <= k < |r| ==> r[k] == Topic(additions[k].title, additions[k].description)
  {
    if additions == [] then []
    else AddedTopics(additions[..|additions| - 1]) + [Topic(additions[|additions| - 1].title, additions[|additions| - 1].description)]
  }

  /** The list a reply turns `current` into, before the shuffle. */
  function NextList(current: seq<Topic>, response: Response): seq<Topic> {
    Kept(current, RemovalIds(response.removals)) + AddedTopics(response.additions)
  }

  /** New length = current length - in-range removal ids + additions. */
  lemma NextListLength(current: seq<Topic>, response: Response)
    ensures |NextList(current, response)|
         == |current| - |InRange(RemovalIds(response.removals), |current|)| + |response.additions|
  {
    KeptLength(current, RemovalIds(response.removals));
  }

  /** A Python index `i` into a list of length `n`: negative indices count from the end. */
  function PyIndex(n: nat, i: int): (r: Option<nat>)
    ensures r.Some? ==> r.value < n
    ensures r.Some? <==> -(n as int) <= i < n
  {
    if 0 <= i < n then Some(i) else if -(n as int) <= i < 0 then Some(n + i) else None
  }

  /** `seq[-k:]`: the last `k` elements, or all of them when there are fewer. */
  function LastN<T>(s: seq<T>, k: nat): (r: seq<T>)
    ensures |r| == if |s| < k then |s| else k
    ensures r == s[|s| - |r|..]
  {
    if |s| < k then s else s[|s| - k..]
  }

  /** `f"{i}: {title} — {description}"` for each topic, `i` counting from `start`. */
  function Numbered(topics: seq<Topic>, start: nat): (lines: seq<string>)
    ensures |lines| == |topics|
    ensures forall k :: 0 <= k < |topics| ==>
      lines[k] == NatStr(start + k) + ": " + topics[k].title + " \U{2014} " + topics[k].description
    decreases |topics|
  {
    if topics == [] then []
    else [NatStr(start) + ": " + topics[0].title + " \U{2014} " + topics[0].description] + Numbered(topics[1..], start + 1)
  }

  function EventsText(events: seq<EventLine>): string {
    "Here are 500 events from the news:\n" + Join("\n", EventLines(events))
  }

  function EventLines(events: seq<EventLine>): (lines: seq<string>)
    ensures |lines| == |events|
    ensures forall k :: 0 <= k < |events| ==> lines[k] == "\U{2022} " + events[k].date + ": " + events[k].description
  {
    if events == [] then []
    else ["\U{2022} " + events[0].date + ": " + events[0].description] + EventLines(events[1..])
  }

  /** One block of the final prompt: `Topics {i}:` over the numbered list. */
  function FinalBlocks(lists: seq<seq<Topic>>, start: nat): (blocks: seq<string>)
    ensures |blocks| == |lists|
    ensures forall k :: 0 <= k < |lists| ==>
      blocks[k] == "Topics " + NatStr(start + k) + ":\n" + Join("\n", Numbered(lists[k], 1))
    decreases |lists|
  {
    if lists == [] then []
    else ["Topics " + NatStr(start) + ":\n" + Join("\n", Numbered(lists[0], 1))] + FinalBlocks(lists[1..], start + 1)
  }

  /** `get_final_prompt`: the events, then the candidate lists headed `Topics 1`,
      `Topics 2`, ... in order, separated by blank lines. */
  function GetFinalPrompt(events: seq<EventLine>, lists: seq<seq<Topic>>): (prompt: string)
    ensures |prompt| >= |EventsText(events)| + 2 && prompt[..|EventsText(events)|] == EventsText(events)
  {
    EventsText(events) + "\n\n" + Join("\n\n", FinalBlocks(lists, 1))
  }

  /** `re.search(r"\d+", reply).group()` then `int(...)`: the value of the first run of
      digits; `None` when there is no digit (the source then fails with
      `AttributeError`). */
  function FirstDigitRun(s: string): (r: Option<nat>)
    ensures r.None? <==> forall k :: 0 <= k < |s| ==> !IsDigit(s[k])
    decreases |s|
  {
    if s == [] then None
    else if IsDigit(s[0]) then Some(DigitsValue(s[..DigitRunLength(s)]))
    else FirstDigitRun(s[1..])
  }

  /** The length of the run of digits `s` starts with. */
  function DigitRunLength(s: string): (n: nat)
    ensures n <= |s| && AllDigits(s[..n]) && (n == |s| || !IsDigit(s[n]))
  {
    if s == [] || !IsDigit(s[0]) then 0
    else
      var n := DigitRunLength(s[1..]);
      assert s[..n + 1] == [s[0]] + s[1..][..n];
      n + 1
  }

  /** The number in a reply is found whatever text without digits precedes it, provided
      no digit follows it directly: a reply `{"choice": 7}` gives 7. */
  lemma FirstDigitRunFinds(before: string, n: nat, after: string)
    requires forall k :: 0 <= k < |before| ==> !IsDigit(before[k])
    requires after == [] || !IsDigit(after[0])
    ensures FirstDigitRun(before + NatStr(n) + after) == Some(n)
  {
    FirstDigitRunFindsRun(before, NatStr(n), after);
    DigitsValueOfNatStr(n);
  }

  lemma FirstDigitRunFindsRun(before: string, d: string, after: string)
    requires forall k :: 0 <= k < |before| ==> !IsDigit(before[k])
    requires d != [] && AllDigits(d) && (after == [] || !IsDigit(after[0]))
    ensures FirstDigitRun(before + d + after) == Some(DigitsValue(d))
  {
    var rest := d + after;
    assert rest[0] == d[0];
    FirstDigitRunSkips(before, rest);
    FirstDigitRunOfRun(d, after);
    assert before + d + after == before + rest;
  }

  /** A string that starts with a run of digits gives that run's value. */
  lemma FirstDigitRunOfRun(d: string, after: string)
    requires d != [] && AllDigits(d) && (after == [] || !IsDigit(after[0]))
    ensures FirstDigitRun(d + after) == Some(DigitsValue(d))
  {
    RunOfNatStr(d, after);
    assert (d + after)[0] == d[0];
  }

  /** Text without digits in front of a string that starts with a digit is skipped. */
  lemma {:induction false} FirstDigitRunSkips(before: string, rest: string)
    requires forall k :: 0 <= k < |before| ==> !IsDigit(before[k])
    requires rest != [] && IsDigit(rest[0])
    ensures FirstDigitRun(before + rest) == FirstDigitRun(rest)
    decreases |before|
  {
    if before != [] {
      assert (before + rest)[0] == before[0];
      assert (before + rest)[1..] == before[1..] + rest;
      FirstDigitRunSkips(before[1..], rest);
    } else {
      assert before + rest == rest;
    }
  }

  lemma {:induction false} RunOfNatStr(d: string, after: string)
    requires d != [] && AllDigits(d) && (after == [] || !IsDigit(after[0]))
    ensures DigitRunLength(d + after) == |d| && (d + after)[..|d|] == d
    decreases |d|
  {
    if |d| > 1 {
      assert (d + after)[1..] == d[1..] + after;
      RunOfNatStr(d[1..], after);
    } else {
      assert (d + after)[1..] == after;
    }
  }

  /** How one iteration of `main` went. */
  datatype Reply =
    | Parsed(response: Response)  // `get_topics` returned a parsed reply
    | Unparsable                  // no reply, or one `Response.parse_raw` rejects: a `ValueError`, logged
    | ChatFailed                  // the chat raised `RuntimeError`: not caught, `main` ends

  datatype MainOutcome = Completed | Crashed(iteration: nat, error: string)

  /** The specification of the `while iteration < N_TOTAL` loop from `iteration` on, with
      the history `lists`: the prompt reads `TOPICS[iteration - 1]` (an `IndexError`,
      which nothing catches, when the history is shorter), then the reply is applied,
      which raises a caught `ValueError` unless the history has exactly `iteration` lists. */
  function Run(lists: seq<seq<Topic>>, replies: seq<Reply>, iteration: nat): (seq<seq<Topic>>, MainOutcome)
    requires iteration >= 1 && |replies| == NTotal - 1
    decreases NTotal - iteration
  {
    if iteration >= NTotal then (lists, Completed)
    else if iteration > |lists| then (lists, Crashed(iteration, "IndexError"))
    else match replies[iteration - 1]
      case ChatFailed => (lists, Crashed(iteration, "RuntimeError"))
      case Unparsable => Run(lists, replies, iteration + 1)
      case Parsed(r) =>
        if |lists| == iteration then Run(lists + [NextList(lists[iteration - 1], r)], replies, iteration + 1)
        else Run(lists, replies, iteration + 1)
  }

  /** The number of replies, from the first, that parsed. */
  function LeadingParsed(replies: seq<Reply>): (n: nat)
    ensures n <= |replies| && forall k :: 0 <= k < n ==> replies[k].Parsed?
    ensures n < |replies| ==> !replies[n].Parsed?
  {
    if replies == [] || !replies[0].Parsed? then 0 else 1 + LeadingParsed(replies[1..])
  }

  /** What a run of `main` comes to. With every reply parsed, the history ends with
      `N_TOTAL` lists. The first reply that fails decides the rest: a chat error ends
      `main` at once; an unparsable reply leaves the history one list short, so the next
      iteration's prompt fails with `IndexError` (and `apply_response`'s own length check
      never fires). Only when the last iteration's reply is unparsable does the loop end
      normally, one list short. */
  lemma {:induction false} RunOutcome(lists: seq<seq<Topic>>, replies: seq<Reply>, iteration: nat)
    requires 1 <= iteration <= NTotal && |replies| == NTotal - 1
    requires |lists| == iteration
    requires LeadingParsed(replies) >= iteration - 1
    ensures var (final, outcome) := Run(lists, replies, iteration);
      var p := LeadingParsed(replies);
      && |final| >= |lists| && final[..|lists|] == lists
      && (p == NTotal - 1 ==> outcome == Completed && |final| == NTotal)
      && (p < NTotal - 1 && replies[p].ChatFailed? ==> outcome == Crashed(p + 1, "RuntimeError") && |final| == p + 1)
      && (p < NTotal - 2 && replies[p].Unparsable? ==> outcome == Crashed(p + 2, "IndexError") && |final| == p + 1)
      && (p == NTotal - 2 && replies[p].Unparsable? ==> outcome == Completed && |final| == NTotal - 1)
    decreases NTotal - iteration
  {
    var p := LeadingParsed(replies);
    if iteration < NTotal {
      var next := iteration + 1;
      match replies[iteration - 1] {
        case Parsed(r) =>
          var grown := lists + [NextList(lists[iteration - 1], r)];
          RunOutcome(grown, replies, next);
          assert grown[..|lists|] == lists;
        case Unparsable =>
          assert p == iteration - 1;
          if next < NTotal {
            assert Run(lists, replies, next) == (lists, Crashed(next, "IndexError"));
          }
        case ChatFailed =>
          assert p == iteration - 1;
      }
    }
  }

  /** The global `TOPICS`: the history of topic lists, the first one given. */
  class TopicHistory {
    var lists: seq<seq<Topic>>

    constructor (initial: seq<Topic>)
      ensures lists == [initial]
    {
      lists := [initial];
    }

    /** `get_prompt(iteration, events)`: the events, then the topics of
        `TOPICS[iteration - 1]` numbered from 1. `None` is the `IndexError` of an index
        outside the history. */
    function GetPrompt(iteration: int, events: seq<EventLine>): (r: Option<string>)
      reads this
      ensures r.Some? <==> -|lists| <= iteration - 1 < |lists|
      ensures r.Some? ==> var topics := lists[PyIndex(|lists|, iteration - 1).value];
        r.value == EventsText(events) + "\n\nHere are the current topics:\n" + Join("\n", Numbered(topics, 1))
    {
      match PyIndex(|lists|, iteration - 1)
      case None => None
      case Some(i) =>
        Some(EventsText(events) + "\n\nHere are the current topics:\n" + Join("\n", Numbered(lists[i], 1)))
    }

    /** `apply_response(response, iteration)`: `ValueError` unless the history has exactly
        `iteration` lists; otherwise the list at `iteration` (1-based) minus the removals,
        plus the additions, is appended. The shuffle is not modelled. */
    method ApplyResponse(response: Response, iteration: int) returns (r: Result<(), string>)
      requires lists != []
      modifies this
      ensures |old(lists)| != iteration ==> r == Err("Length of TOPICS is incorrect") && lists == old(lists)
      ensures |old(lists)| == iteration ==>
        r.Ok? && lists == old(lists) + [NextList(old(lists)[iteration - 1], response)]
    {
      if |lists| != iteration {
        return Err("Length of TOPICS is incorrect");
      }
      var current := lists[iteration - 1];
      var removalIds := RemovalIds(response.removals);
      var topics: seq<Topic> := [];
      for i := 1 to |current| + 1
        invariant topics == Kept(current[..i - 1], removalIds)
      {
        assert current[..i][..i - 1] == current[..i - 1];
        if i !in removalIds {
          topics := topics + [current[i - 1]];
        }
      }
      assert current[..|current|] == current;
      for k := 0 to |response.additions|
        invariant topics == Kept(current, removalIds) + AddedTopics(response.additions[..k])
      {
        assert response.additions[..k + 1][..k] == response.additions[..k];
        topics := topics + [Topic(response.additions[k].title, response.additions[k].description)];
      }
      assert response.additions[..|response.additions|] == response.additions;
      lists := lists + [topics];
      r := Ok(());
    }

    /** The iteration loop of `main`, with the replies of its 45 iterations given. */
    method RunIterations(replies: seq<Reply>) returns (outcome: MainOutcome)
      requires |lists| == 1 && |replies| == NTotal - 1
      modifies this
      ensures (lists, outcome) == Run(old(lists), replies, 1)
    {
      var iteration := 1;
      while iteration < NTotal
        invariant 1 <= iteration <= NTotal && lists != []
        invariant Run(lists, replies, iteration) == Run(old(lists), replies, 1)
        decreases NTotal - iteration
      {
        if iteration > |lists| {
          return Crashed(iteration, "IndexError");
        }
        match replies[iteration - 1] {
          case ChatFailed =>
            return Crashed(iteration, "RuntimeError");
          case Unparsable =>
          case Parsed(response) =>
            var applied := ApplyResponse(response, iteration);
        }
        iteration := iteration + 1;
      }
      outcome := Completed;
    }

    /** The final pick as written: `TOPICS[N_WARMUP + choice - 1]`, `None` being the
        `IndexError` of a choice past the end. */
    function FinalPickAsWritten(choice: nat): (r: Option<seq<Topic>>)
      reads this
      ensures r.Some? <==> NWarmup + choice - 1 < |lists|
    {
      if NWarmup + choice - 1 < |lists| then Some(lists[NWarmup + choice - 1]) else None
    }

    /** The final pick as the prompt presents it: the list shown under `Topics {choice}`,
        that is element `choice - 1` of `TOPICS[-N_SAMPLES:]`. */
    function FinalPick(choice: nat): (r: Option<seq<Topic>>)
      reads this
      ensures r.Some? <==> 1 <= choice <= |LastN(lists, NSamples)|
      ensures r.Some? ==> r.value == LastN(lists, NSamples)[choice - 1]
    {
      var shown := LastN(lists, NSamples);
      if 1 <= choice <= |shown| then Some(shown[choice - 1]) else None
    }
  }

  /** Every choice the final prompt offers picks a list, and the final prompt shows that
      very list numbered under the heading `Topics {choice}`. */
  lemma FinalPickIsShown(h: TopicHistory, events: seq<EventLine>, choice: nat)
    requires 1 <= choice <= |LastN(h.lists, NSamples)|
    ensures h.FinalPick(choice).Some?
    ensures Contains(GetFinalPrompt(events, LastN(h.lists, NSamples)),
                     "Topics " + NatStr(choice) + ":\n" + Join("\n", Numbered(h.FinalPick(choice).value, 1)))
  {
    var blocks := FinalBlocks(LastN(h.lists, NSamples), 1);
    JoinContains("\n\n", blocks, choice - 1);
    ContainsInConcat(EventsText(events) + "\n\n", Join("\n\n", blocks), blocks[choice - 1]);
  }

  /** After a full run (`N_TOTAL` = 46 lists), the as-written index is one short of the
      list shown as `Topics {choice}`: choice 1 picks `TOPICS[35]`, a list that was not
      shown at all, and choice `c > 1` picks the one shown as `Topics {c - 1}`. */
  lemma FinalPickOffByOne(h: TopicHistory, choice: nat)
    requires |h.lists| == NTotal && 1 <= choice <= NSamples
    ensures h.FinalPick(choice) == Some(h.lists[NWarmup + choice])
    ensures choice == 1 ==> h.FinalPickAsWritten(choice) == Some(h.lists[NWarmup])
    ensures NWarmup < |h.lists| - |LastN(h.lists, NSamples)|
    ensures choice > 1 ==> h.FinalPickAsWritten(choice) == h.FinalPick(choice - 1)
  {
  }
}
