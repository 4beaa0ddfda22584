/** `issues.py`: generating each year's list of important issues from that year's top
    stories, with the previous years' issues offered for reuse, and merging issue titles
    across years through revision requests the model approves or rejects. */
module Issues {

  import opened Wrappers
  import opened Text
  import opened Utils
  import opened Scripts

  const SystemMessageIssues: string := "You summarize important issues people would think are important national problems based\non what was in the news. You respond with a JSON object as follows:\n```json\n{\n    \"issues\": [{\"title\": str, \"description\": str}, ...],\n    \"revisions\": [{\"old_title\": str, \"new_title\": str}, ...]\n}\n```\nThe string in the `title` field is a short title for the issue (e.g., \"Stagflation\" or\n\"The Iraq War\") and the string in the `description` field should be a brief (but\naccurate) one-sentence summary of the issue.\n\nIt is *very* important that the titles of issues maintain continuity across years (even\nthough the descriptions may change), so if they are available, you will be provided with\nissues from the previous year to use as a reference. You should not, e.g., write \"The\nWar in Iraq\" in one year and \"The Iraq War\" in another year.\n\nSometimes the same issue still ends up with a different title in the current and\nprevious years. When that happens, you can submit a revision object with the old title\nand the new title to ensure continuity. For example, if the issue was \"The War in Iraq\"\nlast year and \"The Iraq War\" this year, you would submit:\n```json\n{\n    \"old_title\": \"The War in Iraq\",\n    \"new_title\": \"The Iraq War\"\n}\n```\nHowever, be careful\U{2014}when you revise a title, you should make sure that the new title\nwould have been a reasonable title for the issue in the previous years as well.\n\nIf there are no revisions, do not include the `revisions` field in your response."

  const SystemMessageRevisions: string := "You are helping us build a database of issues that were important in the news each year.\nSometimes, it is necessary to revise the titles of issues to maintain continuity across\nyears. You will be presented with a proposed issue merger and asked to approve or reject\nit, based on whether you think the issues are the same or different. Your response\nshould take the form of a JSON object as follows:\n```json\n{\n    \"summary\": str,\n    \"title\": str,\n    \"approved\": bool\n}\n```\nThe key here is that your job is to ensure that:\n* The issue title makes sense for all years.\n* The issues really are the \"same.\" For example, \"The Iraq War\" and \"The War in Iraq\"\n  are the same issue, but \"The Iraq War\" and \"The Vietnam War\" are not.\n\nIf you approve the merger, set `approved` to `true`. If you reject it, set `approved`\nto `false`. If you approve the merger, the issue will be renamed to the title you\nprovide. Provide a short summary of your reasoning either way in the `summary` field."

  /** The assistant prefix of the issues request. */
  const IssuesJsonStart: string := "{\"issues\": ["

  /** The assistant prefix of a revision request. */
  const RevisionJsonStart: string := "{\"summary\": \""

  /** A row of the previous-issues query: an issue title and a year it was listed in. */
  datatype Previous = Previous(title: string, year: string)

  /** A row of the top-stories query. */
  datatype Story = Story(date: string, description: string)

  // ---------------------------------------------------------------------------------
  // Grouping previous issues by title

  /** The distinct titles of `previous`, in the order they first appear: the key order of
      the `issue_years` dict. */
  function FirstSeen(previous: seq<Previous>): (titles: seq<string>)
    decreases |previous|
  {
    if previous == [] then []
    else
      var init := FirstSeen(previous[..|previous| - 1]);
      var t := previous[|previous| - 1].title;
      if t in init then init else init + [t]
  }

  /** The years listed with title `t`, in input order: the value `issue_years[t]`. */
  function YearsOf(previous: seq<Previous>, t: string): (years: seq<string>)
    ensures |years| <= |previous|
    decreases |previous|
  {
    if previous == [] then []
    else
      var last := previous[|previous| - 1];
      YearsOf(previous[..|previous| - 1], t) + (if last.title == t then [last.year] else [])
  }

  /** The position of the first entry titled `t`, or `|previous|` when there is none. */
  function FirstIndex(previous: seq<Previous>, t: string): (i: nat)
    ensures i <= |previous|
    ensures i < |previous| ==> previous[i].title == t
    ensures forall j :: 0 <= j < i ==> previous[j].title != t
    decreases |previous|
  {
    if previous == [] then 0
    else
      var init := previous[..|previous| - 1];
      var i := FirstIndex(init, t);
      if i < |init| then i
      else if previous[|previous| - 1].title == t then |init|
      else |previous|
  }

  /** The grouped titles are distinct, are exactly the titles of `previous`, come in the
      order of their first appearance, and each has at least one year. */
  lemma {:induction false} FirstSeenSpec(previous: seq<Previous>)
    ensures var titles := FirstSeen(previous);
      && (forall a, b :: 0 <= a < b < |titles| ==> titles[a] != titles[b])
      && (forall t :: t in titles <==> FirstIndex(previous, t) < |previous|)
      && (forall t :: t in titles <==> YearsOf(previous, t) != [])
      && (forall a, b :: 0 <= a < b < |titles| ==> FirstIndex(previous, titles[a]) < FirstIndex(previous, titles[b]))
    decreases |previous|
  {
    if previous != [] {
      var init := previous[..|previous| - 1];
      var last := previous[|previous| - 1];
      FirstSeenSpec(init);
      var before := FirstSeen(init);
      var titles := FirstSeen(previous);
      forall t
        ensures t in titles <==> FirstIndex(previous, t) < |previous|
        ensures t in titles <==> YearsOf(previous, t) != []
      {
        assert YearsOf(previous, t) == YearsOf(init, t) + (if last.title == t then [last.year] else []);
      }
      forall a, b | 0 <= a < b < |titles|
        ensures FirstIndex(previous, titles[a]) < FirstIndex(previous, titles[b])
      {
        assert titles[a] in before;
        if b < |before| {
          assert titles[b] in before;
        } else {
          assert titles[b] == last.title && last.title !in before;
        }
      }
    }
  }

  /** The loop that fills `issue_years`: the dict's keys in insertion order, and the
      dict itself. */
  method GroupYears(previous: seq<Previous>) returns (order: seq<string>, years: map<string, seq<string>>)
    ensures order == FirstSeen(previous)
    ensures forall t :: t in years <==> t in order
    ensures forall t :: t in years ==> years[t] == YearsOf(previous, t)
  {
    order, years := [], map[];
    for i := 0 to |previous|
      invariant order == FirstSeen(previous[..i])
      invariant forall t :: t in years <==> t in order
      invariant forall t :: t in years ==> years[t] == YearsOf(previous[..i], t)
    {
      var entry := previous[i];
      assert previous[..i + 1][..i] == previous[..i];
      assert forall t :: YearsOf(previous[..i + 1], t) == YearsOf(previous[..i], t) + (if entry.title == t then [entry.year] else []);
      if entry.title !in years {
        FirstSeenSpec(previous[..i]);
        years := years[entry.title := []];
        order := order + [entry.title];
      }
      years := years[entry.title := years[entry.title] + [entry.year]];
    }
    assert previous[..|previous|] == previous;
  }

  // ---------------------------------------------------------------------------------
  // The issues prompt

  /** `f"{i:3}"`: an integer right-aligned in a field of three. */
  function NumberField(i: nat): (field: string)
    ensures |field| >= 3
  {
    PadLeft(NatStr(i), 3, ' ')
  }

  /** Numbers up to 999 fill the field exactly and read back; larger ones widen it. */
  lemma NumberFieldRoundTrip(i: nat)
    ensures i < 1000 ==> |NumberField(i)| == 3
    ensures i >= 1000 ==> NumberField(i) == NatStr(i)
    ensures ParseNat(StripLeft(NumberField(i))) == Some(i)
  {
    NatStrWidth(i);
    NumberFieldStrips(i);
    ParseNatStr(i);
  }

  /** The padding of the field is all that `lstrip` removes. */
  lemma NumberFieldStrips(i: nat)
    ensures StripLeft(NumberField(i)) == NatStr(i)
  {
    var s := NatStr(i);
    var field := NumberField(i);
    var k := |field| - |s|;
    assert field == field[..k] + s;
    assert !IsSpace(s[0]) by { assert IsDigit(s[0]); }
    assert forall j :: 0 <= j < k ==> field[..k][j] == ' ';
    StripLeftPadded(field[..k], s);
  }

  /** Up to three digits exactly below 1000. */
  lemma NatStrWidth(i: nat)
    ensures i < 1000 <==> |NatStr(i)| <= 3
  {
    if i >= 10 {
      assert NatStr(i) == NatStr(i / 10) + [DigitChar(i % 10)];
      if i / 10 >= 10 {
        assert NatStr(i / 10) == NatStr(i / 100) + [DigitChar((i / 10) % 10)];
      }
    }
  }

  /** One numbered line: `f"{i:3}. {title}: {rest}"`. */
  function NumberedLine(i: nat, title: string, rest: string): string {
    NumberField(i) + ". " + title + ": " + rest
  }

  /** The previous-issues listing: each title once, numbered from 1, with its years. */
  function PreviousLines(previous: seq<Previous>): (lines: seq<string>)
    ensures |lines| == |FirstSeen(previous)|
    ensures forall k :: 0 <= k < |lines| ==>
      lines[k] == NumberedLine(k + 1, FirstSeen(previous)[k], Join(", ", YearsOf(previous, FirstSeen(previous)[k])))
  {
    var titles := FirstSeen(previous);
    seq(|titles|, k requires 0 <= k < |titles| => NumberedLine(k + 1, titles[k], Join(", ", YearsOf(previous, titles[k]))))
  }

  function StoryLines(stories: seq<Story>): (lines: seq<string>)
    ensures |lines| == |stories|
    ensures forall k :: 0 <= k < |stories| ==> lines[k] == stories[k].date + ": " + stories[k].description
  {
    seq(|stories|, k requires 0 <= k < |stories| => stories[k].date + ": " + stories[k].description)
  }

  /** The question after the stories, up to the year. */
  const QuestionStart: string :=
    "Based on this list of events, what do you think were ten to fifteen most important "
    + "issues people would think are important national problems in "

  /** The question after the year. */
  const QuestionEnd: string :=
    "? Try to be specific "
    + "(\"Inflation\" rather than \"The Economy\"; \"The Vietnam War\" rather than "
    + "\"Foreign Policy\"; \"Gay Marriage\" rather than \"Social Issues\").\n"

  /** The paragraph offering previous issues, before the listing. */
  const BorrowIntro: string :=
    "You can come up with brand new issues or borrow from the most important "
    + "issues from previous years:\n"

  /** The paragraph offering previous issues, after the listing. */
  const BorrowOutro: string :=
    "\n"
    + "If you do think an issue was important for this year and a previous year, "
    + "be sure to copy the *issue* exactly. It's important that the issues "
    + "maintain continuity across years.\n"

  const NoteStart: string :=
    "NOTE: A small number of these stories may be 'hallucinated.' Please ignore "
    + "stories that are not relevant to events in "

  const NoteEnd: string := ", or occurred at a different time."

  /** The stories and the question, the part every issues prompt starts with. */
  function IssuesHead(stories: seq<Story>, year: string): string {
    Join("\n", StoryLines(stories)) + "\n" + QuestionStart + year + QuestionEnd
  }

  /** The paragraph offering the previous issues for reuse. */
  function BorrowParagraph(previous: seq<Previous>): string {
    BorrowIntro + Join("\n", PreviousLines(previous)) + BorrowOutro
  }

  /** The closing note, naming the year. */
  function HallucinationNote(year: string): string {
    NoteStart + year + NoteEnd
  }

  /** `get_prompt_issues(top_stories, previous_issues, year)`. */
  function IssuesPrompt(stories: seq<Story>, previous: seq<Previous>, year: string): string {
    IssuesHead(stories, year) + (if previous != [] then BorrowParagraph(previous) else "") + HallucinationNote(year)
  }

  /** The prompt opens with the stories, always ends with the note for the year, and has
      something between the two exactly when there are previous issues. */
  lemma IssuesPromptShape(stories: seq<Story>, previous: seq<Previous>, year: string)
    ensures var prompt := IssuesPrompt(stories, previous, year);
      var head := IssuesHead(stories, year);
      var note := HallucinationNote(year);
      && |prompt| >= |head| + |note|
      && prompt[..|head|] == head
      && prompt[|prompt| - |note|..] == note
      && (|prompt| == |head| + |note| <==> previous == [])
  {
    var head := IssuesHead(stories, year);
    var note := HallucinationNote(year);
    var prompt := IssuesPrompt(stories, previous, year);
    var middle := if previous != [] then BorrowParagraph(previous) else "";
    ConcatEnds(head, middle, note);
    if previous != [] {
      assert |BorrowIntro| > 0;
    }
  }

  /** The prompt lists every story, and every previous issue once per title. */
  lemma IssuesPromptShowsAll(stories: seq<Story>, previous: seq<Previous>, year: string)
    ensures forall k :: 0 <= k < |stories| ==> Contains(IssuesPrompt(stories, previous, year), StoryLines(stories)[k])
    ensures forall k :: 0 <= k < |FirstSeen(previous)| ==> Contains(IssuesPrompt(stories, previous, year), PreviousLines(previous)[k])
  {
    forall k | 0 <= k < |stories|
      ensures Contains(IssuesPrompt(stories, previous, year), StoryLines(stories)[k])
    {
      IssuesPromptShowsStory(stories, previous, year, k);
    }
    forall k | 0 <= k < |FirstSeen(previous)|
      ensures Contains(IssuesPrompt(stories, previous, year), PreviousLines(previous)[k])
    {
      IssuesPromptShowsPrevious(stories, previous, year, k);
    }
  }

  lemma IssuesPromptShowsStory(stories: seq<Story>, previous: seq<Previous>, year: string, k: nat)
    requires k < |stories|
    ensures Contains(IssuesPrompt(stories, previous, year), StoryLines(stories)[k])
  {
    var line := StoryLines(stories)[k];
    var listing := Join("\n", StoryLines(stories));
    var middle := if previous != [] then BorrowParagraph(previous) else "";
    JoinContains("\n", StoryLines(stories), k);
    ContainsInConcat("\n", listing, line);
    ContainsInConcat(QuestionStart, listing + "\n", line);
    ContainsInConcat(year, listing + "\n" + QuestionStart, line);
    ContainsInConcat(QuestionEnd, listing + "\n" + QuestionStart + year, line);
    ContainsInConcat(middle, IssuesHead(stories, year), line);
    ContainsInConcat(HallucinationNote(year), IssuesHead(stories, year) + middle, line);
  }

  lemma IssuesPromptShowsPrevious(stories: seq<Story>, previous: seq<Previous>, year: string, k: nat)
    requires k < |FirstSeen(previous)|
    ensures Contains(IssuesPrompt(stories, previous, year), PreviousLines(previous)[k])
  {
    assert previous != [];
    var line := PreviousLines(previous)[k];
    var lines := PreviousLines(previous);
    JoinContains("\n", lines, k);
    ContainsInConcat(BorrowIntro, Join("\n", lines), line);
    ContainsInConcat(BorrowOutro, BorrowIntro + Join("\n", lines), line);
    ContainsInConcat(IssuesHead(stories, year), BorrowParagraph(previous), line);
    ContainsInConcat(HallucinationNote(year), IssuesHead(stories, year) + BorrowParagraph(previous), line);
  }

  /** `get_prompt_issues`, filling the `issue_years` dict and extending the prompt. */
  method GetPromptIssues(stories: seq<Story>, previous: seq<Previous>, year: string) returns (prompt: string)
    ensures prompt == IssuesPrompt(stories, previous, year)
  {
    var order, years := GroupYears(previous);
    var lines := seq(|order|, k requires 0 <= k < |order| => NumberedLine(k + 1, order[k], Join(", ", years[order[k]])));
    assert lines == PreviousLines(previous);
    prompt := IssuesHead(stories, year);
    if previous != [] {
      prompt := prompt + (BorrowIntro + Join("\n", lines) + BorrowOutro);
    }
    prompt := prompt + HallucinationNote(year);
  }

  // ---------------------------------------------------------------------------------
  // The revision prompt

  /** The entries titled `t`, in input order. */
  function Matching(previous: seq<Previous>, t: string): (entries: seq<Previous>)
    ensures |entries| <= |previous|
    decreases |previous|
  {
    if previous == [] then []
    else
      var last := previous[|previous| - 1];
      Matching(previous[..|previous| - 1], t) + (if last.title == t then [last] else [])
  }

  /** The selection keeps exactly the entries titled `t`, and finds none exactly when no
      entry has that title. */
  lemma {:induction false} MatchingSpec(previous: seq<Previous>, t: string)
    ensures forall e :: e in Matching(previous, t) ==> e.title == t && e in previous
    ensures forall k :: 0 <= k < |previous| && previous[k].title == t ==> previous[k] in Matching(previous, t)
    ensures Matching(previous, t) == [] <==> FirstIndex(previous, t) == |previous|
    decreases |previous|
  {
    if previous != [] {
      var init := previous[..|previous| - 1];
      MatchingSpec(init, t);
      forall k | 0 <= k < |previous| && previous[k].title == t
        ensures previous[k] in Matching(previous, t)
      {
        if k < |init| {
          assert init[k] == previous[k];
        }
      }
    }
  }

  function MatchLines(entries: seq<Previous>): (lines: seq<string>)
    ensures |lines| == |entries|
    ensures forall k :: 0 <= k < |entries| ==> lines[k] == NumberedLine(k + 1, entries[k].title, entries[k].year)
  {
    seq(|entries|, k requires 0 <= k < |entries| => NumberedLine(k + 1, entries[k].title, entries[k].year))
  }

  const RevisionQuestion: string :=
    "Should the following issues be merged? If so, what should the new title be?\n"

  const RevisionInstructions: string :=
    "If you think the issues are the same, set `approved` to `true` and provide a new title. "
    + "If you think the issues are different, set `approved` to `false`.\n"
    + "If you approve the merger, the issue will be renamed to the title you provide."

  /** One titled block of the revision prompt: the title and its numbered entries. */
  function TitleBlock(previous: seq<Previous>, title: string): string {
    title + ":\n" + Join("\n", MatchLines(Matching(previous, title))) + "\n"
  }

  /** `get_prompt_revisions` as written: the prompt is built even when a title has no
      entries, because the `ValueError` for that case is created and never raised. The
      second field shown is the year, since the entries passed in are `(title, year)`. */
  function RevisionsPromptAsWritten(previous: seq<Previous>, oldTitle: string, newTitle: string): string {
    RevisionQuestion + TitleBlock(previous, oldTitle) + TitleBlock(previous, newTitle) + RevisionInstructions
  }

  /** `get_prompt_revisions` as evidently intended: an unknown old or new title raises,
      so that the caller skips the revision. */
  function RevisionsPrompt(previous: seq<Previous>, oldTitle: string, newTitle: string): (r: Result<string, string>)
    ensures r.Err? <==> Matching(previous, oldTitle) == [] || Matching(previous, newTitle) == []
    ensures r.Ok? ==> r.value == RevisionsPromptAsWritten(previous, oldTitle, newTitle)
  {
    if Matching(previous, oldTitle) == [] || Matching(previous, newTitle) == [] then
      Err("Old title " + oldTitle + " or new title " + newTitle + " not in database")
    else
      Ok(RevisionsPromptAsWritten(previous, oldTitle, newTitle))
  }

  /** As written, a revision naming a title no previous issue has still produces a
      request, listing nothing under that title; as intended, it is refused. */
  lemma UnknownTitleStillAsked(previous: seq<Previous>, oldTitle: string, newTitle: string)
    requires forall k :: 0 <= k < |previous| ==> previous[k].title != oldTitle
    ensures Contains(RevisionsPromptAsWritten(previous, oldTitle, newTitle), oldTitle + ":\n\n")
    ensures RevisionsPrompt(previous, oldTitle, newTitle).Err?
  {
    MatchingSpec(previous, oldTitle);
    assert FirstIndex(previous, oldTitle) == |previous|;
    var block := oldTitle + ":\n\n";
    assert TitleBlock(previous, oldTitle) == block;
    ContainsSelf(block);
    ContainsInConcat(RevisionQuestion, block, block);
    ContainsInConcat(TitleBlock(previous, newTitle), RevisionQuestion + block, block);
    ContainsInConcat(RevisionInstructions, RevisionQuestion + block + TitleBlock(previous, newTitle), block);
  }

  /** The revision prompt lists every entry under the old title and under the new one. */
  lemma RevisionsPromptShowsMatches(previous: seq<Previous>, oldTitle: string, newTitle: string)
    ensures forall k :: 0 <= k < |Matching(previous, oldTitle)| ==>
      Contains(RevisionsPromptAsWritten(previous, oldTitle, newTitle), MatchLines(Matching(previous, oldTitle))[k])
    ensures forall k :: 0 <= k < |Matching(previous, newTitle)| ==>
      Contains(RevisionsPromptAsWritten(previous, oldTitle, newTitle), MatchLines(Matching(previous, newTitle))[k])
  {
    forall k | 0 <= k < |Matching(previous, oldTitle)|
      ensures Contains(RevisionsPromptAsWritten(previous, oldTitle, newTitle), MatchLines(Matching(previous, oldTitle))[k])
    {
      var line := MatchLines(Matching(previous, oldTitle))[k];
      TitleBlockShows(previous, oldTitle, k);
      ContainsInConcat(RevisionQuestion, TitleBlock(previous, oldTitle), line);
      ContainsInConcat(TitleBlock(previous, newTitle), RevisionQuestion + TitleBlock(previous, oldTitle), line);
      ContainsInConcat(RevisionInstructions, RevisionQuestion + TitleBlock(previous, oldTitle) + TitleBlock(previous, newTitle), line);
    }
    forall k | 0 <= k < |Matching(previous, newTitle)|
      ensures Contains(RevisionsPromptAsWritten(previous, oldTitle, newTitle), MatchLines(Matching(previous, newTitle))[k])
    {
      var line := MatchLines(Matching(previous, newTitle))[k];
      TitleBlockShows(previous, newTitle, k);
      ContainsInConcat(RevisionQuestion + TitleBlock(previous, oldTitle), TitleBlock(previous, newTitle), line);
      ContainsInConcat(RevisionInstructions, RevisionQuestion + TitleBlock(previous, oldTitle) + TitleBlock(previous, newTitle), line);
    }
  }

  lemma TitleBlockShows(previous: seq<Previous>, title: string, k: nat)
    requires k < |Matching(previous, title)|
    ensures Contains(TitleBlock(previous, title), MatchLines(Matching(previous, title))[k])
  {
    var lines := MatchLines(Matching(previous, title));
    JoinContains("\n", lines, k);
    ContainsInConcat(title + ":\n", Join("\n", lines), lines[k]);
    ContainsInConcat("\n", title + ":\n" + Join("\n", lines), lines[k]);
  }

  // ---------------------------------------------------------------------------------
  // generate_issues

  /** A row of the `issues` table. A title is `NULL` after an approved revision that
      came back without one. */
  datatype IssueRow = IssueRow(year: string, title: Option<string>, description: string)

  datatype Issue = Issue(title: string, description: string)

  datatype Revision = Revision(oldTitle: string, newTitle: string)

  /** `Response`: the year's issues and the proposed revisions (none when absent). */
  datatype Response = Response(issues: seq<Issue>, revisions: seq<Revision>)

  /** `RevisionResponse`. */
  datatype RevisionResponse = RevisionResponse(summary: string, title: Option<string>, approved: bool)

  /** A chat request, by kind and prompt; both kinds use temperature 1. */
  datatype Request = IssuesRequest(prompt: string) | RevisionRequest(prompt: string)
  {
    /** The system message the request is sent with. */
    function System(): string {
      if IssuesRequest? then SystemMessageIssues else SystemMessageRevisions
    }

    /** The assistant prefix the request is sent with. */
    function JsonStart(): string {
      if IssuesRequest? then IssuesJsonStart else RevisionJsonStart
    }
  }

  /** What ends a year's generation, by the exception raised. */
  datatype Cause =
    | ResponseMissing  // `chat` returned `None`: `ValueError`
    | ChatRaised       // `chat` raised: the exception propagates
    | JsonMissing      // no `{...}` in the reply: `AttributeError`
    | JsonInvalid      // the JSON does not validate: `ValueError`

  /** The cause, and whether it came from a revision request. */
  datatype Failure = Failure(inRevision: bool, cause: Cause)

  datatype Outcome = AlreadyPresent | Generated | Failed(failure: Failure)

  function CauseOf<T>(reply: Reply<T>): (c: Cause)
    requires !reply.Parsed?
    ensures c == ResponseMissing <==> reply.NoReply?
    ensures c == ChatRaised <==> reply.ChatFailed?
  {
    match reply
    case NoReply => ResponseMissing
    case ChatFailed => ChatRaised
    case NoJson => JsonMissing
    case Invalid => JsonInvalid
  }

  /** `check_year`: some issue is already listed for the year. */
  predicate HasYear(rows: seq<IssueRow>, year: string) {
    exists k :: 0 <= k < |rows| && rows[k].year == year
  }

  /** The rows the `INSERT`s add, in response order. */
  function NewRows(year: string, issues: seq<Issue>): (rows: seq<IssueRow>)
    ensures |rows| == |issues|
    ensures forall k :: 0 <= k < |issues| ==> rows[k] == IssueRow(year, Some(issues[k].title), issues[k].description)
  {
    seq(|issues|, k requires 0 <= k < |issues| => IssueRow(year, Some(issues[k].title), issues[k].description))
  }

  /** `UPDATE issues SET title = ? WHERE title = ?`: every row titled `oldTitle`, of any
      year, takes the new title; every other row, and every year and description, stays. */
  function Renamed(rows: seq<IssueRow>, oldTitle: string, title: Option<string>): (renamed: seq<IssueRow>)
    ensures |renamed| == |rows|
    ensures forall k :: 0 <= k < |rows| ==>
      && renamed[k].year == rows[k].year
      && renamed[k].description == rows[k].description
      && (rows[k].title != Some(oldTitle) ==> renamed[k] == rows[k])
      && (rows[k].title == Some(oldTitle) ==> renamed[k].title == title)
    ensures title != Some(oldTitle) ==> forall k :: 0 <= k < |rows| ==> renamed[k].title != Some(oldTitle)
  {
    seq(|rows|, k requires 0 <= k < |rows| => if rows[k].title == Some(oldTitle) then rows[k].(title := title) else rows[k])
  }

  /** The state of a year's generation while the revisions are worked through. */
  datatype Step = Step(rows: seq<IssueRow>, requests: seq<Request>, failure: Option<Failure>)

  /** Which `get_prompt_revisions` the revision loop calls: the one written, which never
      raises, or the one intended, which raises for an unknown title. */
  datatype Version = AsWritten | AsIntended

  /** The revision prompt, or the `ValueError` the loop's handler skips. */
  function PromptFor(version: Version, previous: seq<Previous>, revision: Revision): Result<string, string> {
    match version
    case AsWritten => Ok(RevisionsPromptAsWritten(previous, revision.oldTitle, revision.newTitle))
    case AsIntended => RevisionsPrompt(previous, revision.oldTitle, revision.newTitle)
  }

  /** One revision: skipped when its prompt raises, otherwise sent to the model, and the
      rename applied when the model approves. */
  function ReviseOne(version: Version, previous: seq<Previous>, revision: Revision, reply: Reply<RevisionResponse>,
                     rows: seq<IssueRow>, requests: seq<Request>): Step
  {
    match PromptFor(version, previous, revision)
    case Err(_) => Step(rows, requests, None)
    case Ok(prompt) =>
      var sent := requests + [RevisionRequest(prompt)];
      if reply.Parsed? then
        Step(if reply.value.approved then Renamed(rows, revision.oldTitle, reply.value.title) else rows, sent, None)
      else
        Step(rows, sent, Some(Failure(true, CauseOf(reply))))
  }

  /** The revisions from the `i`-th on, stopping at the first failure. */
  function Revise(version: Version, previous: seq<Previous>, revisions: seq<Revision>,
                  replies: seq<Reply<RevisionResponse>>, i: nat, s: Step): Step
    requires |replies| == |revisions| && i <= |revisions|
    decreases |revisions| - i
  {
    if i == |revisions| || s.failure.Some? then s
    else Revise(version, previous, revisions, replies, i + 1,
                ReviseOne(version, previous, revisions[i], replies[i], s.rows, s.requests))
  }

  /** `generate_issues(year, ...)` on the `issues` table: the outcome, the table
      afterwards and the requests sent. A failure rolls the transaction back. */
  function Generate(version: Version, rows: seq<IssueRow>, year: string, stories: seq<Story>, previous: seq<Previous>,
                    reply: Reply<Response>, revisionReplies: seq<Reply<RevisionResponse>>): (Outcome, seq<IssueRow>, seq<Request>)
    requires reply.Parsed? ==> |revisionReplies| == |reply.value.revisions|
  {
    if HasYear(rows, year) then (AlreadyPresent, rows, [])
    else
      var first := [IssuesRequest(IssuesPrompt(stories, previous, year))];
      if !reply.Parsed? then (Failed(Failure(false, CauseOf(reply))), rows, first)
      else
        var s := Revise(version, previous, reply.value.revisions, revisionReplies, 0,
                        Step(rows + NewRows(year, reply.value.issues), first, None));
        if s.failure.Some? then (Failed(s.failure.value), rows, s.requests)
        else (Generated, s.rows, s.requests)
  }

  /** No revision reply approves its merger. */
  predicate NoneApproved(replies: seq<Reply<RevisionResponse>>) {
    forall j :: 0 <= j < |replies| ==> !(replies[j].Parsed? && replies[j].value.approved)
  }

  /** Revisions keep every row, with its year and description, add requests only after
      those already sent, at most one per revision, and change no row when none is
      approved. */
  lemma {:induction false} ReviseSpec(version: Version, previous: seq<Previous>, revisions: seq<Revision>,
                                      replies: seq<Reply<RevisionResponse>>, i: nat, s: Step)
    requires |replies| == |revisions| && i <= |revisions|
    ensures var r := Revise(version, previous, revisions, replies, i, s);
      && |r.rows| == |s.rows|
      && (forall k :: 0 <= k < |s.rows| ==> r.rows[k].year == s.rows[k].year && r.rows[k].description == s.rows[k].description)
      && |s.requests| <= |r.requests| <= |s.requests| + (|revisions| - i)
      && r.requests[..|s.requests|] == s.requests
      && (NoneApproved(replies[i..]) ==> r.rows == s.rows)
    decreases |revisions| - i
  {
    if i < |revisions| && s.failure.None? {
      var next := ReviseOne(version, previous, revisions[i], replies[i], s.rows, s.requests);
      ReviseSpec(version, previous, revisions, replies, i + 1, next);
      assert replies[i + 1..] == replies[i..][1..];
      var r := Revise(version, previous, revisions, replies, i, s);
      assert r == Revise(version, previous, revisions, replies, i + 1, next);
      assert next.requests[..|s.requests|] == s.requests;
      assert r.requests[..|s.requests|] == r.requests[..|next.requests|][..|s.requests|];
    }
  }

  /** As intended, revisions that each name a title without previous entries are
      skipped: nothing is sent and nothing changes. */
  lemma {:induction false} ReviseUnknownSkipped(previous: seq<Previous>, revisions: seq<Revision>,
                                                replies: seq<Reply<RevisionResponse>>, i: nat, s: Step)
    requires |replies| == |revisions| && i <= |revisions| && s.failure.None?
    requires forall j :: i <= j < |revisions| ==>
      Matching(previous, revisions[j].oldTitle) == [] || Matching(previous, revisions[j].newTitle) == []
    ensures Revise(AsIntended, previous, revisions, replies, i, s) == s
    decreases |revisions| - i
  {
    if i < |revisions| {
      ReviseUnknownSkipped(previous, revisions, replies, i + 1, s);
    }
  }

  /** Where every revision names two titles with previous entries, the loop as written
      and the loop as intended do the same. */
  lemma {:induction false} ReviseVersionsAgree(previous: seq<Previous>, revisions: seq<Revision>,
                                               replies: seq<Reply<RevisionResponse>>, i: nat, s: Step)
    requires |replies| == |revisions| && i <= |revisions|
    requires forall j :: i <= j < |revisions| ==>
      Matching(previous, revisions[j].oldTitle) != [] && Matching(previous, revisions[j].newTitle) != []
    ensures Revise(AsIntended, previous, revisions, replies, i, s) == Revise(AsWritten, previous, revisions, replies, i, s)
    decreases |revisions| - i
  {
    if i < |revisions| && s.failure.None? {
      var next := ReviseOne(AsWritten, previous, revisions[i], replies[i], s.rows, s.requests);
      assert ReviseOne(AsIntended, previous, revisions[i], replies[i], s.rows, s.requests) == next;
      ReviseVersionsAgree(previous, revisions, replies, i + 1, next);
    }
  }

  /** As written, every revision is sent, in order, up to the first reply that fails, and
      the loop fails exactly when some reply does. */
  lemma {:induction false} ReviseAsWrittenSendsEach(previous: seq<Previous>, revisions: seq<Revision>,
                                                    replies: seq<Reply<RevisionResponse>>, i: nat, s: Step)
    requires |replies| == |revisions| && i <= |revisions| && s.failure.None?
    ensures var r := Revise(AsWritten, previous, revisions, replies, i, s);
      && (r.failure.None? <==> forall j :: i <= j < |revisions| ==> replies[j].Parsed?)
      && (r.failure.None? ==> |r.requests| == |s.requests| + (|revisions| - i))
      && |s.requests| <= |r.requests| <= |s.requests| + (|revisions| - i)
      && forall j :: |s.requests| <= j < |r.requests| ==>
           var revision := revisions[i + (j - |s.requests|)];
           r.requests[j] == RevisionRequest(RevisionsPromptAsWritten(previous, revision.oldTitle, revision.newTitle))
    decreases |revisions| - i
  {
    if i < |revisions| {
      var next := ReviseOne(AsWritten, previous, revisions[i], replies[i], s.rows, s.requests);
      var r := Revise(AsWritten, previous, revisions, replies, i, s);
      assert r == Revise(AsWritten, previous, revisions, replies, i + 1, next);
      if next.failure.None? {
        ReviseAsWrittenSendsEach(previous, revisions, replies, i + 1, next);
        ReviseSpec(AsWritten, previous, revisions, replies, i + 1, next);
        assert r.requests[|s.requests|] == next.requests[|s.requests|];
      }
    }
  }

  /** The two versions part on a revision towards a title that is new this year. The
      year before lists "The War in Iraq"; this year's reply adds "The Iraq War" and
      proposes renaming the former to it. As written the revision is sent, an approval
      renames the earlier row, and a missing revision reply fails the year; as intended
      the revision is skipped, since the new title has no previous entry. */
  lemma NewTitleRevisionVersionsDiffer()
    ensures var rows := [IssueRow("2003", Some("The War in Iraq"), "war")];
      var previous := [Previous("The War in Iraq", "2003")];
      var reply := Parsed(Response([Issue("The Iraq War", "war")], [Revision("The War in Iraq", "The Iraq War")]));
      var approve := [Parsed(RevisionResponse("same issue", Some("The Iraq War"), true))];
      var written := Generate(AsWritten, rows, "2004", [], previous, reply, approve);
      var intended := Generate(AsIntended, rows, "2004", [], previous, reply, approve);
      && written.0 == Generated && |written.2| == 2 && written.1[0].title == Some("The Iraq War")
      && intended.0 == Generated && |intended.2| == 1 && intended.1[0].title == Some("The War in Iraq")
      && Generate(AsWritten, rows, "2004", [], previous, reply, [NoReply]).0 == Failed(Failure(true, ResponseMissing))
      && Generate(AsIntended, rows, "2004", [], previous, reply, [NoReply]).0 == Generated
  {
    var previous := [Previous("The War in Iraq", "2003")];
    assert Matching(previous, "The Iraq War") == [];
    assert Matching(previous, "The War in Iraq") != [];
  }

  /** `check_year`'s early return: a year already present sends nothing and changes
      nothing, and only such a year returns without generating or failing. */
  lemma GenerateEarlyExit(version: Version, rows: seq<IssueRow>, year: string, stories: seq<Story>, previous: seq<Previous>,
                          reply: Reply<Response>, revisionReplies: seq<Reply<RevisionResponse>>)
    requires reply.Parsed? ==> |revisionReplies| == |reply.value.revisions|
    ensures var g := Generate(version, rows, year, stories, previous, reply, revisionReplies);
      && (g.0 == AlreadyPresent <==> HasYear(rows, year))
      && (HasYear(rows, year) ==> g.2 == [] && g.1 == rows)
  {
  }

  /** A year not yet present sends the issues request first, and at most one request
      per revision after it; as written, a generated year sent one per revision. */
  lemma GenerateRequests(version: Version, rows: seq<IssueRow>, year: string, stories: seq<Story>, previous: seq<Previous>,
                         reply: Reply<Response>, revisionReplies: seq<Reply<RevisionResponse>>)
    requires reply.Parsed? ==> |revisionReplies| == |reply.value.revisions|
    requires !HasYear(rows, year)
    ensures var g := Generate(version, rows, year, stories, previous, reply, revisionReplies);
      && 1 <= |g.2| && g.2[0] == IssuesRequest(IssuesPrompt(stories, previous, year))
      && (reply.Parsed? ==> |g.2| <= 1 + |reply.value.revisions|)
      && (version == AsWritten && g.0 == Generated ==> |g.2| == 1 + |reply.value.revisions|)
  {
    if reply.Parsed? {
      var first := [IssuesRequest(IssuesPrompt(stories, previous, year))];
      var start := Step(rows + NewRows(year, reply.value.issues), first, None);
      ReviseSpec(version, previous, reply.value.revisions, revisionReplies, 0, start);
      var s := Revise(version, previous, reply.value.revisions, revisionReplies, 0, start);
      if version == AsWritten {
        ReviseAsWrittenSendsEach(previous, reply.value.revisions, revisionReplies, 0, start);
      }
      assert Generate(version, rows, year, stories, previous, reply, revisionReplies).2 == s.requests;
      assert s.requests[0] == s.requests[..1][0] == first[0];
    }
  }

  /** A failure leaves the table as it was (the transaction is rolled back); success adds
      one row per issue with the year and description, only revisions change titles, and
      the year is then present. */
  lemma GenerateRows(version: Version, rows: seq<IssueRow>, year: string, stories: seq<Story>, previous: seq<Previous>,
                     reply: Reply<Response>, revisionReplies: seq<Reply<RevisionResponse>>)
    requires reply.Parsed? ==> |revisionReplies| == |reply.value.revisions|
    ensures var g := Generate(version, rows, year, stories, previous, reply, revisionReplies);
      && (g.0.Failed? ==> g.1 == rows)
      && (g.0 == Generated ==>
            && reply.Parsed?
            && |g.1| == |rows| + |reply.value.issues|
            && forall k :: 0 <= k < |reply.value.issues| ==>
                 g.1[|rows| + k].year == year && g.1[|rows| + k].description == reply.value.issues[k].description)
      && (g.0 == Generated && NoneApproved(revisionReplies) ==> g.1 == rows + NewRows(year, reply.value.issues))
      && (g.0 == Generated && reply.value.issues != [] ==> HasYear(g.1, year))
  {
    if !HasYear(rows, year) && reply.Parsed? {
      var first := [IssuesRequest(IssuesPrompt(stories, previous, year))];
      var start := Step(rows + NewRows(year, reply.value.issues), first, None);
      ReviseSpec(version, previous, reply.value.revisions, revisionReplies, 0, start);
      assert revisionReplies[0..] == revisionReplies;
      var s := Revise(version, previous, reply.value.revisions, revisionReplies, 0, start);
      forall k | 0 <= k < |reply.value.issues|
        ensures s.rows[|rows| + k].year == year && s.rows[|rows| + k].description == reply.value.issues[k].description
      {
        assert start.rows[|rows| + k] == NewRows(year, reply.value.issues)[k];
      }
      if s.failure.None? && reply.value.issues != [] {
        assert s.rows[|rows| + 0].year == year;
      }
    }
  }

  /** Once a year has been generated with at least one issue, running it again is the
      early exit: no request and no change. */
  lemma GenerateTwice(version: Version, rows: seq<IssueRow>, year: string, stories: seq<Story>, previous: seq<Previous>,
                      reply: Reply<Response>, revisionReplies: seq<Reply<RevisionResponse>>,
                      reply2: Reply<Response>, revisionReplies2: seq<Reply<RevisionResponse>>)
    requires reply.Parsed? ==> |revisionReplies| == |reply.value.revisions|
    requires reply2.Parsed? ==> |revisionReplies2| == |reply2.value.revisions|
    requires Generate(version, rows, year, stories, previous, reply, revisionReplies).0 == Generated
    requires reply.Parsed? && reply.value.issues != []
    ensures var after := Generate(version, rows, year, stories, previous, reply, revisionReplies).1;
      Generate(version, after, year, stories, previous, reply2, revisionReplies2) == (AlreadyPresent, after, [])
  {
    GenerateRows(version, rows, year, stories, previous, reply, revisionReplies);
  }

  /** The `issues` table. */
  class IssuesTable {
    var rows: seq<IssueRow>

    constructor(rows: seq<IssueRow>)
      ensures this.rows == rows
    {
      this.rows := rows;
    }

    /** `generate_issues(year, ...)`: early exit for a year already present; otherwise
        the issues request, the inserts, and the revision loop, rolled back on failure. */
    method GenerateIssues(year: string, stories: seq<Story>, previous: seq<Previous>,
                          reply: Reply<Response>, revisionReplies: seq<Reply<RevisionResponse>>)
      returns (outcome: Outcome, requests: seq<Request>)
      requires reply.Parsed? ==> |revisionReplies| == |reply.value.revisions|
      modifies this
      ensures (outcome, rows, requests) == Generate(AsWritten, old(rows), year, stories, previous, reply, revisionReplies)
    {
      if HasYear(rows, year) {
        return AlreadyPresent, [];
      }
      var prompt := GetPromptIssues(stories, previous, year);
      requests := [IssuesRequest(prompt)];
      if !reply.Parsed? {
        return Failed(Failure(false, CauseOf(reply))), requests;
      }
      var response := reply.value;
      var saved := rows;
      InsertIssues(year, response.issues);
      var failure;
      failure, requests := ApplyRevisions(previous, response.revisions, revisionReplies, requests);
      if failure.Some? {
        rows := saved;
        return Failed(failure.value), requests;
      }
      outcome := Generated;
    }
  
    /** The `INSERT` loop: one row per issue, in response order. */
    method InsertIssues(year: string, issues: seq<Issue>)
      modifies this
      ensures rows == old(rows) + NewRows(year, issues)
    {
      for i := 0 to |issues|
        invariant rows == old(rows) + NewRows(year, issues[..i])
      {
        var issue := issues[i];
        rows := rows + [IssueRow(year, Some(issue.title), issue.description)];
        assert NewRows(year, issues[..i + 1]) == NewRows(year, issues[..i]) + [IssueRow(year, Some(issue.title), issue.description)];
      }
      assert issues[..|issues|] == issues;
    }

    /** The revision loop: each revision is sent, and an approved one renames its
        issues; the loop stops at the first failed reply. */
    method ApplyRevisions(previous: seq<Previous>, revisions: seq<Revision>,
                          replies: seq<Reply<RevisionResponse>>, sent: seq<Request>)
      returns (failure: Option<Failure>, requests: seq<Request>)
      requires |replies| == |revisions|
      modifies this
      ensures var r := Revise(AsWritten, previous, revisions, replies, 0, Step(old(rows), sent, None));
        failure == r.failure && requests == r.requests && (failure.None? ==> rows == r.rows)
    {
      requests := sent;
      ghost var start := Step(rows, requests, None);
      for i := 0 to |revisions|
        invariant Revise(AsWritten, previous, revisions, replies, i, Step(rows, requests, None))
               == Revise(AsWritten, previous, revisions, replies, 0, start)
      {
        var revision := revisions[i];
        // The handler that skips a revision is unreachable: the prompt never raises.
        var prompt := RevisionsPromptAsWritten(previous, revision.oldTitle, revision.newTitle);
        requests := requests + [RevisionRequest(prompt)];
        var reply := replies[i];
        if !reply.Parsed? {
          return Some(Failure(true, CauseOf(reply))), requests;
        }
        if reply.value.approved {
          rows := Renamed(rows, revision.oldTitle, reply.value.title);
        }
      }
      failure := None;
    }
  }
}
