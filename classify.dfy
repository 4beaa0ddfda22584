/** `classify.py`: classifying news segments by issue (per year) and by topic, either
    one chat call per segment or through the Bedrock batch path, and writing the labels
    to the `segments` table with `-1` for "no match". */
module Classify {

  import opened Wrappers
  import opened Text
  import opened Utils
  import opened Aws
  import opened Batch
  import opened Scripts
  import opened Usage

  const SystemMessageIssues: string := "You categorize what issues different news segments cover. You should respond with a JSON\nobject as follows:\n```json\n{\n    \"explanation\": str,\n    \"issue\": int,\n}\n```\nThe `explanation` field should be a brief explanation of which issue is the best fit for\nfor the news segment, as well as an explanation of whether that issue is a good fit for\nthe particular news segment or not. If the news segment does not fit any of the issues\nyou have been provided, you should respond with `null`."
  const SystemMessageTopics: string := "You categorize what topics different news segments cover. You should respond with a JSON\nobject as follows:\n```json\n{\n    \"explanation\": str,\n    \"topic\": int,\n    \"hard_news\": bool\n}\n```\nThe `explanation` field should be a brief explanation of which topic is the best fit for\nfor the news segment, as well as an explanation of whether that topic is a good fit for\nthe particular news segment or not. If the news segment does not fit any of the topics\nyou have been provided, you should respond with `null`.\n\nFinally, the `hard_news` field should be set to `true` if the news segment is hard news\n(e.g., politics, economics, crime), and `false` otherwise (e.g., entertainment, sports,\nhuman interest)."

  /** The assistant prefix of every classification call. */
  const JsonStart: string := "{\"explanation\": \""

  /** A row of the `topics` or `issues` table. */
  datatype TableRow = TableRow(id: int, title: string, description: string)

  /** `TOPICS` and `ISSUES` as loaded at import: the topic table, and each year's issues
      (the years 1968 to 2019). */
  datatype Catalog = Catalog(topics: seq<TableRow>, issues: map<int, seq<TableRow>>)

  /** A row of the `segments` table as the scripts read it. */
  datatype SegmentRow = SegmentRow(id: nat, date: Date, outlet: string, title: string, summary: string)

  function Ids(rows: seq<TableRow>): (ids: set<int>)
    ensures forall k :: 0 <= k < |rows| ==> rows[k].id in ids
    ensures forall id :: id in ids ==> exists k :: 0 <= k < |rows| && rows[k].id == id
  {
    KeySet((r: TableRow) => r.id, rows)
  }

  /** `check_issue`: `KeyError` (`Err`) for a year without an issue list; otherwise the
      reply is accepted iff it names no issue or one of that year's issues. */
  function CheckIssue(issue: Option<int>, catalog: Catalog, year: int): (r: Result<bool, int>)
    ensures r.Err? <==> year !in catalog.issues
    ensures r.Ok? ==> (r.value <==> issue.None? || issue.value in Ids(catalog.issues[year]))
  {
    if year !in catalog.issues then Err(year)
    else Ok(issue.None? || issue.value in Ids(catalog.issues[year]))
  }

  /** `check_topic`: accepted iff the reply names no topic or one of the topic ids; the
      year plays no part. */
  function CheckTopic(topic: Option<int>, catalog: Catalog, year: int): (ok: bool)
    ensures ok <==> topic.None? || topic.value in Ids(catalog.topics)
  {
    topic.None? || topic.value in Ids(catalog.topics)
  }

  /** `f"{row['id']}: {row['title']}: {row['description']}"` for each row. */
  function RowLines(rows: seq<TableRow>): (lines: seq<string>)
    ensures |lines| == |rows|
    ensures forall k :: 0 <= k < |rows| ==> lines[k] == IntStr(rows[k].id) + ": " + rows[k].title + ": " + rows[k].description
  {
    if rows == [] then [] else [IntStr(rows[0].id) + ": " + rows[0].title + ": " + rows[0].description] + RowLines(rows[1..])
  }

  /** `f"({date}) {outlet}: {title}\n{abstract}"`. */
  function SegmentPrompt(s: SegmentRow): string
    requires ValidDate(s.date)
  {
    "(" + AdaptDate(s.date) + ") " + s.outlet + ": " + s.title + "\n" + s.summary
  }

  function IssuesPrompt(issues: seq<TableRow>, segment: string): string {
    "Issues:\n" + Join("\n", RowLines(issues)) + "\n\nNews Segment:\n" + segment
  }

  function TopicsPrompt(topics: seq<TableRow>, segment: string): string {
    "Topics:\n" + Join("\n", RowLines(topics)) + "\n\nNews Segment:\n" + segment
  }

  datatype PromptError =
    | NoIssuesForYear(year: int)  // `KeyError` on `ISSUES[date.year]`
    | InvalidLevel(level: string) // `ValueError("Invalid level: ...")`

  /** `get_prompt`: the issue list of the segment's year is looked up before the level is
      examined, so a year without issues fails for either level; an unknown level is a
      `ValueError`. */
  function GetPrompt(catalog: Catalog, level: string, segment: SegmentRow): (r: Result<string, PromptError>)
    requires ValidDate(segment.date)
    ensures segment.date.year !in catalog.issues ==> r == Err(NoIssuesForYear(segment.date.year))
    ensures r.Ok? <==> segment.date.year in catalog.issues && (level == "issues" || level == "topics")
    ensures r.Err? && segment.date.year in catalog.issues ==> r == Err(InvalidLevel(level))
    ensures r.Ok? && level == "issues" ==> r.value == IssuesPrompt(catalog.issues[segment.date.year], SegmentPrompt(segment))
    ensures r.Ok? && level == "topics" ==> r.value == TopicsPrompt(catalog.topics, SegmentPrompt(segment))
  {
    if segment.date.year !in catalog.issues then Err(NoIssuesForYear(segment.date.year))
    else if level == "issues" then Ok(IssuesPrompt(catalog.issues[segment.date.year], SegmentPrompt(segment)))
    else if level == "topics" then Ok(TopicsPrompt(catalog.topics, SegmentPrompt(segment)))
    else Err(InvalidLevel(level))
  }

  /** The issues prompt shows every issue of the segment's year and the segment itself. */
  lemma IssuesPromptShowsAll(issues: seq<TableRow>, segment: string, k: nat)
    requires k < |issues|
    ensures Contains(IssuesPrompt(issues, segment), RowLines(issues)[k])
    ensures Contains(IssuesPrompt(issues, segment), segment)
  {
    var listing := Join("\n", RowLines(issues));
    JoinContains("\n", RowLines(issues), k);
    FourPartsShow("Issues:\n", listing, "\n\nNews Segment:\n", segment);
    ContainsTransitive(IssuesPrompt(issues, segment), listing, RowLines(issues)[k]);
  }

  /** The topics prompt shows every topic and the segment itself. */
  lemma TopicsPromptShowsAll(topics: seq<TableRow>, segment: string, k: nat)
    requires k < |topics|
    ensures Contains(TopicsPrompt(topics, segment), RowLines(topics)[k])
    ensures Contains(TopicsPrompt(topics, segment), segment)
  {
    var listing := Join("\n", RowLines(topics));
    JoinContains("\n", RowLines(topics), k);
    FourPartsShow("Topics:\n", listing, "\n\nNews Segment:\n", segment);
    ContainsTransitive(TopicsPrompt(topics, segment), listing, RowLines(topics)[k]);
  }

  /** `IssueResponse` and `TopicResponse` as parsed. */
  datatype IssueReply = IssueReply(issue: Option<int>)
  datatype TopicReply = TopicReply(topic: Option<int>, hardNews: bool)

  /** `classify_issue` for one segment. `reply` stands for the chat outcome and its
      parse. The call is made only when the prompt can be built; the label is stored only
      for a parsed reply `check_issue` accepts, `-1` standing for "no issue". A failure
      anywhere is logged (by the code or by `handle_exceptions`) and stores nothing. */
  method ClassifyIssue(table: SegmentTable, catalog: Catalog, segment: SegmentRow, year: int, reply: Reply<IssueReply>)
    returns (call: Option<ChatCall>)
    requires table.Valid() && ValidDate(segment.date)
    modifies table
    ensures table.Valid()
    ensures call.Some? <==> segment.date.year in catalog.issues
    ensures call.Some? ==> call.value == ChatCall(GetPrompt(catalog, "issues", segment).value, 1.0, JsonStart)
    ensures var stored := call.Some? && reply.Parsed? && CheckIssue(reply.value.issue, catalog, year) == Ok(true);
      && (stored && segment.id in table.ids ==>
            table.issueId == old(table.issueId)[segment.id := Some(Sentinel(reply.value.issue))])
      && (!stored || segment.id !in table.ids ==> table.issueId == old(table.issueId))
    ensures table.topicId == old(table.topicId) && table.hardNews == old(table.hardNews)
    ensures table.otherId == old(table.otherId)
  {
    var prompt := GetPrompt(catalog, "issues", segment);
    if prompt.Err? {
      return None;
    }
    call := Some(ChatCall(prompt.value, 1.0, JsonStart));
    if !reply.Parsed? {
      return;
    }
    var ok := CheckIssue(reply.value.issue, catalog, year);
    if ok != Ok(true) {
      return;
    }
    var _ := table.SetIssue(segment.id, Some(Sentinel(reply.value.issue)));
  }

  /** `classify_topic` for one segment, like `ClassifyIssue`, storing the topic (`-1` for
      none) and the hard-news flag. */
  method ClassifyTopic(table: SegmentTable, catalog: Catalog, segment: SegmentRow, year: int, reply: Reply<TopicReply>)
    returns (call: Option<ChatCall>)
    requires table.Valid() && ValidDate(segment.date)
    modifies table
    ensures table.Valid()
    ensures call.Some? <==> segment.date.year in catalog.issues
    ensures call.Some? ==> call.value == ChatCall(GetPrompt(catalog, "topics", segment).value, 1.0, JsonStart)
    ensures var stored := call.Some? && reply.Parsed? && CheckTopic(reply.value.topic, catalog, year);
      && (stored && segment.id in table.ids ==>
            && table.topicId == old(table.topicId)[segment.id := Some(Sentinel(reply.value.topic))]
            && table.hardNews == old(table.hardNews)[segment.id := Some(reply.value.hardNews)])
      && (!stored || segment.id !in table.ids ==>
            table.topicId == old(table.topicId) && table.hardNews == old(table.hardNews))
    ensures table.issueId == old(table.issueId) && table.otherId == old(table.otherId)
  {
    var prompt := GetPrompt(catalog, "topics", segment);
    if prompt.Err? {
      return None;
    }
    call := Some(ChatCall(prompt.value, 1.0, JsonStart));
    if !reply.Parsed? || !CheckTopic(reply.value.topic, catalog, year) {
      return;
    }
    var _ := table.SetTopic(segment.id, Some(Sentinel(reply.value.topic)), Some(reply.value.hardNews));
  }

  /** A label the chat path stores is `-1` or one the catalog knows. */
  lemma StoredIssueIsKnown(catalog: Catalog, year: int, reply: IssueReply)
    requires CheckIssue(reply.issue, catalog, year) == Ok(true)
    ensures Sentinel(reply.issue) == -1 || Sentinel(reply.issue) in Ids(catalog.issues[year])
  {
  }

  /** A segment row as the batch query returns it, with its `year` column. */
  datatype BatchSegment = BatchSegment(row: SegmentRow, year: int)

  function SystemMessage(level: string): string {
    if level == "issues" then SystemMessageIssues else SystemMessageTopics
  }

  /** The prompt `generate_prompts` builds: the issue list of the row's year for "issues",
      the topic list for any other level (no `ValueError` here); `Err` is the `KeyError`
      of a year without issues. */
  function BatchPrompt(catalog: Catalog, level: string, s: BatchSegment): (r: Result<string, int>)
    requires ValidDate(s.row.date)
    ensures r.Err? <==> level == "issues" && s.year !in catalog.issues
  {
    if level == "issues" then
      if s.year in catalog.issues then Ok(IssuesPrompt(catalog.issues[s.year], SegmentPrompt(s.row))) else Err(s.year)
    else Ok(TopicsPrompt(catalog.topics, SegmentPrompt(s.row)))
  }

  /** The prompts `generate_prompts` builds for the segments, in order. */
  function BatchPrompts(catalog: Catalog, level: string, segments: seq<BatchSegment>): (r: seq<Result<string, int>>)
    requires forall k :: 0 <= k < |segments| ==> ValidDate(segments[k].row.date)
    ensures |r| == |segments| && forall k :: 0 <= k < |segments| ==> r[k] == BatchPrompt(catalog, level, segments[k])
  {
    seq(|segments|, k requires 0 <= k < |segments| => BatchPrompt(catalog, level, segments[k]))
  }

  function SegmentIds(segments: seq<BatchSegment>): (ids: seq<nat>)
    ensures |ids| == |segments| && forall k :: 0 <= k < |segments| ==> ids[k] == segments[k].row.id
  {
    seq(|segments|, k requires 0 <= k < |segments| => segments[k].row.id)
  }

  /** `generate_prompts` up to the upload: one record per segment, in order, keyed by the
      segment id, with the level's system message and the classification prefix; `Err`
      is the `KeyError` of a segment whose year has no issues, for the "issues" level
      only. */
  method GeneratePrompts(catalog: Catalog, level: string, segments: seq<BatchSegment>)
    returns (r: Result<(seq<BatchRecord>, nat), int>)
    requires forall k :: 0 <= k < |segments| ==> ValidDate(segments[k].row.date)
    ensures r.Err? ==> exists k :: 0 <= k < |segments| && BatchPrompt(catalog, level, segments[k]) == Err(r.error)
    ensures r.Ok? <==> forall k :: 0 <= k < |segments| ==> BatchPrompt(catalog, level, segments[k]).Ok?
    ensures r.Ok? ==>
      var prompts := Values(BatchPrompts(catalog, level, segments));
      && |r.value.0| == |segments|
      && (forall k :: 0 <= k < |segments| ==>
            r.value.0[k] == RecordFor(segments[k].row.id, SystemMessage(level), prompts[k], JsonStart))
      && r.value.1 == TokenTotal(SystemMessage(level), prompts)
  {
    var ids := SegmentIds(segments);
    var prompts := BatchPrompts(catalog, level, segments);
    r := GenerateRecords(ids, prompts, SystemMessage(level), JsonStart);
  }

  /** A batch prompt fails only for the "issues" level, on a year without issues. */
  lemma BatchPromptFails(catalog: Catalog, level: string, s: BatchSegment)
    requires ValidDate(s.row.date) && BatchPrompt(catalog, level, s).Err?
    ensures level == "issues" && s.year !in catalog.issues && BatchPrompt(catalog, level, s).error == s.year
  {
  }

  /** The S3 key prefix of the level's chunks: `input/{level}_prompts_`. */
  function ChunkPrefix(level: string): string {
    "input/" + level + "_prompts_"
  }

  /** `ModelOutput` as parsed from a result line. */
  datatype ModelOutput = ModelOutput(explanation: Option<string>, topic: Option<int>, issue: Option<int>, hardNews: Option<bool>)

  /** `ModelResult(line, level)` up to `parse_raw`: the model text is re-prefixed with the
      assistant prefix the request carried, giving back the whole JSON object. */
  function ReadClassification(raw: RawRecord): (r: Result<ResultLine, ResultError>)
    ensures r.Ok? ==> |r.value.json| >= |JsonStart| && r.value.json[..|JsonStart|] == JsonStart
  {
    ReadResult(raw, JsonStart)
  }

  /** The result line of a request reads back as the assistant prefix the request itself
      carried, followed by the model's continuation. */
  lemma ReadClassificationCompletesPrefix(level: string, id: nat, prompt: string, text: string)
    requires id >= 1
    ensures var req := RecordFor(id, SystemMessage(level), prompt, JsonStart);
      var raw := RawRecord(Some(req.recordId), Some(RawOutput(Some([RawContent(Some(text))]))));
      ReadClassification(raw) == Ok(ResultLine(id, req.ModelInput().messages[1].content[0].text + text))
  {
    ReadResultOfRecord(id, text, [], JsonStart);
  }

  /** `update_database(cur, result)`: for "issues" only `issue_id`, for any other level
      `topic_id` and `hard_news`; a missing label becomes `-1`, a missing hard-news flag
      `NULL`. An unknown record id changes no row. */
  method UpdateDatabase(table: SegmentTable, level: string, line: ResultLine, output: ModelOutput)
    requires table.Valid()
    modifies table
    ensures table.Valid() && table.otherId == old(table.otherId)
    ensures level == "issues" ==>
      && table.issueId == (if line.recordId in table.ids then old(table.issueId)[line.recordId := Some(Sentinel(output.issue))] else old(table.issueId))
      && table.topicId == old(table.topicId) && table.hardNews == old(table.hardNews)
    ensures level != "issues" ==>
      && table.topicId == (if line.recordId in table.ids then old(table.topicId)[line.recordId := Some(Sentinel(output.topic))] else old(table.topicId))
      && table.hardNews == (if line.recordId in table.ids then old(table.hardNews)[line.recordId := output.hardNews] else old(table.hardNews))
      && table.issueId == old(table.issueId)
  {
    if level == "issues" {
      var _ := table.SetIssue(line.recordId, Some(Sentinel(output.issue)));
    } else {
      var _ := table.SetTopic(line.recordId, Some(Sentinel(output.topic)), output.hardNews);
    }
  }
}
