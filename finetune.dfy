/** `fine_tune_events.py`: the fine-tuning data for the classification model. Each JSONL
    line is a three-message chat (system, user, assistant) whose prompt lists the topics,
    the year's issues and a group of segments, and whose answer is the segments' stored
    labels. A split fraction divides the groups into training and testing files. */
module FineTune {

  import opened Wrappers
  import opened Text
  import Classify

  const SystemMessage: string := "You categorize news items by the issues they cover and the topics they discuss.\nYou should respond with a JSON object as follows:\n```json\n{\n    \"results:[\n        {\"id\": int, \"issue\": int | null, \"topic\": int | null, \"hard_news\": bool}\n    ]\n}\n```\nHere `id` is the id of the corresponding news item, `issue` is the issue number, and\n`topic` is the topic number in the list of issues and topics provided. If more than one\nlisted issue or topic could fit a given news item, choose the one that is most relevant\nor most important. If no listed issue or topic fits, set the value to `null`. If the\nnews item is hard news (e.g., politics, economics, crime), set `hard_news` to `true`;\notherwise, set it to `false`."

  /** The line closing every segment in the prompt. */
  const Delimiter: string := "===================="

  /** A segment row as `SELECT *` returns it: the labels are the stored columns, `NULL`
      as `None`; `hard_news` is the integer SQLite keeps for a boolean. */
  datatype LabelledSegment = LabelledSegment(
    id: int, outlet: string, title: string, summary: string,
    issueId: Option<int>, topicId: Option<int>, hardNews: Option<int>)

  /** One segment in the prompt: `({id}) {outlet}`, the title, the abstract, the delimiter. */
  function SegmentBlock(s: LabelledSegment): string {
    "(" + IntStr(s.id) + ") " + s.outlet + "\n" + s.title + ":\n" + s.summary + "\n" + Delimiter + "\n"
  }

  /** Every block opens with the segment's id and closes with the delimiter line. */
  lemma SegmentBlockShape(s: LabelledSegment)
    ensures var b := SegmentBlock(s);
      var opening := "(" + IntStr(s.id) + ") ";
      var closing := "\n" + Delimiter + "\n";
      && |b| >= |opening| + |closing|
      && b[..|opening|] == opening
      && b[|b| - |closing|..] == closing
  {
    var opening := "(" + IntStr(s.id) + ") ";
    var closing := "\n" + Delimiter + "\n";
    ConcatEnds(opening, s.outlet + "\n" + s.title + ":\n" + s.summary, closing);
    assert SegmentBlock(s) == opening + (s.outlet + "\n" + s.title + ":\n" + s.summary) + closing;
  }

  function SegmentBlocks(segments: seq<LabelledSegment>): (blocks: seq<string>)
    ensures |blocks| == |segments|
    ensures forall k :: 0 <= k < |segments| ==> blocks[k] == SegmentBlock(segments[k])
  {
    seq(|segments|, k requires 0 <= k < |segments| => SegmentBlock(segments[k]))
  }

  const TopicsHeader: string := "Topics:\n"
  const IssuesHeader: string := "\n\nIssues:\n"
  const SegmentsHeader: string := "\n\nNews Segments:\n"

  /** The prompt text from its three listings. */
  function PromptText(topicLines: seq<string>, issueLines: seq<string>, blocks: seq<string>): string {
    TopicsHeader + Join("\n", topicLines) + IssuesHeader + Join("\n", issueLines) + SegmentsHeader + Join("\n\n", blocks)
  }

  /** `get_prompt(segments, year)`: `ISSUES[year]` raises `KeyError` for a year outside
      the loaded ones. */
  function GetPrompt(catalog: Classify.Catalog, segments: seq<LabelledSegment>, year: int): (r: Result<string, Classify.PromptError>)
    ensures r.Err? <==> year !in catalog.issues
    ensures r.Err? ==> r.error == Classify.NoIssuesForYear(year)
  {
    if year !in catalog.issues then Err(Classify.NoIssuesForYear(year))
    else Ok(PromptText(Classify.RowLines(catalog.topics), Classify.RowLines(catalog.issues[year]), SegmentBlocks(segments)))
  }

  /** The sections come in the order topics, issues, segments, each header exactly where
      the previous section ends, and the segments close the prompt. */
  lemma PromptSections(topicLines: seq<string>, issueLines: seq<string>, blocks: seq<string>)
    ensures var p := PromptText(topicLines, issueLines, blocks);
      var issuesAt := |TopicsHeader| + |Join("\n", topicLines)|;
      var segmentsAt := issuesAt + |IssuesHeader| + |Join("\n", issueLines)|;
      && OccursAt(p, TopicsHeader, 0)
      && OccursAt(p, IssuesHeader, issuesAt)
      && OccursAt(p, SegmentsHeader, segmentsAt)
      && 0 < issuesAt < segmentsAt
      && p[segmentsAt + |SegmentsHeader|..] == Join("\n\n", blocks)
  {
    SixParts(TopicsHeader, Join("\n", topicLines), IssuesHeader, Join("\n", issueLines), SegmentsHeader, Join("\n\n", blocks));
  }


  /** The prompt shows every segment block. */
  lemma PromptShowsSegments(topicLines: seq<string>, issueLines: seq<string>, blocks: seq<string>, k: nat)
    requires k < |blocks|
    ensures Contains(PromptText(topicLines, issueLines, blocks), blocks[k])
  {
    JoinContains("\n\n", blocks, k);
    ContainsInConcat(TopicsHeader + Join("\n", topicLines) + IssuesHeader + Join("\n", issueLines) + SegmentsHeader,
                     Join("\n\n", blocks), blocks[k]);
  }

  /** `json.dumps` of an integer or `None`. */
  function JsonInt(v: Option<int>): (s: string)
    ensures s == "null" <==> v.None?
  {
    if v.None? then "null"
    else
      var s := IntStr(v.value);
      assert s[0] == '-' || IsDigit(s[0]);
      s
  }

  /** `json.dumps` of one `{id, issue, topic, hard_news}` object, with the default
      separators. */
  function LabelObject(s: LabelledSegment): string {
    "{\"id\": " + IntStr(s.id) + ", \"issue\": " + JsonInt(s.issueId)
    + ", \"topic\": " + JsonInt(s.topicId) + ", \"hard_news\": " + JsonInt(s.hardNews) + "}"
  }

  function LabelObjects(segments: seq<LabelledSegment>): (objects: seq<string>)
    ensures |objects| == |segments|
  {
    MapSeq(LabelObject, segments)
  }

  /** The assistant's answer: the JSON list of the segments' labels. */
  function Labels(segments: seq<LabelledSegment>): string {
    "[" + Join(", ", LabelObjects(segments)) + "]"
  }

  /** The answer lists the labels in row order: the labels of a run of segments followed
      by another are the first run's labels, then the second's, in one list. */
  lemma LabelsInOrder(a: seq<LabelledSegment>, b: seq<LabelledSegment>)
    requires a != [] && b != []
    ensures Labels(a + b) == Labels(a)[..|Labels(a)| - 1] + ", " + Labels(b)[1..]
  {
    var ja := Join(", ", LabelObjects(a));
    var jb := Join(", ", LabelObjects(b));
    MapSeqConcat(LabelObject, a, b);
    JoinConcat(", ", LabelObjects(a), LabelObjects(b));
    DropEnds("[", ja, "]");
    DropEnds("[", jb, "]");
    assert Labels(a + b) == "[" + (ja + ", " + jb) + "]";
    Regroup("[", ja, ", ", jb, "]");
  }

  lemma Regroup(a: string, b: string, c: string, d: string, e: string)
    ensures a + (b + c + d) + e == (a + b) + c + (d + e)
  {
  }

  lemma DropEnds(open: string, s: string, close: string)
    requires |open| == 1 && |close| == 1
    ensures (open + s + close)[..|open + s + close| - 1] == open + s
    ensures (open + s + close)[1..] == s + close
  {
  }

  /** The answer shows every segment's label object. */
  lemma LabelsShowAll(segments: seq<LabelledSegment>, k: nat)
    requires k < |segments|
    ensures Contains(Labels(segments), LabelObject(segments[k]))
  {
    MapSeqAt(LabelObject, segments, k);
    JoinContains(", ", LabelObjects(segments), k);
    ContainsInConcat("[", Join(", ", LabelObjects(segments)), LabelObject(segments[k]));
    ContainsInConcat("]", "[" + Join(", ", LabelObjects(segments)), LabelObject(segments[k]));
  }

  datatype Message = Message(role: string, content: string)

  /** One JSONL line: the prompt and the answer of a fine-tuning chat. */
  datatype Payload = Payload(prompt: string, answer: string)
  {
    /** `payload["messages"]`: exactly three turns, system, user and assistant. */
    function Messages(): (m: seq<Message>)
      ensures |m| == 3
      ensures m[0].role == "system" && m[1].role == "user" && m[2].role == "assistant"
      ensures m[0].content == SystemMessage && m[1].content == prompt && m[2].content == answer
    {
      [Message("system", SystemMessage), Message("user", prompt), Message("assistant", answer)]
    }
  }

  /** `generate_jsonl(segment_ids, year)` on the fetched rows: the prompt as the user turn
      and the labels as the assistant turn. */
  function GenerateJsonl(catalog: Classify.Catalog, segments: seq<LabelledSegment>, year: int): (r: Result<Payload, Classify.PromptError>)
    ensures r.Err? <==> year !in catalog.issues
    ensures r.Err? ==> r.error == Classify.NoIssuesForYear(year)
    ensures r.Ok? ==> r.value.prompt == GetPrompt(catalog, segments, year).value && r.value.answer == Labels(segments)
  {
    var prompt :- GetPrompt(catalog, segments, year);
    Ok(Payload(prompt, Labels(segments)))
  }

  // ---------------------------------------------------------------------------------
  // The split

  /** A line of the ids file: a group of segment ids and their year. */
  datatype Entry = Entry(ids: seq<int>, year: int)

  /** `int(split * len(segment_ids))` for a split in (0, 1]: the training count, at most
      the number of groups and all of them for a split of 1. */
  function SplitPoint(split: real, n: nat): (k: nat)
    requires 0.0 < split <= 1.0
    ensures k <= n
    ensures k as real <= split * n as real < k as real + 1.0
    ensures split == 1.0 ==> k == n
  {
    assert split * n as real <= 1.0 * n as real by {
      assert (1.0 - split) * n as real >= 0.0;
    }
    (split * n as real).Floor
  }

  /** `main` up to the files: the split is validated, each line of the ids file is read
      with `parse` (standing for `json.loads`, `None` where it raises), and the groups are
      divided at the split point. */
  method SplitEntries(split: real, lines: seq<string>, parse: string -> Option<Entry>)
    returns (r: Result<(seq<Entry>, seq<Entry>), string>)
    ensures r.Err? <==> !(0.0 < split <= 1.0) || exists k :: 0 <= k < |lines| && parse(lines[k]).None?
    ensures r.Ok? ==>
      && |r.value.0| + |r.value.1| == |lines|
      && (forall k :: 0 <= k < |lines| ==> parse(lines[k]) == Some((r.value.0 + r.value.1)[k]))
      && |r.value.0| == SplitPoint(split, |lines|)
  {
    if !(0.0 < split <= 1.0) {
      return Err("The split must be a number between 0 and 1.");
    }
    var entries: seq<Entry> := [];
    for i := 0 to |lines|
      invariant |entries| == i
      invariant forall k :: 0 <= k < i ==> parse(lines[k]) == Some(entries[k])
    {
      var obj := parse(lines[i]);
      if obj.None? {
        return Err("JSONDecodeError");
      }
      entries := entries + [obj.value];
    }
    var k := SplitPoint(split, |entries|);
    assert entries[..k] + entries[k..] == entries;
    r := Ok((entries[..k], entries[k..]));
  }

  /** The loop writing one file: a line per group in order, stopping at the first group
      whose year has no issues (the `KeyError` ends the script, the lines before it
      already written). `fetched[k]` is the rows `SELECT *` returns for group `k`. */
  method WriteLines(catalog: Classify.Catalog, entries: seq<Entry>, fetched: seq<seq<LabelledSegment>>)
    returns (lines: seq<Payload>, error: Option<Classify.PromptError>)
    requires |fetched| == |entries|
    ensures |lines| <= |entries|
    ensures forall k :: 0 <= k < |lines| ==> GenerateJsonl(catalog, fetched[k], entries[k].year) == Ok(lines[k])
    ensures error.None? <==> |lines| == |entries|
    ensures error.Some? ==> entries[|lines|].year !in catalog.issues && error == Some(Classify.NoIssuesForYear(entries[|lines|].year))
  {
    lines := [];
    for i := 0 to |entries|
      invariant |lines| == i
      invariant forall k :: 0 <= k < i ==> GenerateJsonl(catalog, fetched[k], entries[k].year) == Ok(lines[k])
    {
      var payload := GenerateJsonl(catalog, fetched[i], entries[i].year);
      if payload.Err? {
        return lines, Some(payload.error);
      }
      lines := lines + [payload.value];
    }
    error := None;
  }
}
