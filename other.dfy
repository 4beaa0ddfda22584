/** `other.py`: classifying hard-news segments that match no issue into one of 17 fixed
    "other" topics, by chat or through the Bedrock batch path, into `segments.other_id`. */
module Other {

  import opened Wrappers
  import opened Text
  import opened Aws
  import opened Batch
  import opened Scripts

  const SystemMessage: string := "\nHere is a list of topics:\n1.  Business news: Stock market reports, mergers and acquisitions, SEC investigations,\n    stock buybacks, strikes and labor issues, etc.\n2.  Government procedure: Presidential, congressional, and judicial appointments,\n    recesses, vacations, resumptions, etc.\n3.  Foreign politics: Foreign elections, diplomatic events, and other \U{201C}peaceful\U{201D}\n    political news from foreign countries.\n4.  Corruption: Reports of government and private corruption, financial scams and\n    racketeering, and bribery.\n5.  Foreign turmoil: Riots, terror attacks, crises, and disorder in foreign countries.\n6.  Natural Disasters: Extreme weather (hurricanes, floods, tornadoes, typhoons,\n    blizzards, etc.), earthquakes, volcanic eruptions, wildfires, landslides and\n    avalanches, etc.\n7.  Notices: Memorials, anniversaries, dedications, especially military; deaths, health\n    status, and retirements of elder statesmen, celebrities, etc.\n8.  Trials: High profile criminal and occasionally civil trials.\n9.  Crime: Reports of murders and other violent crimes, shootouts, prison breaks,\n    kidnappings, whereabouts of serial killers, etc.\n10. Weather: Conventional weather reports for different parts of the US.\n11. Transportation Disasters: Plane crashes, train derailments, barges crashing, ferries\n    sinking, etc.\n12. Medical and Health News: New drugs and medical technology, medical and public health\n    research, disease outbreaks, etc.\n13. Manmade Disasters: Oil spills, toxic dumping, industrial accidents, fires.\n14. Animal attacks: Shark attacks, sting ray attacks, bear attacks, etc.\n15. The Pope: Papal visits, encyclicals, etc.\n16. The Queen / British Royal Family: Royal weddings, births, deaths, scandals, etc.\n17. Space Program: Shuttle launches, new space technology, reports on probes, landers,\n    etc.\n\nYour job is to categorize what topics different news segments cover. You should respond\nwith a JSON object as follows:\n```json\n{\n    \"explanation\": str,\n    \"topic\": int,\n}\n```\nThe `explanation` field should be a brief explanation of which topic is the best fit for\nthe news segment, as well as an explanation of whether that topic is a good fit for the\nparticular news segment or not. If the news segment does not fit any of the topics you\nhave been provided, you should respond with `null`. The `topic` field should be the\nnumber of the issue that best fits the news segment.\n"

  /** The assistant prefix of every request. */
  const JsonStart: string := "{\"explanation\": \""

  /** The number of topics the system message lists. */
  const TopicCount: int := 17

  /** A row of the segments query: the date is the stored text. */
  datatype OtherSegment = OtherSegment(id: nat, date: string, title: string, summary: string)

  /** `f"{date} {title}\n\n{abstract}"`, the same in both paths. */
  function Prompt(s: OtherSegment): string {
    s.date + " " + s.title + "\n\n" + s.summary
  }

  /** `ModelOutput` as parsed. */
  datatype ModelOutput = ModelOutput(explanation: Option<string>, topic: Option<int>)

  /** What the chat path writes for a parsed topic: nothing (`None`) for a topic outside
      1..17, `-1` for no topic, otherwise the topic. */
  function ChatLabel(topic: Option<int>): (stored: Option<int>)
    ensures stored.None? <==> topic.Some? && !(1 <= topic.value <= TopicCount)
    ensures stored.Some? ==> (stored.value == -1 <==> topic.None?)
    ensures stored.Some? && topic.Some? ==> stored.value == topic.value && 1 <= stored.value <= TopicCount
  {
    if topic.Some? && !(1 <= topic.value <= TopicCount) then None else Some(Sentinel(topic))
  }

  /** `chat(segment)`: one call with the segment's prompt; a parsed reply whose topic is
      absent or in 1..17 is stored (`-1` for absent), anything else stores nothing. */
  method Chat(table: SegmentTable, segment: OtherSegment, reply: Reply<ModelOutput>) returns (call: ChatCall)
    requires table.Valid()
    modifies table
    ensures table.Valid() && call == ChatCall(Prompt(segment), 1.0, JsonStart)
    ensures var chosen := if reply.Parsed? then ChatLabel(reply.value.topic) else None;
      table.otherId == if chosen.Some? && segment.id in table.ids then old(table.otherId)[segment.id := chosen] else old(table.otherId)
    ensures table.issueId == old(table.issueId) && table.topicId == old(table.topicId) && table.hardNews == old(table.hardNews)
  {
    call := ChatCall(Prompt(segment), 1.0, JsonStart);
    if !reply.Parsed? {
      return;
    }
    var chosen := ChatLabel(reply.value.topic);
    if chosen.None? {
      return;
    }
    var _ := table.SetOther(segment.id, chosen);
  }

  function OtherIds(segments: seq<OtherSegment>): (ids: seq<nat>)
    ensures |ids| == |segments| && forall k :: 0 <= k < |segments| ==> ids[k] == segments[k].id
  {
    seq(|segments|, k requires 0 <= k < |segments| => segments[k].id)
  }

  /** Building a prompt here cannot fail. */
  function OtherPrompts(segments: seq<OtherSegment>): (prompts: seq<Result<string, ()>>)
    ensures |prompts| == |segments| && forall k :: 0 <= k < |segments| ==> prompts[k] == Ok(Prompt(segments[k]))
  {
    seq(|segments|, k requires 0 <= k < |segments| => Ok(Prompt(segments[k])))
  }

  /** `generate_prompts` up to the upload: one record per segment, in order, and the
      token estimate over all prompts. */
  method GeneratePrompts(segments: seq<OtherSegment>) returns (records: seq<BatchRecord>, tokens: nat)
    ensures |records| == |segments|
    ensures forall k :: 0 <= k < |segments| ==>
      records[k] == RecordFor(segments[k].id, SystemMessage, Prompt(segments[k]), JsonStart)
    ensures tokens == TokenTotal(SystemMessage, Values(OtherPrompts(segments)))
  {
    var r := GenerateRecords(OtherIds(segments), OtherPrompts(segments), SystemMessage, JsonStart);
    assert r.Ok?;
    records, tokens := r.value.0, r.value.1;
  }

  /** The S3 key prefix of the chunks: `input/prompts_`. */
  const ChunkPrefix: string := "input/prompts_"

  /** `ModelResult(line)` up to `parse_raw`, as written: only `{` is put back in front of
      the model text, although the request prefilled `{"explanation": "`. */
  function ReadOtherAsWritten(raw: RawRecord): (r: Result<ResultLine, ResultError>)
    ensures r.Ok? ==> |r.value.json| >= 1 && r.value.json[0] == '{'
  {
    ReadResult(raw, "{")
  }

  /** As written, the text handed to `parse_raw` is `{` followed directly by the model's
      continuation of the explanation string: the key `"explanation": "` the request
      prefilled is missing, so the second character is the explanation's first character
      rather than the quote a JSON key starts with. */
  lemma ReadOtherAsWrittenLosesKey(id: nat, prompt: string, text: string)
    requires id >= 1 && text != [] && text[0] != '"'
    ensures var req := RecordFor(id, SystemMessage, prompt, JsonStart);
      var raw := RawRecord(Some(req.recordId), Some(RawOutput(Some([RawContent(Some(text))]))));
      && ReadOtherAsWritten(raw) == Ok(ResultLine(id, "{" + text))
      && ("{" + text)[1] != '"'
      && ReadOtherAsWritten(raw).value.json != req.ModelInput().messages[1].content[0].text + text
  {
    ReadResultOfRecord(id, text, [], "{");
    var wrong := "{" + text;
    var right := JsonStart + text;
    assert wrong[1] == text[0];
    assert right[1] == '"';
  }

  /** As intended, `ModelResult(line)` puts the whole prefill back, as `classify.py` does:
      the text handed to `parse_raw` is the assistant prefill of the request followed by
      the model's continuation, the whole JSON object the model wrote. */
  lemma ReadOtherCompletesPrefix(id: nat, prompt: string, text: string)
    requires id >= 1
    ensures var req := RecordFor(id, SystemMessage, prompt, JsonStart);
      var raw := RawRecord(Some(req.recordId), Some(RawOutput(Some([RawContent(Some(text))]))));
      ReadResult(raw, JsonStart) == Ok(ResultLine(id, req.ModelInput().messages[1].content[0].text + text))
  {
    ReadResultOfRecord(id, text, [], JsonStart);
  }

  /** What `update_database` writes as written: the parsed topic as it is, `NULL` for
      none and with no range check. */
  function BatchLabelAsWritten(topic: Option<int>): (stored: Option<int>)
    ensures stored == topic
  {
    topic
  }

  /** What `update_database` evidently should write: `-1` for no topic, as the chat path
      and `classify.py`'s batch path do. */
  function BatchLabel(topic: Option<int>): (stored: Option<int>)
    ensures stored.Some?
    ensures stored.value == -1 <==> topic.None? || topic.value == -1
  {
    Some(Sentinel(topic))
  }

  /** As written, a batch result without a topic leaves `other_id` `NULL`, the mark of an
      unclassified segment that the selection query (`other_id IS NULL`) sends again,
      while the chat path marks the same answer `-1`. The two paths agree on every topic
      in 1..17. */
  lemma BatchAndChatLabels(topic: Option<int>)
    ensures topic.None? ==> BatchLabelAsWritten(topic) == None && ChatLabel(topic) == Some(-1)
    ensures topic.None? ==> BatchLabel(topic) == ChatLabel(topic)
    ensures topic.Some? && 1 <= topic.value <= TopicCount ==>
      BatchLabelAsWritten(topic) == ChatLabel(topic) == BatchLabel(topic)
  {
  }

  /** `update_database(cur, result)` with the corrected label: writes `other_id` of the
      result's segment; an unknown id changes no row. */
  method UpdateDatabase(table: SegmentTable, line: ResultLine, output: ModelOutput)
    requires table.Valid()
    modifies table
    ensures table.Valid()
    ensures table.otherId == if line.recordId in table.ids then old(table.otherId)[line.recordId := BatchLabel(output.topic)] else old(table.otherId)
    ensures table.issueId == old(table.issueId) && table.topicId == old(table.topicId) && table.hardNews == old(table.hardNews)
  {
    var _ := table.SetOther(line.recordId, BatchLabel(output.topic));
  }
}
