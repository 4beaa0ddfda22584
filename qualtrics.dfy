/** The validation survey of `qualtrics.py`. It covers the answer choices of the topic
    and issue questions, the questions of one segment block, the randomised survey flow,
    the number of segments sampled and of participants to recruit, and the typed
    confirmation that guards deleting a survey. The Qualtrics API is not modelled: the ids
    it hands back are parameters, and the model records what the script sends. */
module Qualtrics {

  import opened Wrappers
  import opened Text

  const ClassificationsPerSegment: nat := 10
  const SegmentsToSample: nat := 100
  const SegmentsPerParticipant: nat := 3

  /** The closing choice of the topic questions and of the issue questions. */
  const NoTopic := "No topic matches this abstract."
  const NoIssue := "This abstract does not match any of the issues."

  // ---------------------------------------------------------------------------------
  // Answer choices

  /** The text of the choice at position `i`, counting from 0: the `i`-th title, or the
      closing "none of these" choice after the last title. */
  function Display(titles: seq<string>, other: string, i: nat): string
    requires i <= |titles|
  {
    if i < |titles| then titles[i] else other
  }

  /** `choices` and `choice_order` of a multiple-choice question over `titles`: the ids
      are "1" to "n+1" in order, id `i+1` shows `Display(titles, other, i)`, and
      `choices` has no other key. */
  predicate IsChoiceList(titles: seq<string>, other: string, choices: map<string, string>, order: seq<string>) {
    && |order| == |titles| + 1
    && (forall i :: 0 <= i < |order| ==>
          order[i] == NatStr(i + 1) && order[i] in choices && choices[order[i]] == Display(titles, other, i))
    && (forall k :: k in choices ==> k in order)
  }

  /** The loop that numbers the titles from 1 and then adds the "none of these" choice. */
  method BuildChoices(titles: seq<string>, other: string) returns (choices: map<string, string>, order: seq<string>)
    ensures IsChoiceList(titles, other, choices, order)
  {
    choices := map[];
    order := [];
    var i := 0;
    while i < |titles|
      invariant 0 <= i <= |titles|
      invariant |order| == i
      invariant forall j :: 0 <= j < i ==>
        order[j] == NatStr(j + 1) && order[j] in choices && choices[order[j]] == titles[j]
      invariant forall k :: k in choices ==> k in order
    {
      var id := NatStr(i + 1);
      forall j | 0 <= j < i
        ensures order[j] != id
      {
        if order[j] == id {
          NatStrInjective(j + 1, i + 1);
        }
      }
      choices := choices[id := titles[i]];
      order := order + [id];
      i := i + 1;
    }
    var otherId := NatStr(|titles| + 1);
    forall j | 0 <= j < i
      ensures order[j] != otherId
    {
      if order[j] == otherId {
        NatStrInjective(j + 1, i + 1);
      }
    }
    choices := choices[otherId := other];
    order := order + [otherId];
  }

  /** No id is listed twice, so there are exactly n+1 choices. */
  lemma ChoiceIdsDistinct(titles: seq<string>, other: string, choices: map<string, string>, order: seq<string>)
    requires IsChoiceList(titles, other, choices, order)
    ensures forall i, j :: 0 <= i < j < |order| ==> order[i] != order[j]
  {
    forall i, j | 0 <= i < j < |order|
      ensures order[i] != order[j]
    {
      if order[i] == order[j] {
        NatStrInjective(i + 1, j + 1);
      }
    }
  }

  /** An answer recorded by the survey is a choice id. Read back with `int`, id `v`
      names the `v`-th title, and id n+1 names the "none of these" choice. */
  lemma ChoiceAnswer(titles: seq<string>, other: string, choices: map<string, string>, order: seq<string>, answer: string)
    requires IsChoiceList(titles, other, choices, order)
    requires answer in choices
    ensures ParseNat(answer).Some?
    ensures 1 <= ParseNat(answer).value <= |titles| + 1
    ensures choices[answer] == Display(titles, other, ParseNat(answer).value - 1)
  {
    assert answer in order;
    var i :| 0 <= i < |order| && order[i] == answer;
    ParseNatStr(i + 1);
  }

  // ---------------------------------------------------------------------------------
  // One segment block

  /** `ForceResponse` "ON" or "OFF", or the empty validation of a text display. */
  datatype Validation = ForceOn | ForceOff | NoValidation

  datatype QuestionType =
    | Descriptive  // `"QuestionType": "DB"`: rendered text, no answer
    | MultipleChoice(choices: map<string, string>, order: seq<string>)

  /** A question as posted to a block. Its HTML text comes from a template and is left out. */
  datatype Question = Question(exportTag: string, qtype: QuestionType, validation: Validation)

  /** The quota that hides a block once enough participants have classified its segment. */
  datatype Quota = Quota(block: string, occurrences: nat)

  function ExportTag(segmentId: int, part: string): string {
    "segment_" + IntStr(segmentId) + "_" + part
  }

  const HardNews := "Hard News (e.g., politics, economics, crime)"
  const SoftNews := "Soft News (e.g., entertainment, sports, human interest)"

  /** The questions `_add_segment_block` posts for a segment, in order: the abstract, hard
      or soft news, the topics, the primary and secondary topic, then, when the year has
      issues, the issues and the primary and secondary issue. Without issues for the year
      the block stops after the five topic questions. */
  ghost predicate IsSegmentBlock(questions: seq<Question>, segmentId: int, year: string, topics: seq<string>,
                                 issues: map<string, seq<string>>)
  {
    && |questions| == (if year in issues then 8 else 5)
    && questions[0] == Question(ExportTag(segmentId, "abstract"), Descriptive, NoValidation)
    && questions[1] == Question(ExportTag(segmentId, "news_type"),
                                MultipleChoice(map["1" := HardNews, "2" := SoftNews], ["1", "2"]), ForceOn)
    && questions[2] == Question(ExportTag(segmentId, "topics"), Descriptive, NoValidation)
    && questions[3].exportTag == ExportTag(segmentId, "topic_primary")
    && questions[4].exportTag == ExportTag(segmentId, "topic_secondary")
    && questions[3].qtype.MultipleChoice? && questions[4].qtype == questions[3].qtype
    && IsChoiceList(topics, NoTopic, questions[3].qtype.choices, questions[3].qtype.order)
    && questions[3].validation == ForceOn && questions[4].validation == ForceOff
    && (year in issues ==>
          && questions[5] == Question(ExportTag(segmentId, "issues"), Descriptive, NoValidation)
          && questions[6].exportTag == ExportTag(segmentId, "issue_primary")
          && questions[7].exportTag == ExportTag(segmentId, "issue_secondary")
          && questions[6].qtype.MultipleChoice? && questions[7].qtype == questions[6].qtype
          && IsChoiceList(issues[year], NoIssue, questions[6].qtype.choices, questions[6].qtype.order)
          && questions[6].validation == ForceOn && questions[7].validation == ForceOff)
  }

  /** `_add_segment_block`. The questions are posted in order, then the quota. The issues
      of the segment's year are looked up after the topic questions are posted. A year
      with no entry raises `KeyError` there, so only five questions are posted and no
      quota. */
  method AddSegmentBlock(blockId: string, segmentId: int, year: string, topics: seq<string>,
                         issues: map<string, seq<string>>)
    returns (questions: seq<Question>, quota: Option<Quota>)
    ensures IsSegmentBlock(questions, segmentId, year, topics, issues)
    ensures quota.Some? <==> year in issues
    ensures quota.Some? ==> quota.value == Quota(blockId, ClassificationsPerSegment)
  {
    questions := [Question(ExportTag(segmentId, "abstract"), Descriptive, NoValidation)];
    var newsType := MultipleChoice(map["1" := HardNews, "2" := SoftNews], ["1", "2"]);
    questions := questions + [Question(ExportTag(segmentId, "news_type"), newsType, ForceOn)];
    questions := questions + [Question(ExportTag(segmentId, "topics"), Descriptive, NoValidation)];
    var choices, order := BuildChoices(topics, NoTopic);
    var topicQuestion := MultipleChoice(choices, order);
    questions := questions + [Question(ExportTag(segmentId, "topic_primary"), topicQuestion, ForceOn)];
    questions := questions + [Question(ExportTag(segmentId, "topic_secondary"), topicQuestion, ForceOff)];
    if year !in issues {
      return questions, None;
    }
    questions := questions + [Question(ExportTag(segmentId, "issues"), Descriptive, NoValidation)];
    choices, order := BuildChoices(issues[year], NoIssue);
    var issueQuestion := MultipleChoice(choices, order);
    questions := questions + [Question(ExportTag(segmentId, "issue_primary"), issueQuestion, ForceOn)];
    questions := questions + [Question(ExportTag(segmentId, "issue_secondary"), issueQuestion, ForceOff)];
    quota := Some(Quota(blockId, ClassificationsPerSegment));
  }

  // ---------------------------------------------------------------------------------
  // Survey flow

  datatype FlowNode =
    | BlockNode(id: string, flowId: string)
    | EndSurvey(flowId: string)
    | Branch(flowId: string, questionId: string, flow: seq<FlowNode>)
    | Randomizer(flowId: string, subset: nat, evenPresentation: bool, flow: seq<FlowNode>)

  /** The `Root` flow and its `Properties.Count`. */
  datatype SurveyFlow = SurveyFlow(flowId: string, flow: seq<FlowNode>, count: nat)

  /** The number of flow elements, nested ones included. */
  function Size(flow: seq<FlowNode>): nat
    decreases flow, 1
  {
    if flow == [] then 0 else NodeSize(flow[0]) + Size(flow[1..])
  }

  function NodeSize(node: FlowNode): nat
    decreases node, 0
  {
    match node
    case Branch(_, _, sub) => 1 + Size(sub)
    case Randomizer(_, _, _, sub) => 1 + Size(sub)
    case _ => 1
  }

  /** Qualtrics block ids: "BL_" and a suffix without "BL_" in it. */
  ghost predicate IsBlockId(id: string) {
    |id| >= 3 && id[..3] == "BL_" && !Contains(id[3..], "BL_")
  }

  /** `f"FL_{block_id.replace('BL_', '')}"`. */
  function FlowId(blockId: string): string {
    "FL_" + RemoveAll(blockId, "BL_")
  }

  /** A block id "BL_x" gets the flow id "FL_x". */
  lemma FlowIdOfBlockId(blockId: string)
    requires IsBlockId(blockId)
    ensures FlowId(blockId) == "FL_" + blockId[3..]
  {
    RemoveAllAbsent(blockId[3..], "BL_");
  }

  /** Distinct block ids get distinct flow ids. */
  lemma FlowIdsDistinct(a: string, b: string)
    requires IsBlockId(a) && IsBlockId(b) && a != b
    ensures FlowId(a) != FlowId(b)
  {
    FlowIdOfBlockId(a);
    FlowIdOfBlockId(b);
    assert a == a[..3] + a[3..] && b == b[..3] + b[3..];
    assert a[3..] != b[3..];
    assert FlowId(a)[3..] == a[3..] && FlowId(b)[3..] == b[3..];
  }

  /** The loop of `_setup_survey_flow` that lists one block entry per segment block, in order. */
  method RandomizerFlow(blockIds: seq<string>) returns (flow: seq<FlowNode>)
    ensures |flow| == |blockIds|
    ensures forall i :: 0 <= i < |flow| ==> flow[i] == BlockNode(blockIds[i], FlowId(blockIds[i]))
    ensures Size(flow) == |blockIds|
  {
    flow := [];
    for i := 0 to |blockIds|
      invariant |flow| == i
      invariant forall j :: 0 <= j < i ==> flow[j] == BlockNode(blockIds[j], FlowId(blockIds[j]))
      invariant Size(flow) == i
    {
      SizeAppend(flow, BlockNode(blockIds[i], FlowId(blockIds[i])));
      flow := flow + [BlockNode(blockIds[i], FlowId(blockIds[i]))];
    }
  }

  lemma {:induction false} SizeAppend(flow: seq<FlowNode>, node: FlowNode)
    ensures Size(flow + [node]) == Size(flow) + NodeSize(node)
    decreases |flow|
  {
    if flow == [] {
      assert [] + [node] == [node];
      assert Size([node]) == NodeSize(node) + Size([]);
    } else {
      assert (flow + [node])[1..] == flow[1..] + [node];
      SizeAppend(flow[1..], node);
    }
  }

  /** `_setup_survey_flow`: the consent block, a branch that ends the survey without
      consent, the instructions, and a randomizer that shows `SegmentsPerParticipant` of
      the segment blocks with even presentation. `Count` is the number of flow elements. */
  method SetupSurveyFlow(blockIds: seq<string>, consentBlock: string, consentQuestion: string, introBlock: string)
    returns (root: SurveyFlow)
    ensures root.flowId == "FL_1" && |root.flow| == 4
    ensures root.flow[0] == BlockNode(consentBlock, "FL_consent")
    ensures root.flow[1] == Branch("FL_consent_branch", consentQuestion, [EndSurvey("FL_end_survey")])
    ensures root.flow[2] == BlockNode(introBlock, "FL_intro")
    ensures root.flow[3].Randomizer? && root.flow[3].flowId == "FL_rand"
    ensures root.flow[3].subset == SegmentsPerParticipant && root.flow[3].evenPresentation
    ensures |root.flow[3].flow| == |blockIds|
    ensures forall i :: 0 <= i < |blockIds| ==> root.flow[3].flow[i] == BlockNode(blockIds[i], FlowId(blockIds[i]))
    ensures root.count == Size(root.flow) == 5 + |blockIds|
  {
    var randomizer := RandomizerFlow(blockIds);
    var flow := [BlockNode(consentBlock, "FL_consent"),
                 Branch("FL_consent_branch", consentQuestion, [EndSurvey("FL_end_survey")]),
                 BlockNode(introBlock, "FL_intro"),
                 Randomizer("FL_rand", SegmentsPerParticipant, true, randomizer)];
    root := SurveyFlow("FL_1", flow, 5 + |blockIds|);
    SizeAppend([], EndSurvey("FL_end_survey"));
    assert [] + [EndSurvey("FL_end_survey")] == [EndSurvey("FL_end_survey")];
    SizeAppend([], flow[0]);
    SizeAppend(flow[..1], flow[1]);
    SizeAppend(flow[..2], flow[2]);
    SizeAppend(flow[..3], flow[3]);
    assert [] + [flow[0]] == flow[..1] && flow[..1] + [flow[1]] == flow[..2];
    assert flow[..2] + [flow[2]] == flow[..3] && flow[..3] + [flow[3]] == flow;
  }

  // ---------------------------------------------------------------------------------
  // Sampling and recruitment

  /** How many segments the survey shows. */
  function SampleSize(available: nat): (n: nat)
    ensures n <= SegmentsToSample && n <= available
    ensures n == SegmentsToSample || n == available
  {
    if available > SegmentsToSample then SegmentsToSample else available
  }

  /** Positions `random.sample` may pick: `SegmentsToSample` distinct positions of `segments`. */
  predicate IsSample<T>(segments: seq<T>, picks: seq<nat>) {
    && |picks| == SegmentsToSample
    && (forall i :: 0 <= i < |picks| ==> picks[i] < |segments|)
    && (forall i, j :: 0 <= i < j < |picks| ==> picks[i] != picks[j])
  }

  /** The segments of the survey. Above `SegmentsToSample` they are the ones at the
      randomly drawn `picks`; otherwise all of them, in order. */
  function SampleSegments<T>(segments: seq<T>, picks: seq<nat>): (kept: seq<T>)
    requires |segments| > SegmentsToSample ==> IsSample(segments, picks)
    ensures |kept| == SampleSize(|segments|)
    ensures |segments| <= SegmentsToSample ==> kept == segments
    ensures |segments| > SegmentsToSample ==> forall i :: 0 <= i < |kept| ==> kept[i] == segments[picks[i]]
  {
    if |segments| > SegmentsToSample then seq(|picks|, i requires 0 <= i < |picks| => segments[picks[i]])
    else segments
  }

  /** Distinct positions: no segment is shown twice unless it is listed twice. */
  lemma SampleDistinct<T>(segments: seq<T>, picks: seq<nat>)
    requires |segments| > SegmentsToSample && IsSample(segments, picks)
    requires forall i, j :: 0 <= i < j < |segments| ==> segments[i] != segments[j]
    ensures var kept := SampleSegments(segments, picks);
      forall i, j :: 0 <= i < j < |kept| ==> kept[i] != kept[j]
  {
    var kept := SampleSegments(segments, picks);
    forall i, j | 0 <= i < j < |kept|
      ensures kept[i] != kept[j]
    {
      assert kept[i] == segments[picks[i]] && kept[j] == segments[picks[j]];
      if picks[i] < picks[j] {
        assert segments[picks[i]] != segments[picks[j]];
      } else {
        assert segments[picks[j]] != segments[picks[i]];
      }
    }
  }

  /** The participants to recruit: every segment's classifications, shared out at
      `SegmentsPerParticipant` segments per participant and rounded down, plus ten. */
  function Participants(segments: nat): (p: nat)
    ensures (p - 10) * SegmentsPerParticipant <= segments * ClassificationsPerSegment
    ensures segments * ClassificationsPerSegment < (p - 10 + 1) * SegmentsPerParticipant
  {
    segments * ClassificationsPerSegment / SegmentsPerParticipant + 10
  }

  /** The ten spare participants cover the rounding: the recruits see enough segments for
      every segment to be classified `ClassificationsPerSegment` times, and a sampled
      survey never asks for more than 343. */
  lemma ParticipantsSuffice(available: nat)
    ensures Participants(SampleSize(available)) * SegmentsPerParticipant
            >= SampleSize(available) * ClassificationsPerSegment
    ensures Participants(SampleSize(available)) <= 343
  {
    var n := SampleSize(available);
    assert n * ClassificationsPerSegment <= 1000;
  }

  // ---------------------------------------------------------------------------------
  // Building a survey

  /** The columns of a sampled segment that the model follows; the template renders the
      rest into the abstract. `year` is `STRFTIME("%Y", date)`, a string. */
  datatype Segment = Segment(id: int, year: string)

  /** `blocks[i]` is the block of `sample[i]`, for every block posted. */
  ghost predicate SegmentBlocks(blocks: seq<seq<Question>>, sample: seq<Segment>, topics: seq<string>,
                                issues: map<string, seq<string>>)
  {
    && |blocks| <= |sample|
    && forall i :: 0 <= i < |blocks| ==> IsSegmentBlock(blocks[i], sample[i].id, sample[i].year, topics, issues)
  }

  lemma SegmentBlocksAppend(blocks: seq<seq<Question>>, questions: seq<Question>, sample: seq<Segment>,
                            topics: seq<string>, issues: map<string, seq<string>>)
    requires SegmentBlocks(blocks, sample, topics, issues) && |blocks| < |sample|
    requires IsSegmentBlock(questions, sample[|blocks|].id, sample[|blocks|].year, topics, issues)
    ensures SegmentBlocks(blocks + [questions], sample, topics, issues)
  {
    var b := blocks + [questions];
    forall i | 0 <= i < |b|
      ensures IsSegmentBlock(b[i], sample[i].id, sample[i].year, topics, issues)
    {
      if i < |blocks| {
        assert b[i] == blocks[i];
      }
    }
  }

  /** `create_survey` from the sample on. Each segment gets the block the API numbers
      `blockIds[i]`; a segment whose year has no issues raises `KeyError`, which ends the
      run before the flow is set up. */
  method CreateSurvey(sample: seq<Segment>, blockIds: seq<string>, topics: seq<string>,
                      issues: map<string, seq<string>>, consentBlock: string, consentQuestion: string,
                      introBlock: string)
    returns (blocks: seq<seq<Question>>, quotas: seq<Quota>, root: Option<SurveyFlow>)
    requires |blockIds| == |sample|
    ensures root.Some? <==> forall i :: 0 <= i < |sample| ==> sample[i].year in issues
    ensures root.Some? ==> |blocks| == |sample| && quotas == seq(|sample|, i requires 0 <= i < |sample| => Quota(blockIds[i], ClassificationsPerSegment))
    ensures root.Some? ==> root.value.count == Size(root.value.flow) == 5 + |sample|
    ensures root.Some? ==> |root.value.flow| == 4 && root.value.flow[3].Randomizer?
    ensures root.Some? ==> root.value.flow[3].flow == seq(|sample|, i requires 0 <= i < |sample| => BlockNode(blockIds[i], FlowId(blockIds[i])))
    ensures SegmentBlocks(blocks, sample, topics, issues)
    ensures root.None? ==>
      && |blocks| >= 1 && sample[|blocks| - 1].year !in issues && |blocks[|blocks| - 1]| == 5
      && forall j :: 0 <= j < |blocks| - 1 ==> sample[j].year in issues
  {
    blocks := [];
    quotas := [];
    var i := 0;
    while i < |sample|
      invariant 0 <= i <= |sample| && |blocks| == |quotas| == i
      invariant forall j :: 0 <= j < i ==> sample[j].year in issues
      invariant SegmentBlocks(blocks, sample, topics, issues)
      invariant forall j :: 0 <= j < i ==> quotas[j] == Quota(blockIds[j], ClassificationsPerSegment)
    {
      var questions, quota := AddSegmentBlock(blockIds[i], sample[i].id, sample[i].year, topics, issues);
      SegmentBlocksAppend(blocks, questions, sample, topics, issues);
      blocks := blocks + [questions];
      if quota.None? {
        return blocks, quotas, None;
      }
      quotas := quotas + [quota.value];
      i := i + 1;
    }
    var flow := SetupSurveyFlow(blockIds, consentBlock, consentQuestion, introBlock);
    root := Some(flow);
  }

  // ---------------------------------------------------------------------------------
  // Deleting a survey

  /** Eight characters drawn from the lower-case letters and the digits. */
  predicate IsConfirmation(c: string) {
    |c| == 8 && forall i :: 0 <= i < |c| ==> 'a' <= c[i] <= 'z' || IsDigit(c[i])
  }

  /** How the `DELETE` request ended. */
  datatype Response = Success | HttpError(status: int) | ConnectionFailed

  datatype Request = Delete(url: string)

  function SurveyUrl(datacenter: string, surveyId: string): string {
    "https://" + datacenter + "/API/v3/survey-definitions/" + surveyId
  }

  /** `delete_survey`. The random confirmation string and the typed line are parameters.
      Unless the stripped input matches, the result is `False` and no request is sent.
      Otherwise one `DELETE` goes out, and the result is `True` on success and `False` on
      an HTTP error. Any other failure of the request propagates as an exception (`Err`). */
  method DeleteSurvey(datacenter: string, surveyId: string, confirmation: string, typed: string, response: Response)
    returns (deleted: Result<bool, string>, sent: seq<Request>)
    requires IsConfirmation(confirmation)
    ensures sent != [] <==> Strip(typed) == confirmation
    ensures sent != [] ==> sent == [Delete(SurveyUrl(datacenter, surveyId))]
    ensures deleted == Ok(true) <==> Strip(typed) == confirmation && response == Success
    ensures deleted.Err? <==> Strip(typed) == confirmation && response == ConnectionFailed
  {
    var input := Strip(typed);
    if input != confirmation {
      return Ok(false), [];
    }
    sent := [Delete(SurveyUrl(datacenter, surveyId))];
    match response
    case Success => deleted := Ok(true);
    case HttpError(_) => deleted := Ok(false);
    case ConnectionFailed => deleted := Err("request failed");
  }

  /** How the `delete` subcommand ends: `TypeError` from a call with more arguments than
      `delete_survey` takes, or what `delete_survey` returned or raised. */
  datatype CommandOutcome = ArgumentCountError | Finished(deleted: Result<bool, string>)

  /** `cmd_delete` as written: `delete_survey(args.survey_id, args.confirm)` passes a second
      argument to a method that takes only the survey id, so the call raises `TypeError`
      before the confirmation is asked for; `--confirm`, the typed line and the response
      never matter, and no request goes out. */
  method CmdDeleteAsWritten(datacenter: string, surveyId: string, confirm: Option<string>,
                            confirmation: string, typed: string, response: Response)
    returns (outcome: CommandOutcome, sent: seq<Request>)
    requires IsConfirmation(confirmation)
    ensures outcome == ArgumentCountError && sent == []
  {
    outcome, sent := ArgumentCountError, [];
  }

  /** `cmd_delete` as intended: `delete_survey(args.survey_id)`, which asks for the
      confirmation and deletes as `DeleteSurvey` says. */
  method CmdDelete(datacenter: string, surveyId: string, confirmation: string, typed: string, response: Response)
    returns (outcome: CommandOutcome, sent: seq<Request>)
    requires IsConfirmation(confirmation)
    ensures outcome.Finished?
    ensures sent != [] <==> Strip(typed) == confirmation
    ensures sent != [] ==> sent == [Delete(SurveyUrl(datacenter, surveyId))]
    ensures outcome == Finished(Ok(true)) <==> Strip(typed) == confirmation && response == Success
  {
    var deleted;
    deleted, sent := DeleteSurvey(datacenter, surveyId, confirmation, typed, response);
    outcome := Finished(deleted);
  }

  /** Typing the confirmation exactly and getting a successful response, the subcommand as
      written still deletes nothing, where the intended call sends the one `DELETE` and
      reports success. */
  method CmdDeleteDiscrepancy(datacenter: string, surveyId: string, confirm: Option<string>, confirmation: string)
    returns (written: CommandOutcome, writtenSent: seq<Request>, intended: CommandOutcome, intendedSent: seq<Request>)
    requires IsConfirmation(confirmation)
    ensures written == ArgumentCountError && writtenSent == []
    ensures intended == Finished(Ok(true)) && intendedSent == [Delete(SurveyUrl(datacenter, surveyId))]
  {
    PaddedConfirmationAccepted("", confirmation, "");
    assert "" + confirmation + "" == confirmation;
    written, writtenSent := CmdDeleteAsWritten(datacenter, surveyId, confirm, confirmation, confirmation, Success);
    intended, intendedSent := CmdDelete(datacenter, surveyId, confirmation, confirmation, Success);
  }

  predicate AllSpace(s: string) {
    forall j :: 0 <= j < |s| ==> IsSpace(s[j])
  }

  /** The confirmation is accepted with any whitespace typed around it... */
  lemma PaddedConfirmationAccepted(pre: string, confirmation: string, post: string)
    requires IsConfirmation(confirmation)
    requires AllSpace(pre) && AllSpace(post)
    ensures Strip(pre + confirmation + post) == confirmation
  {
    StripPadded(pre, confirmation, post);
  }

  /** ... and only so: an accepted line is the confirmation with whitespace around it. */
  lemma AcceptedIsPaddedConfirmation(typed: string, confirmation: string)
    requires IsConfirmation(confirmation)
    requires Strip(typed) == confirmation
    ensures exists k :: OccursAt(typed, confirmation, k) && AllSpace(typed[..k]) && AllSpace(typed[k + 8..])
  {
    var k := LeadingSpaces(typed);
    assert OccursAt(typed, confirmation, k);
    assert AllSpace(typed[..k]) && AllSpace(typed[k + 8..]);
  }
}
