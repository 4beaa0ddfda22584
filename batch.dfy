/** The Bedrock batch path that `classify.py` and `other.py` share: every prompt becomes
    a JSON-lines record keyed by the zero-padded segment id, the records are uploaded in
    chunks of at most 50,000, and each line of the batch output is read back into a
    record id and the model's JSON text. */
module Batch {

  import opened Wrappers
  import opened Text
  import opened Usage
  import opened Utils
  import opened Aws

  const ChunkSize: nat := 50000
  const RecordIdWidth: nat := 11

  /** `f"{segment['id']:011}"`: the segment id zero-padded to eleven digits. */
  function RecordId(id: nat): (s: string)
    ensures |s| >= RecordIdWidth && AllDigits(s)
  {
    Digits(id, RecordIdWidth)
  }

  /** `int(record_id.lstrip("0"))`: `None` is the `ValueError` of `int` on what is left. */
  function ParseRecordId(s: string): (r: Option<nat>)
    ensures r.Some? <==> LStripChar(s, '0') != [] && AllDigits(LStripChar(s, '0'))
  {
    ParseNat(LStripChar(s, '0'))
  }

  lemma {:induction false} LStripRepeat(k: nat, s: string)
    requires s == [] || s[0] != '0'
    ensures LStripChar(Repeat('0', k) + s, '0') == s
    decreases k
  {
    if k > 0 {
      assert (Repeat('0', k) + s)[1..] == Repeat('0', k - 1) + s;
      LStripRepeat(k - 1, s);
    } else {
      assert Repeat('0', 0) + s == s;
    }
  }

  lemma PadIsRepeat(n: nat, width: nat)
    ensures Digits(n, width) == Repeat('0', |Digits(n, width)| - |NatStr(n)|) + NatStr(n)
  {
    var s := NatStr(n);
    if |s| < width {
      assert Digits(n, width) == Repeat('0', width - |s|) + s;
    } else {
      assert Repeat('0', 0) + s == s;
    }
  }

  /** Every positive id survives the trip through its record id, however many digits it
      has; id 0 pads to all zeros, which strip to the empty string, a `ValueError`. */
  lemma RecordIdRoundTrip(id: nat)
    ensures id >= 1 ==> ParseRecordId(RecordId(id)) == Some(id)
    ensures id == 0 ==> ParseRecordId(RecordId(id)) == None
  {
    var s := NatStr(id);
    PadIsRepeat(id, RecordIdWidth);
    if id >= 1 {
      LStripRepeat(|RecordId(id)| - |s|, s);
      ParseNatStr(id);
    } else {
      assert s == "0";
      assert RecordId(0) == Repeat('0', |RecordId(0)|);
      assert Repeat('0', |RecordId(0)|) + "" == Repeat('0', |RecordId(0)|);
      LStripRepeat(|RecordId(0)|, "");
    }
  }

  /** `prompts[:50000]`, `prompts[50000:]`, repeated while anything is left. */
  function Chunks<T>(xs: seq<T>): seq<seq<T>>
    decreases |xs|
  {
    if xs == [] then [] else if |xs| <= ChunkSize then [xs] else [xs[..ChunkSize]] + Chunks(xs[ChunkSize..])
  }

  function Flatten<T>(chunks: seq<seq<T>>): seq<T> {
    if chunks == [] then [] else chunks[0] + Flatten(chunks[1..])
  }

  /** The chunks, in order, make up the whole list; each holds 1 to 50,000 items and all
      but the last exactly 50,000. */
  lemma {:induction false} ChunksPartition<T>(xs: seq<T>)
    ensures Flatten(Chunks(xs)) == xs
    ensures |Chunks(xs)| == (|xs| + ChunkSize - 1) / ChunkSize
    ensures forall k :: 0 <= k < |Chunks(xs)| ==> 1 <= |Chunks(xs)[k]| <= ChunkSize
    ensures forall k :: 0 <= k < |Chunks(xs)| - 1 ==> |Chunks(xs)[k]| == ChunkSize
    decreases |xs|
  {
    if |xs| > ChunkSize {
      var rest := xs[ChunkSize..];
      ChunksPartition(rest);
      assert Chunks(xs)[1..] == Chunks(rest);
      assert xs == xs[..ChunkSize] + rest;
    }
  }

  /** `f"{prefix}{i:03}.jsonl"`: the S3 key of chunk `i`. */
  function ChunkKey(prefix: string, i: nat): string {
    prefix + Digits(i, 3) + ".jsonl"
  }

  lemma DigitsValueOfDigits(n: nat, width: nat)
    ensures DigitsValue(Digits(n, width)) == n
  {
    PadIsRepeat(n, width);
    LeadingZeros(NatStr(n), |Digits(n, width)| - |NatStr(n)|);
    DigitsValueOfNatStr(n);
  }

  /** Distinct chunks go to distinct keys, so no upload overwrites another. */
  lemma ChunkKeysDistinct(prefix: string, i: nat, j: nat)
    requires ChunkKey(prefix, i) == ChunkKey(prefix, j)
    ensures i == j
  {
    var a, b := ChunkKey(prefix, i), ChunkKey(prefix, j);
    assert Digits(i, 3) == a[|prefix|..|a| - 6];
    assert Digits(j, 3) == b[|prefix|..|b| - 6];
    DigitsValueOfDigits(i, 3);
    DigitsValueOfDigits(j, 3);
  }

  datatype Upload<T> = Upload(key: string, body: seq<T>)

  /** The `while prompts` loop: chunk `i` is uploaded under `ChunkKey(prefix, i)` until
      the first upload S3 rejects (`ClientError`, given here as the set `rejected` of
      chunk numbers), after which the loop stops. */
  method UploadChunks<T>(prompts: seq<T>, prefix: string, rejected: set<nat>) returns (sent: seq<Upload<T>>)
    ensures |sent| <= |Chunks(prompts)|
    ensures forall k :: 0 <= k < |sent| ==> k !in rejected && sent[k] == Upload(ChunkKey(prefix, k), Chunks(prompts)[k])
    ensures |sent| < |Chunks(prompts)| ==> |sent| in rejected
  {
    var rest := prompts;
    var i := 0;
    ghost var done: seq<seq<T>> := [];
    sent := [];
    while rest != []
      invariant Chunks(prompts) == done + Chunks(rest)
      invariant i == |sent| == |done|
      invariant forall k :: 0 <= k < i ==> k !in rejected && sent[k] == Upload(ChunkKey(prefix, k), done[k])
      decreases |rest|
    {
      ghost var before := rest;
      var chunk := if |rest| <= ChunkSize then rest else rest[..ChunkSize];
      rest := if |rest| <= ChunkSize then [] else rest[ChunkSize..];
      assert Chunks(before) == [chunk] + Chunks(rest);
      if i in rejected {
        assert Chunks(prompts)[i] == chunk;
        return;
      }
      sent := sent + [Upload(ChunkKey(prefix, i), chunk)];
      done := done + [chunk];
      i := i + 1;
    }
  }

  /** `sum((len(system) + len(prompt) + len("{") + 4) // 5 for prompt in prompts)`. */
  function TokenTotal(system: string, prompts: seq<string>): nat {
    if prompts == [] then 0
    else TokenTotal(system, prompts[..|prompts| - 1]) + EstimateTokens(|system| + |prompts[|prompts| - 1]| + 1)
  }

  lemma TokenTotalAppend(system: string, prompts: seq<string>, p: string)
    ensures TokenTotal(system, prompts + [p]) == TokenTotal(system, prompts) + EstimateTokens(|system| + |p| + 1)
  {
    assert (prompts + [p])[..|prompts|] == prompts;
  }

  /** The characters the estimate counts: system message, prompt and the `{` prefix,
      for every prompt. */
  function CharTotal(system: string, prompts: seq<string>): nat {
    if prompts == [] then 0
    else CharTotal(system, prompts[..|prompts| - 1]) + |system| + |prompts[|prompts| - 1]| + 1
  }

  /** The total rounds each prompt up to whole tokens of five characters: it never
      undercounts the characters sent, and overcounts by at most four characters a prompt. */
  lemma {:induction false} TokenTotalBounds(system: string, prompts: seq<string>)
    ensures CharTotal(system, prompts) <= 5 * TokenTotal(system, prompts) <= CharTotal(system, prompts) + 4 * |prompts|
    decreases |prompts|
  {
    if prompts != [] {
      var init := prompts[..|prompts| - 1];
      TokenTotalBounds(system, init);
      var e := EstimateTokens(|system| + |prompts[|prompts| - 1]| + 1);
      assert 5 * e <= |system| + |prompts[|prompts| - 1]| + 5;
    }
  }

  /** The characters counted are the prompts' own plus one system message and one `{`
      per prompt. */
  lemma {:induction false} CharTotalIsSum(system: string, prompts: seq<string>)
    ensures CharTotal(system, prompts) == SumLengths(prompts) + |prompts| * (|system| + 1)
    decreases |prompts|
  {
    if prompts != [] {
      var init := prompts[..|prompts| - 1];
      var last := prompts[|prompts| - 1];
      CharTotalIsSum(system, init);
      SumLengthsAppend(init, last);
      assert prompts == init + [last];
      MulSucc(|init|, |system| + 1);
    }
  }

  lemma MulSucc(n: nat, a: nat)
    ensures (n + 1) * a == n * a + a
  {
  }

  lemma {:induction false} SumLengthsAppend(parts: seq<string>, x: string)
    ensures SumLengths(parts + [x]) == SumLengths(parts) + |x|
    decreases |parts|
  {
    if parts != [] {
      assert (parts + [x])[1..] == parts[1..] + [x];
      SumLengthsAppend(parts[1..], x);
    }
  }

  /** A line of the JSON-lines input: `{"recordId": ..., "modelInput": ...}`. */
  datatype BatchRecord = BatchRecord(recordId: string, system: string, prompt: string, jsonStart: string) {
    /** The `modelInput` of the line: the request `format_payload` builds. */
    function ModelInput(): Payload {
      FormatPayload(system, prompt, 1.0, jsonStart)
    }
  }

  /** The record sent for the item with id `id` and prompt `prompt`. */
  function RecordFor(id: nat, system: string, prompt: string, jsonStart: string): BatchRecord {
    BatchRecord(RecordId(id), system, prompt, jsonStart)
  }

  /** The records for the first `|prompts|` ids and the given prompts, in order. */
  function RecordsFor(ids: seq<nat>, prompts: seq<string>, system: string, jsonStart: string): (records: seq<BatchRecord>)
    requires |prompts| <= |ids|
    ensures |records| == |prompts|
  {
    if prompts == [] then []
    else RecordsFor(ids, prompts[..|prompts| - 1], system, jsonStart)
         + [RecordFor(ids[|prompts| - 1], system, prompts[|prompts| - 1], jsonStart)]
  }

  lemma {:induction false} RecordsForAt(ids: seq<nat>, prompts: seq<string>, system: string, jsonStart: string, k: nat)
    requires |prompts| <= |ids| && k < |prompts|
    ensures RecordsFor(ids, prompts, system, jsonStart)[k] == RecordFor(ids[k], system, prompts[k], jsonStart)
    decreases |prompts|
  {
    if k < |prompts| - 1 {
      RecordsForAt(ids, prompts[..|prompts| - 1], system, jsonStart, k);
    }
  }

  lemma RecordsForSnoc(ids: seq<nat>, done: seq<string>, system: string, jsonStart: string, p: string)
    requires |done| < |ids|
    ensures RecordsFor(ids, done + [p], system, jsonStart)
         == RecordsFor(ids, done, system, jsonStart) + [RecordFor(ids[|done|], system, p, jsonStart)]
  {
    assert (done + [p])[..|done|] == done;
  }

  lemma RecordsForAll(ids: seq<nat>, prompts: seq<string>, system: string, jsonStart: string)
    requires |ids| == |prompts|
    ensures forall k :: 0 <= k < |ids| ==>
      RecordsFor(ids, prompts, system, jsonStart)[k] == RecordFor(ids[k], system, prompts[k], jsonStart)
  {
    forall k | 0 <= k < |ids|
      ensures RecordsFor(ids, prompts, system, jsonStart)[k] == RecordFor(ids[k], system, prompts[k], jsonStart)
    {
      RecordsForAt(ids, prompts, system, jsonStart, k);
    }
  }

  /** The state of the loop of `GenerateRecords` after the prompts `done`: they are the
      first prompts, all `Ok`, and the records and the token total are theirs. */
  ghost predicate Generated<E>(ids: seq<nat>, prompts: seq<Result<string, E>>, done: seq<string>,
                               records: seq<BatchRecord>, tokens: nat, system: string, jsonStart: string)
  {
    && |done| <= |ids| && |done| <= |prompts|
    && (forall k :: 0 <= k < |done| ==> prompts[k] == Ok(done[k]))
    && tokens == TokenTotal(system, done)
    && records == RecordsFor(ids, done, system, jsonStart)
  }

  lemma GeneratedStep<E>(ids: seq<nat>, prompts: seq<Result<string, E>>, done: seq<string>,
                         records: seq<BatchRecord>, tokens: nat, system: string, jsonStart: string)
    requires Generated(ids, prompts, done, records, tokens, system, jsonStart)
    requires |done| < |ids| && |done| < |prompts| && prompts[|done|].Ok?
    ensures var p := prompts[|done|].value;
      Generated(ids, prompts, done + [p], records + [RecordFor(ids[|done|], system, p, jsonStart)],
                tokens + EstimateTokens(|system| + |p| + 1), system, jsonStart)
  {
    var p := prompts[|done|].value;
    RecordsForSnoc(ids, done, system, jsonStart, p);
    TokenTotalAppend(system, done, p);
  }

  /** The values of a list of results that are all `Ok`. */
  function Values<E>(results: seq<Result<string, E>>): (values: seq<string>)
    requires forall k :: 0 <= k < |results| ==> results[k].Ok?
    ensures |values| == |results|
    ensures forall k :: 0 <= k < |results| ==> values[k] == results[k].value
  {
    seq(|results|, k requires 0 <= k < |results| => results[k].value)
  }

  /** The first loop of `generate_prompts`, shared by both scripts: item `k` has id
      `ids[k]` and prompt `prompts[k]` (`Err` stands for the `KeyError` building it
      raises). One record per item, in order, carrying the request for its prompt, and the
      running token estimate; the first failing prompt ends the loop. */
  method GenerateRecords<E>(ids: seq<nat>, prompts: seq<Result<string, E>>, system: string, jsonStart: string)
    returns (r: Result<(seq<BatchRecord>, nat), E>)
    requires |ids| == |prompts|
    ensures r.Ok? <==> forall k :: 0 <= k < |prompts| ==> prompts[k].Ok?
    ensures r.Err? ==> exists k :: 0 <= k < |prompts| && prompts[k] == Err(r.error)
    ensures r.Ok? ==>
      && |r.value.0| == |ids|
      && (forall k :: 0 <= k < |ids| ==> r.value.0[k] == RecordFor(ids[k], system, Values(prompts)[k], jsonStart))
      && r.value.1 == TokenTotal(system, Values(prompts))
  {
    var records: seq<BatchRecord> := [];
    var tokens: nat := 0;
    ghost var done: seq<string> := [];
    for i := 0 to |ids|
      invariant |done| == i
      invariant Generated(ids, prompts, done, records, tokens, system, jsonStart)
    {
      var prompt := prompts[i];
      if prompt.Err? {
        return Err(prompt.error);
      }
      GeneratedStep(ids, prompts, done, records, tokens, system, jsonStart);
      records := records + [RecordFor(ids[i], system, prompt.value, jsonStart)];
      tokens := tokens + EstimateTokens(|system| + |prompt.value| + 1);
      done := done + [prompt.value];
    }
    assert done == Values(prompts);
    RecordsForAll(ids, done, system, jsonStart);
    r := Ok((records, tokens));
  }

  /** One item of `modelOutput.content` in a result line; a missing key is `None`. */
  datatype RawContent = RawContent(text: Option<string>)
  datatype RawOutput = RawOutput(content: Option<seq<RawContent>>)
  /** A decoded result line; a missing key is `None`. */
  datatype RawRecord = RawRecord(recordId: Option<string>, modelOutput: Option<RawOutput>)

  datatype ResultError =
    | MissingRecordId  // `KeyError` on `recordId`: raised before the `try`, not converted
    | BadRecordId      // `ValueError` from `int` on the stripped id
    | MissingKey       // `KeyError` in the output, re-raised as `ValueError("Missing key ...")`
    | NoContent        // `IndexError` on `content[0]`: not converted

  /** A result line read back: the segment id and the JSON text handed to `parse_raw`. */
  datatype ResultLine = ResultLine(recordId: nat, json: string)

  /** `ModelResult.__init__` up to `parse_raw`: the id is read first, then the text of the
      first content item, re-prefixed with `prefix`. */
  function ReadResult(raw: RawRecord, prefix: string): (r: Result<ResultLine, ResultError>)
    ensures raw.recordId.None? ==> r == Err(MissingRecordId)
    ensures raw.recordId.Some? && ParseRecordId(raw.recordId.value).None? ==> r == Err(BadRecordId)
    ensures r.Ok? <==>
      && raw.recordId.Some? && ParseRecordId(raw.recordId.value).Some?
      && raw.modelOutput.Some? && raw.modelOutput.value.content.Some?
      && raw.modelOutput.value.content.value != [] && raw.modelOutput.value.content.value[0].text.Some?
    ensures r.Ok? ==>
      && r.value.recordId == ParseRecordId(raw.recordId.value).value
      && r.value.json == prefix + raw.modelOutput.value.content.value[0].text.value
  {
    match raw.recordId
    case None => Err(MissingRecordId)
    case Some(rid) =>
      match ParseRecordId(rid)
      case None => Err(BadRecordId)
      case Some(id) =>
        match raw.modelOutput
        case None => Err(MissingKey)
        case Some(out) =>
          match out.content
          case None => Err(MissingKey)
          case Some(items) =>
            if items == [] then Err(NoContent)
            else match items[0].text
              case None => Err(MissingKey)
              case Some(t) => Ok(ResultLine(id, prefix + t))
  }

  /** A line Bedrock wrote for the record of segment `id >= 1`, whose model output starts
      with `text`, reads back as that id and `prefix + text`. */
  lemma ReadResultOfRecord(id: nat, text: string, rest: seq<RawContent>, prefix: string)
    requires id >= 1
    ensures ReadResult(RawRecord(Some(RecordId(id)), Some(RawOutput(Some([RawContent(Some(text))] + rest)))), prefix)
         == Ok(ResultLine(id, prefix + text))
  {
    RecordIdRoundTrip(id);
  }
}
