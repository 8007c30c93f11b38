/**
 * The client of the LLM aggregation API: the model listing and the streaming
 * chat-completion relay.
 *
 * The relay reads the response body one decoded read at a time, splits each
 * read on '\n', keeps the lines that start with `data: `, skips the `[DONE]`
 * sentinel and frames whose JSON does not parse, and hands every non-empty
 * `choices[0].delta.content` to the caller's callback while accumulating it.
 * `JSON.parse` followed by the `choices[0]?.delta?.content` lookup is the
 * uninterpreted `parse` parameter; the network is the `HttpReply` value.
 */
module OpenRouter {
  import opened Wrappers
  import opened Strings

  // ---------------------------------------------------------------- models

  /** An entry of the listing's `data` array; a missing or non-string `pricing.prompt` is None. */
  datatype ListedModel = ListedModel(id: string, name: string, pricingPrompt: Option<string>)

  /** A model as the client keeps it. */
  datatype Model = Model(id: string, name: string, isFree: bool)

  /**
   * `fetchModels`: the listing mapped entry by entry; a failed request or a
   * malformed reply (None) gives the empty list.
   */
  function FetchModels(listing: Option<seq<ListedModel>>): (models: seq<Model>)
    ensures listing.None? ==> models == []
    ensures listing.Some? ==> |models| == |listing.value|
    ensures listing.Some? ==> forall i :: 0 <= i < |models| ==>
      models[i].id == listing.value[i].id && models[i].name == listing.value[i].name &&
      (models[i].isFree <==> listing.value[i].pricingPrompt == Some("0"))
  {
    match listing
    case None => []
    case Some(data) => DescribeAll(data)
  }

  function DescribeAll(data: seq<ListedModel>): (models: seq<Model>)
    ensures |models| == |data|
    ensures forall i :: 0 <= i < |data| ==>
      models[i] == Model(data[i].id, data[i].name, data[i].pricingPrompt == Some("0"))
  {
    if data == [] then []
    else [Model(data[0].id, data[0].name, data[0].pricingPrompt == Some("0"))] + DescribeAll(data[1..])
  }

  // ------------------------------------------------------- request assembly

  /** A `{role, content}` message of the completion request. */
  datatype ApiMessage = ApiMessage(role: string, content: string)

  /** The JSON body of the completion request. */
  datatype ChatRequest = ChatRequest(model: string, messages: seq<ApiMessage>, stream: bool)

  /**
   * The fixed instruction that opens the system message, with the template
   * literal's leading newline and indentation. It is followed by the two
   * characters `/n` (a slash and an n, not a newline) and the caller's prompt.
   */
  const TitleInstruction: string :=
    "\n          Your primary role is to assist with the user's information needs. "
    + "**But first, you MUST establish a clear 'TITLE:' for the current chat context\n          "

  /** One system message, then the caller's messages in their order. */
  function OutgoingMessages(messages: seq<ApiMessage>, systemPrompt: Option<string>): (out: seq<ApiMessage>)
    ensures |out| == |messages| + 1
    ensures out[1..] == messages
    ensures out[0].role == "system"
    ensures StartsWith(out[0].content, TitleInstruction + "/n")
    ensures out[0].content[|TitleInstruction| + 2..] == systemPrompt.GetOr("")
  {
    [ApiMessage("system", TitleInstruction + "/n" + systemPrompt.GetOr(""))] + messages
  }

  // ------------------------------------------------------------- framing

  /** What `JSON.parse(data).choices[0]?.delta?.content` yields for a frame payload. */
  datatype ParsedFrame =
    | Malformed            // JSON.parse or the `choices[0]` lookup throws
    | NoContent            // the lookup gives undefined
    | Content(text: string)

  const DataPrefix := "data: "
  const DoneSentinel := "[DONE]"
  const FailedResponse := "Failed to get response from model"

  /** The delta a single line contributes: only a `data: ` line with a truthy content. */
  function FrameDelta(line: string, parse: string -> ParsedFrame): (delta: Option<string>)
    ensures delta.Some? ==> StartsWith(line, DataPrefix) && line[|DataPrefix|..] != DoneSentinel
    ensures delta.Some? ==> delta.value != "" && parse(line[|DataPrefix|..]) == Content(delta.value)
    ensures StartsWith(line, DataPrefix) && line[|DataPrefix|..] != DoneSentinel &&
            parse(line[|DataPrefix|..]).Content? && parse(line[|DataPrefix|..]).text != "" ==>
      delta == Some(parse(line[|DataPrefix|..]).text)
  {
    if !StartsWith(line, DataPrefix) then None
    else
      var data := line[|DataPrefix|..];
      if data == DoneSentinel then None
      else match parse(data)
        case Content(text) => if text != "" then Some(text) else None
        case _ => None
  }

  function AsList(delta: Option<string>): seq<string>
  {
    if delta.Some? then [delta.value] else []
  }

  /** The results of `frame` on each of `items`, concatenated in order. */
  function Flatten(items: seq<string>, frame: string -> seq<string>): seq<string>
  {
    if items == [] then []
    else Flatten(items[..|items| - 1], frame) + frame(items[|items| - 1])
  }

  /** The framing of one line: its delta, if any, as a list. */
  function LineFraming(parse: string -> ParsedFrame): string -> seq<string>
  {
    line => AsList(FrameDelta(line, parse))
  }

  /** The deltas of a sequence of lines, in line order. */
  function LineDeltas(lines: seq<string>, parse: string -> ParsedFrame): seq<string>
  {
    Flatten(lines, LineFraming(parse))
  }

  /** The deltas of one decoded read, split on '\n' on its own. */
  function ReadDeltas(text: string, parse: string -> ParsedFrame): seq<string>
  {
    LineDeltas(SplitLines(text), parse)
  }

  /** The framing of one read, as a function of the read's text. */
  function ReadFraming(parse: string -> ParsedFrame): string -> seq<string>
  {
    text => ReadDeltas(text, parse)
  }

  /** The deltas of a sequence of decoded reads, in read order. */
  function StreamDeltas(texts: seq<string>, parse: string -> ParsedFrame): seq<string>
  {
    Flatten(texts, ReadFraming(parse))
  }

  lemma FlattenStep(items: seq<string>, item: string, frame: string -> seq<string>)
    ensures Flatten(items + [item], frame) == Flatten(items, frame) + frame(item)
  {
    assert (items + [item])[..|items|] == items;
  }

  lemma {:induction false} FlattenAppend(a: seq<string>, b: seq<string>, frame: string -> seq<string>)
    ensures Flatten(a + b, frame) == Flatten(a, frame) + Flatten(b, frame)
    decreases |b|
  {
    if b == [] {
      assert a + b == a;
    } else {
      var n := |b| - 1;
      assert a + b == (a + b[..n]) + [b[n]];
      assert b == b[..n] + [b[n]];
      FlattenAppend(a, b[..n], frame);
      FlattenStep(a + b[..n], b[n], frame);
      FlattenStep(b[..n], b[n], frame);
    }
  }

  /** An item that frames to nothing can be dropped. */
  lemma FlattenSkip(before: seq<string>, item: string, after: seq<string>, frame: string -> seq<string>)
    requires frame(item) == []
    ensures Flatten(before + [item] + after, frame) == Flatten(before, frame) + Flatten(after, frame)
  {
    FlattenAppend(before + [item], after, frame);
    FlattenStep(before, item, frame);
  }

  lemma {:induction false} FlattenNonEmpty(items: seq<string>, frame: string -> seq<string>)
    requires forall item :: "" !in frame(item)
    ensures "" !in Flatten(items, frame)
    decreases |items|
  {
    if items != [] {
      FlattenNonEmpty(items[..|items| - 1], frame);
    }
  }

  lemma LineDeltasStep(lines: seq<string>, j: nat, parse: string -> ParsedFrame)
    requires j < |lines|
    ensures LineDeltas(lines[..j + 1], parse) == LineDeltas(lines[..j], parse) + AsList(FrameDelta(lines[j], parse))
  {
    assert lines[..j + 1] == lines[..j] + [lines[j]];
    FlattenStep(lines[..j], lines[j], LineFraming(parse));
  }

  /**
   * A line that is not a `data: ` line, is the `[DONE]` sentinel, fails to
   * parse or carries no truthy content contributes no delta.
   */
  lemma IgnoredLineHasNoDelta(line: string, parse: string -> ParsedFrame)
    requires !StartsWith(line, DataPrefix) || line[|DataPrefix|..] == DoneSentinel
          || !parse(line[|DataPrefix|..]).Content? || parse(line[|DataPrefix|..]).text == ""
    ensures FrameDelta(line, parse) == None
  {
  }

  /** A line without a delta is skipped: the lines around it are processed as if it were absent. */
  lemma IgnoredLineIsSkipped(before: seq<string>, line: string, after: seq<string>, parse: string -> ParsedFrame)
    requires FrameDelta(line, parse) == None
    ensures LineDeltas(before + [line] + after, parse) == LineDeltas(before, parse) + LineDeltas(after, parse)
  {
    FlattenSkip(before, line, after, LineFraming(parse));
  }

  /** Reads are framed independently: the deltas of a stream are those of its reads, in order. */
  lemma StreamDeltasAppend(a: seq<string>, b: seq<string>, parse: string -> ParsedFrame)
    ensures StreamDeltas(a + b, parse) == StreamDeltas(a, parse) + StreamDeltas(b, parse)
  {
    FlattenAppend(a, b, ReadFraming(parse));
  }

  /** Every delta handed to the callback is a non-empty string. */
  lemma StreamDeltasNonEmpty(texts: seq<string>, parse: string -> ParsedFrame)
    ensures "" !in StreamDeltas(texts, parse)
  {
    forall line ensures "" !in LineFraming(parse)(line) {
    }
    forall text ensures "" !in ReadFraming(parse)(text) {
      FlattenNonEmpty(SplitLines(text), LineFraming(parse));
    }
    FlattenNonEmpty(texts, ReadFraming(parse));
  }

  /** A read made of newline-free lines joined by '\n' yields the deltas of those lines. */
  lemma ReadOfLines(lines: seq<string>, parse: string -> ParsedFrame)
    requires |lines| >= 1
    requires forall line :: line in lines ==> '\n' !in line
    ensures ReadDeltas(Join(lines, "\n"), parse) == LineDeltas(lines, parse)
  {
    SplitLinesJoin(lines);
  }

  /** A parser that understands only the payload `{}`, whose content is "hi". */
  function ParseOnlyEmptyObject(payload: string): ParsedFrame
  {
    if payload == "{}" then Content("hi") else Malformed
  }

  /** The deltas of a read holding one line without a newline. */
  lemma OneLineRead(line: string, parse: string -> ParsedFrame)
    requires '\n' !in line
    ensures ReadDeltas(line, parse) == AsList(FrameDelta(line, parse))
  {
    SplitLinesOfLine(line);
    LineDeltasStep([line], 0, parse);
    assert [line][..0] == [] && [line][..1] == [line];
  }

  /** The frame `data: {}` in a single read yields its delta. */
  lemma WholeFrameIsRelayed()
    ensures StreamDeltas(["data: {}"], ParseOnlyEmptyObject) == ["hi"]
  {
    assert "data: {}"[|DataPrefix|..] == "{}";
    assert FrameDelta("data: {}", ParseOnlyEmptyObject) == Some("hi");
    OneLineRead("data: {}", ParseOnlyEmptyObject);
    StreamDeltasStep([], "data: {}", ParseOnlyEmptyObject);
    assert [] + ["data: {}"] == ["data: {}"];
  }

  /**
   * No text is carried over between reads: the same frame split across two
   * reads is seen as two fragments, neither of which parses, and its delta
   * is lost.
   */
  lemma SplitFrameIsLost()
    ensures StreamDeltas(["data: {", "}"], ParseOnlyEmptyObject) == []
  {
    assert "data: {"[|DataPrefix|..] == "{";
    assert !StartsWith("}", DataPrefix);
    OneLineRead("data: {", ParseOnlyEmptyObject);
    OneLineRead("}", ParseOnlyEmptyObject);
    StreamDeltasStep([], "data: {", ParseOnlyEmptyObject);
    StreamDeltasStep(["data: {"], "}", ParseOnlyEmptyObject);
    assert [] + ["data: {"] == ["data: {"];
    assert ["data: {"] + ["}"] == ["data: {", "}"];
  }

  // ---------------------------------------------------------------- relay

  /** One `reader.read()`: a decoded piece of the body, or a rejected read. */
  datatype ReadStep = Received(text: string) | ReadFailed

  /** What `fetch` gives: a network failure, or a reply with its `ok` flag and readable body (if any). */
  datatype HttpReply = NetworkError | Reply(ok: bool, body: Option<seq<ReadStep>>)

  /** Whether the relay gets as far as reading the body. */
  predicate Streams(reply: HttpReply)
  {
    reply.Reply? && reply.ok && reply.body.Some?
  }

  /** The position of the first rejected read, or the number of reads. */
  function FirstReadFailure(steps: seq<ReadStep>): (k: nat)
    ensures k <= |steps|
    ensures forall j :: 0 <= j < k ==> steps[j].Received?
    ensures k < |steps| ==> steps[k].ReadFailed?
  {
    if steps == [] || steps[0].ReadFailed? then 0 else 1 + FirstReadFailure(steps[1..])
  }

  /** The texts of a run of successful reads. */
  function ReceivedTexts(steps: seq<ReadStep>): (texts: seq<string>)
    requires forall j :: 0 <= j < |steps| ==> steps[j].Received?
    ensures |texts| == |steps|
  {
    if steps == [] then [] else ReceivedTexts(steps[..|steps| - 1]) + [steps[|steps| - 1].text]
  }

  lemma StreamDeltasStep(texts: seq<string>, text: string, parse: string -> ParsedFrame)
    ensures StreamDeltas(texts + [text], parse) == StreamDeltas(texts, parse) + ReadDeltas(text, parse)
  {
    FlattenStep(texts, text, ReadFraming(parse));
  }

  lemma ReceivedTextsStep(steps: seq<ReadStep>, i: nat)
    requires i < |steps|
    requires forall j :: 0 <= j <= i ==> steps[j].Received?
    ensures ReceivedTexts(steps[..i + 1]) == ReceivedTexts(steps[..i]) + [steps[i].text]
  {
    assert steps[..i + 1][..i] == steps[..i];
  }

  /** The deltas of the reads before the first rejected one, in order. */
  function RelayedDeltas(steps: seq<ReadStep>, parse: string -> ParsedFrame): seq<string>
  {
    StreamDeltas(ReceivedTexts(steps[..FirstReadFailure(steps)]), parse)
  }

  /**
   * What the relay has produced after the reads before `i`, all successful:
   * the accumulated text and the callback arguments.
   */
  predicate RelayedPrefix(steps: seq<ReadStep>, i: nat, parse: string -> ParsedFrame, hasCallback: bool,
                          fullResponse: string, calls: seq<string>)
  {
    i <= |steps| && (forall j :: 0 <= j < i ==> steps[j].Received?) &&
    var deltas := StreamDeltas(ReceivedTexts(steps[..i]), parse);
    fullResponse == Concat(deltas) && calls == (if hasCallback then deltas else [])
  }

  /** One more successful read appends its text and its callback arguments. */
  lemma RelayAdvances(steps: seq<ReadStep>, i: nat, parse: string -> ParsedFrame, hasCallback: bool,
                      fullResponse: string, calls: seq<string>, added: string, addedCalls: seq<string>)
    requires RelayedPrefix(steps, i, parse, hasCallback, fullResponse, calls)
    requires i < |steps| && steps[i].Received?
    requires added == Concat(ReadDeltas(steps[i].text, parse))
    requires addedCalls == if hasCallback then ReadDeltas(steps[i].text, parse) else []
    ensures RelayedPrefix(steps, i + 1, parse, hasCallback, fullResponse + added, calls + addedCalls)
  {
    var before := ReceivedTexts(steps[..i]);
    ReceivedTextsStep(steps, i);
    StreamDeltasStep(before, steps[i].text, parse);
    ConcatAppend(StreamDeltas(before, parse), ReadDeltas(steps[i].text, parse));
    if !hasCallback {
      assert calls + addedCalls == [];
    }
  }

  /** The relay stops at the first rejected read, or after the last read. */
  lemma RelayStops(steps: seq<ReadStep>, i: nat, parse: string -> ParsedFrame, hasCallback: bool,
                   fullResponse: string, calls: seq<string>)
    requires RelayedPrefix(steps, i, parse, hasCallback, fullResponse, calls)
    requires i < |steps| ==> steps[i].ReadFailed?
    ensures FirstReadFailure(steps) == i
    ensures calls == if hasCallback then RelayedDeltas(steps, parse) else []
    ensures fullResponse == Concat(RelayedDeltas(steps, parse))
  {
  }

  /**
   * One pass of the `for (const line of lines)` loop over a decoded read:
   * the text appended to `fullResponse` and the `onStream` calls made.
   */
  method RelayRead(text: string, parse: string -> ParsedFrame, hasCallback: bool)
    returns (added: string, calls: seq<string>)
    ensures added == Concat(ReadDeltas(text, parse))
    ensures calls == if hasCallback then ReadDeltas(text, parse) else []
  {
    var lines := SplitLines(text);
    added, calls := "", [];
    var j := 0;
    while j < |lines|
      invariant 0 <= j <= |lines|
      invariant added == Concat(LineDeltas(lines[..j], parse))
      invariant calls == if hasCallback then LineDeltas(lines[..j], parse) else []
    {
      var line := lines[j];
      ghost var done := LineDeltas(lines[..j], parse);
      LineDeltasStep(lines, j, parse);
      ghost var delta := FrameDelta(line, parse);
      if delta.None? {
        assert done + AsList(delta) == done;
      }
      if StartsWith(line, DataPrefix) {
        var data := line[|DataPrefix|..];
        if data != DoneSentinel {
          var parsed := parse(data);
          if parsed.Content? && parsed.text != "" {
            ConcatPush(done, parsed.text);
            added := added + parsed.text;
            if hasCallback {
              calls := calls + [parsed.text];
            }
          }
        }
      }
      j := j + 1;
    }
    assert lines[..j] == lines;
  }

  /** The reading loop of `sendChatMessage`, over the reads of one response body. */
  method RelayBody(steps: seq<ReadStep>, parse: string -> ParsedFrame, hasCallback: bool)
    returns (result: Result<string, string>, calls: seq<string>)
    ensures calls == if hasCallback then RelayedDeltas(steps, parse) else []
    ensures result == if FirstReadFailure(steps) < |steps| then Failure(FailedResponse)
                      else Success(Concat(RelayedDeltas(steps, parse)))
  {
    calls := [];
    var fullResponse := "";
    var i := 0;
    while i < |steps|
      invariant RelayedPrefix(steps, i, parse, hasCallback, fullResponse, calls)
    {
      if steps[i].ReadFailed? {
        RelayStops(steps, i, parse, hasCallback, fullResponse, calls);
        return Failure(FailedResponse), calls;
      }
      var added, addedCalls := RelayRead(steps[i].text, parse, hasCallback);
      RelayAdvances(steps, i, parse, hasCallback, fullResponse, calls, added, addedCalls);
      fullResponse := fullResponse + added;
      calls := calls + addedCalls;
      i := i + 1;
    }
    RelayStops(steps, i, parse, hasCallback, fullResponse, calls);
    result := Success(fullResponse);
  }

  /**
   * `sendChatMessage`. Returns the request it sends, its outcome (the full
   * text, or the one error it ever throws) and the arguments of the
   * `onStream` calls in call order (none when there is no callback).
   */
  method SendChatMessage(model: string, messages: seq<ApiMessage>, systemPrompt: Option<string>,
                         reply: HttpReply, parse: string -> ParsedFrame, hasCallback: bool)
    returns (request: ChatRequest, result: Result<string, string>, calls: seq<string>)
    ensures request == ChatRequest(model, OutgoingMessages(messages, systemPrompt), true)
    ensures result.Failure? ==> result.error == FailedResponse
    ensures !Streams(reply) ==> result.Failure? && calls == []
    ensures Streams(reply) ==>
      calls == (if hasCallback then RelayedDeltas(reply.body.value, parse) else []) &&
      result == (if FirstReadFailure(reply.body.value) < |reply.body.value| then Failure(FailedResponse)
                 else Success(Concat(RelayedDeltas(reply.body.value, parse))))
  {
    request := ChatRequest(model, OutgoingMessages(messages, systemPrompt), true);
    if !Streams(reply) {
      return request, Failure(FailedResponse), [];
    }
    result, calls := RelayBody(reply.body.value, parse, hasCallback);
  }
}
