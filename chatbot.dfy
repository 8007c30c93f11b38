/**
 * The send path of the chat page: the history sent with a new message, the
 * model the page selects, the knowledge bases it offers, the two title
 * cleaners, and the `onStream` callback that splits the streamed reply into
 * a title line and the text shown while it arrives.
 */
module Chatbot {
  import opened Wrappers
  import opened Strings
  import opened Types
  import opened OpenRouter

  // ------------------------------------------------------- request history

  /** The completion-API role of a stored message: bot and custom messages are the assistant's. */
  function ApiRole(kind: MessageType): (role: string)
    ensures role == "user" <==> kind == User
    ensures role == "system" <==> kind == System
    ensures role == "assistant" <==> kind == Bot || kind == Custom
  {
    match kind
    case User => "user"
    case System => "system"
    case _ => "assistant"
  }

  /** The messages sent without a knowledge base: the chat's history, then the new input as a user message. */
  function HistoryForRequest(history: seq<Message>, userInput: string): (out: seq<ApiMessage>)
    ensures |out| == |history| + 1
    ensures forall i :: 0 <= i < |history| ==>
      out[i].content == history[i].content && out[i].role == ApiRole(history[i].kind)
    ensures out[|history|] == ApiMessage("user", userInput)
  {
    if history == [] then [ApiMessage("user", userInput)]
    else [ApiMessage(ApiRole(history[0].kind), history[0].content)] + HistoryForRequest(history[1..], userInput)
  }

  /** The system prompt of the request: the chat's own, else the user's prompt for the model, else empty. */
  function RequestSystemPrompt(chatPrompt: string, modelPrompt: Option<string>): (prompt: string)
    ensures chatPrompt != "" ==> prompt == chatPrompt
    ensures chatPrompt == "" && modelPrompt.Some? ==> prompt == modelPrompt.value
    ensures chatPrompt == "" && modelPrompt.None? ==> prompt == ""
  {
    if chatPrompt != "" then chatPrompt
    else if modelPrompt.Some? && modelPrompt.value != "" then modelPrompt.value
    else ""
  }

  // ------------------------------------------------------- model selection

  /** Whether a configured model may be used: set, not the `default` placeholder, and offered by the API. */
  predicate Usable(choice: Option<string>, models: seq<Model>)
  {
    choice.Some? && choice.value != "" && choice.value != "default" &&
    exists i :: 0 <= i < |models| && models[i].id == choice.value
  }

  /**
   * The model-selection effect. None when no model is listed (the selection
   * is then left as it was); otherwise the chat's model, else the user's
   * default model, else the first listed model.
   */
  function SelectModel(models: seq<Model>, chatModel: Option<string>, defaultModel: Option<string>): (selected: Option<string>)
    ensures models == [] <==> selected.None?
    ensures selected.Some? ==> exists i :: 0 <= i < |models| && models[i].id == selected.value
    ensures models != [] && Usable(chatModel, models) ==> selected == chatModel
    ensures models != [] && !Usable(chatModel, models) && Usable(defaultModel, models) ==> selected == defaultModel
    ensures models != [] && !Usable(chatModel, models) && !Usable(defaultModel, models) ==> selected == Some(models[0].id)
  {
    if models == [] then None
    else if Usable(chatModel, models) then chatModel
    else if Usable(defaultModel, models) then defaultModel
    else Some(models[0].id)
  }

  // ------------------------------------------------------ knowledge bases

  /** The id an entry of `knowledgeBaseIds` names. */
  function EntryId(entry: KbEntry): string
  {
    match entry
    case KbId(id) => id
    case KbObject(id) => id
  }

  /**
   * The knowledge bases a loaded chat had selected: its entries mapped to
   * ids, or none when the chat is missing or has no such list.
   */
  function KnowledgeBaseIds(chat: Option<ChatRecord>): (ids: seq<string>)
    ensures (chat.None? || chat.value.TitleOnly? || chat.value.chat.knowledgeBaseIds.None?) ==> ids == []
    ensures chat.Some? && chat.value.Whole? && chat.value.chat.knowledgeBaseIds.Some? ==>
      var entries := chat.value.chat.knowledgeBaseIds.value;
      |ids| == |entries| && forall i :: 0 <= i < |ids| ==> ids[i] == EntryId(entries[i])
  {
    if chat.Some? && chat.value.Whole? && chat.value.chat.knowledgeBaseIds.Some? then
      EntryIds(chat.value.chat.knowledgeBaseIds.value)
    else []
  }

  function EntryIds(entries: seq<KbEntry>): (ids: seq<string>)
    ensures |ids| == |entries| && forall i :: 0 <= i < |ids| ==> ids[i] == EntryId(entries[i])
  {
    if entries == [] then [] else [EntryId(entries[0])] + EntryIds(entries[1..])
  }

  /** The selected knowledge bases that are among the user's loaded projects, in selection order. */
  function SelectedProjects(selectedItems: seq<string>, loaded: seq<string>): (kept: seq<string>)
    ensures |kept| <= |selectedItems|
    ensures forall x :: x in kept <==> x in selectedItems && x in loaded
  {
    if selectedItems == [] then []
    else
      var rest := SelectedProjects(selectedItems[1..], loaded);
      if selectedItems[0] in loaded then [selectedItems[0]] + rest else rest
  }

  /** The filter keeps the relative order of the selection: it distributes over concatenation. */
  lemma {:induction false} SelectedProjectsAppend(a: seq<string>, b: seq<string>, loaded: seq<string>)
    ensures SelectedProjects(a + b, loaded) == SelectedProjects(a, loaded) + SelectedProjects(b, loaded)
    decreases |a|
  {
    if a != [] {
      assert (a + b)[1..] == a[1..] + b;
      SelectedProjectsAppend(a[1..], b, loaded);
    } else {
      assert a + b == b;
    }
  }

  // ------------------------------------------------------------ titles

  /** The characters of the class `[\*\-_\s]`. */
  predicate IsDecor(c: char)
  {
    c == '*' || c == '-' || c == '_' || IsJsSpace(c)
  }

  /** The characters of the class `[\*\-_\s:]`. */
  predicate IsDecorOrColon(c: char)
  {
    IsDecor(c) || c == ':'
  }

  predicate AllSatisfy(s: string, p: char -> bool)
  {
    forall i :: 0 <= i < |s| ==> p(s[i])
  }

  /** `s` is `t` with a (possibly empty) run of `p` characters on each side. */
  predicate Surrounds(s: string, t: string, p: char -> bool)
  {
    exists i :: 0 <= i <= |s| - |t| && s[i..i + |t|] == t && AllSatisfy(s[..i], p) && AllSatisfy(s[i + |t|..], p)
  }

  /**
   * `line.replace(/^TITLE:\s*\/i, '')`: a leading `TITLE:` in any ASCII case
   * is removed with the white space after it; any other line is unchanged.
   */
  function RagTitle(line: string): (title: string)
    ensures !(|line| >= 6 && EqualsIgnoreCase(line[..6], "TITLE:")) ==> title == line
    ensures |line| >= 6 && EqualsIgnoreCase(line[..6], "TITLE:") ==>
      |title| <= |line| - 6 && line[|line| - |title|..] == title &&
      AllSatisfy(line[6..|line| - |title|], IsJsSpace) && (title == "" || !IsJsSpace(title[0]))
  {
    if |line| >= 6 && EqualsIgnoreCase(line[..6], "TITLE:") then
      var rest := line[6..];
      rest[PrefixLen(rest, IsJsSpace)..]
    else line
  }

  /**
   * Whether the label pattern `^\s*[\*\-_\s]*(title)` matches: the word
   * `title`, in any ASCII case, right after the leading run of decoration.
   */
  predicate HasTitleLabel(s: string)
  {
    var m := PrefixLen(s, IsDecor);
    m + 5 <= |s| && EqualsIgnoreCase(s[m..m + 5], "title")
  }

  /**
   * The only place the label pattern can match: none of the letters of
   * `title` is decoration, so backtracking into the leading run cannot help.
   */
  lemma TitleLabelPosition(s: string, p: nat)
    requires p + 5 <= |s| && AllSatisfy(s[..p], IsDecor) && EqualsIgnoreCase(s[p..p + 5], "title")
    ensures p == PrefixLen(s, IsDecor) && HasTitleLabel(s)
  {
    assert LowerAscii(s[p..p + 5][0]) == 't';
    assert !IsDecor(s[p]);
    assert forall i :: 0 <= i < p ==> IsDecor(s[i]) by {
      forall i | 0 <= i < p ensures IsDecor(s[i]) { assert s[..p][i] == s[i]; }
    }
    PrefixLenAt(s, IsDecor, p);
  }

  /**
   * The first replacement of the plain-path cleaner: when the label
   * matches, everything up to the end of `title` and the run of
   * `[\*\-_\s:]` after it is removed; otherwise the line is unchanged.
   */
  function StripTitleLabel(s: string): (rest: string)
    ensures !HasTitleLabel(s) ==> rest == s
    ensures HasTitleLabel(s) ==>
      var m := PrefixLen(s, IsDecor);
      |rest| <= |s| - m - 5 && s[|s| - |rest|..] == rest &&
      AllSatisfy(s[m + 5..|s| - |rest|], IsDecorOrColon) && (rest == "" || !IsDecorOrColon(rest[0]))
  {
    if HasTitleLabel(s) then
      var after := s[PrefixLen(s, IsDecor) + 5..];
      after[PrefixLen(after, IsDecorOrColon)..]
    else s
  }

  /**
   * The second replacement, `/^[\*\-_\s]+|[\*\-_\s]+$/g`: the decoration
   * runs at both ends are removed; a line of decoration only becomes empty.
   */
  function TrimDecor(s: string): (t: string)
    ensures t == "" || (!IsDecor(t[0]) && !IsDecor(t[|t| - 1]))
  {
    var m := PrefixLen(s, IsDecor);
    if m == |s| then ""
    else
      var n := SuffixLen(s, IsDecor);
      assert m + n < |s|;
      s[m..|s| - n]
  }

  /** What TrimDecor leaves is `s` with only decoration removed around it. */
  lemma TrimDecorSurrounds(s: string)
    ensures Surrounds(s, TrimDecor(s), IsDecor)
  {
    var m := PrefixLen(s, IsDecor);
    if m == |s| {
      assert TrimDecor(s) == s[0..0];
      SurroundsAt(s, 0, 0, IsDecor);
    } else {
      var j := |s| - SuffixLen(s, IsDecor);
      assert TrimDecor(s) == s[m..j];
      SurroundsAt(s, m, j, IsDecor);
    }
  }

  /** Cutting `s` at two points where the outer parts satisfy `p` witnesses Surrounds. */
  lemma SurroundsAt(s: string, i: nat, j: nat, p: char -> bool)
    requires i <= j <= |s|
    requires forall k :: 0 <= k < i ==> p(s[k])
    requires forall k :: j <= k < |s| ==> p(s[k])
    ensures Surrounds(s, s[i..j], p)
  {
    var t := s[i..j];
    assert s[i..i + |t|] == t;
    assert AllSatisfy(s[..i], p);
    assert AllSatisfy(s[i + |t|..], p);
  }

  /** TrimDecor is the only way to see `s` as a core with decoration around it. */
  lemma TrimDecorUnique(s: string, t: string)
    requires Surrounds(s, t, IsDecor)
    requires t == "" || (!IsDecor(t[0]) && !IsDecor(t[|t| - 1]))
    ensures TrimDecor(s) == t
  {
    var i :| 0 <= i <= |s| - |t| && s[i..i + |t|] == t && AllSatisfy(s[..i], IsDecor) && AllSatisfy(s[i + |t|..], IsDecor);
    DecorAround(s, t, i);
    if t == "" {
      PrefixLenAt(s, IsDecor, |s|);
    } else {
      assert s[i] == t[0] && s[i + |t| - 1] == t[|t| - 1];
      PrefixLenAt(s, IsDecor, i);
      SuffixLenAt(s, IsDecor, |s| - i - |t|);
      assert TrimDecor(s) == s[i..i + |t|];
    }
  }

  lemma DecorAround(s: string, t: string, i: nat)
    requires i <= |s| - |t| && s[i..i + |t|] == t && AllSatisfy(s[..i], IsDecor) && AllSatisfy(s[i + |t|..], IsDecor)
    ensures forall j :: 0 <= j < i ==> IsDecor(s[j])
    ensures forall j :: i + |t| <= j < |s| ==> IsDecor(s[j])
    ensures t == "" ==> forall j :: 0 <= j < |s| ==> IsDecor(s[j])
  {
    forall j | 0 <= j < i ensures IsDecor(s[j]) { assert s[..i][j] == s[j]; }
    forall j | i + |t| <= j < |s| ensures IsDecor(s[j]) { assert s[i + |t|..][j - i - |t|] == s[j]; }
  }

  /** Trimming twice trims nothing more. */
  lemma TrimDecorIdempotent(s: string)
    ensures TrimDecor(TrimDecor(s)) == TrimDecor(s)
  {
    var t := TrimDecor(s);
    assert t[0..0 + |t|] == t && t[..0] == "" && t[|t|..] == "";
    TrimDecorUnique(t, t);
  }

  /** The title the plain path extracts from the first line of the reply. */
  function PlainTitle(line: string): (title: string)
    ensures title == "" || (!IsDecor(title[0]) && !IsDecor(title[|title| - 1]))
    ensures !HasTitleLabel(line) ==> title == TrimDecor(line)
  {
    TrimDecor(StripTitleLabel(line))
  }

  /** The title cleaner of the path in use: the knowledge-base path or the plain one. */
  function Cleaner(ragPath: bool): string -> string
  {
    if ragPath then RagTitle else PlainTitle
  }

  // ------------------------------------------------------- streamed reply

  /**
   * What the `onStream` closure of one send has captured: the reply so far,
   * the text last shown, the title, and every text it has shown (the
   * `updateBotMessage` calls), in order.
   */
  datatype ViewState = ViewState(content: string, clean: string, title: Option<string>, shown: seq<string>)

  const Initial: ViewState := ViewState("", "", None, [])

  /**
   * The title a callback sets when the buffer before its chunk is `before`:
   * the cleaned first line, when a newline has arrived and the line before it
   * is not empty.
   */
  function TitleOf(before: string, cleaner: string -> string): Option<string>
  {
    var k := IndexOf(before, '\n');
    if k > 0 then Some(cleaner(before[..k])) else None
  }

  /**
   * The text a callback shows: the buffer from the first newline of the
   * buffer as it was before the chunk, where "no newline" (-1) counts from
   * the end and a newline at 0 shows everything.
   */
  function Display(before: string, chunk: string): string
  {
    var k := IndexOf(before, '\n');
    var buffer := before + chunk;
    if k != 0 then SliceFrom(buffer, k) else buffer
  }

  /** One call of the callback. */
  function Step(s: ViewState, chunk: string, cleaner: string -> string): ViewState
  {
    var title := TitleOf(s.content, cleaner);
    var shown := Display(s.content, chunk);
    ViewState(s.content + chunk, shown, if title.Some? then title else s.title, s.shown + [shown])
  }

  /** The callback called once per chunk, in order, from the state of a new send. */
  function Run(chunks: seq<string>, cleaner: string -> string): ViewState
  {
    if chunks == [] then Initial
    else Step(Run(chunks[..|chunks| - 1], cleaner), chunks[|chunks| - 1], cleaner)
  }

  /**
   * The three cases of the shown text: before any newline only the last
   * character of the buffer; with the newline first, the whole buffer;
   * otherwise the buffer from that newline on, newline included.
   */
  lemma DisplayCases(before: string, chunk: string)
    ensures var buffer := before + chunk;
      '\n' !in before ==> Display(before, chunk) == (if buffer == "" then "" else [buffer[|buffer| - 1]])
    ensures |before| > 0 && before[0] == '\n' ==> Display(before, chunk) == before + chunk
    ensures var k := IndexOf(before, '\n');
      k > 0 ==> before + chunk == before[..k] + Display(before, chunk) && Display(before, chunk)[0] == '\n'
  {
    var buffer := before + chunk;
    var k := IndexOf(before, '\n');
    if k > 0 {
      assert buffer == buffer[..k] + buffer[k..];
      assert buffer[..k] == before[..k];
    }
  }

  /** After every call the buffer is all the chunks so far, and the text last shown is the last one passed on. */
  lemma {:induction false} RunContent(chunks: seq<string>, cleaner: string -> string)
    ensures Run(chunks, cleaner).content == Concat(chunks)
    ensures |Run(chunks, cleaner).shown| == |chunks|
    ensures chunks == [] ==> Run(chunks, cleaner).clean == ""
    ensures chunks != [] ==> Run(chunks, cleaner).clean == Run(chunks, cleaner).shown[|chunks| - 1]
    decreases |chunks|
  {
    if chunks != [] {
      RunContent(chunks[..|chunks| - 1], cleaner);
    }
  }

  /** Text appended after the first newline does not move it. */
  lemma FirstNewlineStays(a: string, b: string)
    requires '\n' in a
    ensures IndexOf(a + b, '\n') == IndexOf(a, '\n')
    ensures (a + b)[..IndexOf(a, '\n')] == a[..IndexOf(a, '\n')]
  {
    var k := IndexOf(a, '\n');
    assert (a + b)[..k] == a[..k];
    assert (a + b)[k] == '\n';
  }

  /**
   * The title after a run is decided by the buffer before the last chunk
   * alone: set from its first line when that buffer had a newline after a
   * non-empty line, absent otherwise.
   */
  lemma {:induction false} RunTitle(chunks: seq<string>, cleaner: string -> string)
    requires chunks != []
    ensures Run(chunks, cleaner).title == TitleOf(Concat(chunks[..|chunks| - 1]), cleaner)
    decreases |chunks|
  {
    var n := |chunks| - 1;
    var before := Concat(chunks[..n]);
    RunContent(chunks[..n], cleaner);
    if n > 0 && TitleOf(before, cleaner).None? {
      var prefix := chunks[..n][..n - 1];
      assert chunks[..n] == prefix + [chunks[n - 1]];
      RunTitle(chunks[..n], cleaner);
      ConcatPush(prefix, chunks[n - 1]);
      var earlier := Concat(prefix);
      assert before == earlier + chunks[n - 1];
      if '\n' in earlier {
        FirstNewlineStays(earlier, chunks[n - 1]);
      } else {
        assert IndexOf(earlier, '\n') == -1;
      }
    }
  }

  /** A newline that arrives only in the last chunk leaves the title unset. */
  lemma LateNewlineGivesNoTitle(chunks: seq<string>, cleaner: string -> string)
    requires chunks != [] && '\n' !in Concat(chunks[..|chunks| - 1])
    ensures Run(chunks, cleaner).title == None
  {
    RunTitle(chunks, cleaner);
  }

  /** The `onStream` callback of one send, over the variables it captures. */
  class StreamView {
    const ragPath: bool
    var botMessageContent: string
    var cleanBotMessage: string
    var title: Option<string>
    /** The texts passed to `updateBotMessage`, in call order. */
    var shown: seq<string>

    function State(): ViewState
      reads this
    {
      ViewState(botMessageContent, cleanBotMessage, title, shown)
    }

    constructor(ragPath: bool)
      ensures this.ragPath == ragPath && State() == Initial
    {
      this.ragPath := ragPath;
      botMessageContent, cleanBotMessage, title, shown := "", "", None, [];
    }

    method OnStream(chunk: string)
      modifies this
      ensures State() == Step(old(State()), chunk, Cleaner(ragPath))
    {
      var content := botMessageContent;
      var firstLineBreak := IndexOf(content, '\n');
      if firstLineBreak != -1 {
        var checkTitle := content[..firstLineBreak];
        if checkTitle != "" {
          title := Some(Cleaner(ragPath)(checkTitle));
        }
      }
      botMessageContent := botMessageContent + chunk;
      var display;
      if firstLineBreak != 0 {
        display := SliceFrom(botMessageContent, firstLineBreak);
      } else {
        display := botMessageContent;
      }
      shown := shown + [display];
      cleanBotMessage := display;
    }
  }

  // ------------------------------------------------------- saved chat

  /** The `knowledgeBaseIds` the page writes: plain ids. */
  function AsEntries(ids: seq<string>): (entries: seq<KbEntry>)
    ensures |entries| == |ids| && forall i :: 0 <= i < |ids| ==> entries[i] == KbId(ids[i])
  {
    if ids == [] then [] else [KbId(ids[0])] + AsEntries(ids[1..])
  }

  /**
   * The chat saved at the end of a send: the user message and the bot
   * message appended, the model and knowledge bases used, and the title
   * replaced only by a non-empty extracted title.
   */
  function UpdatedChat(chat: Chat, userMessageId: string, userInput: string, userTime: string,
                       botMessageId: string, cleanBotMessage: string, botTime: string,
                       model: string, selectedProjects: seq<string>, title: Option<string>): (updated: Chat)
    ensures updated.id == chat.id && updated.systemPrompt == chat.systemPrompt && updated.model == model
    ensures |updated.messages| == |chat.messages| + 2 && updated.messages[..|chat.messages|] == chat.messages
    ensures updated.messages[|chat.messages|] == Message(userMessageId, chat.id, userInput, User, userTime)
    ensures updated.messages[|chat.messages| + 1] == Message(botMessageId, chat.id, cleanBotMessage, Bot, botTime)
    ensures title.Some? && title.value != "" ==> updated.title == title.value
    ensures title.None? || title.value == "" ==> updated.title == chat.title
  {
    var messages := chat.messages + [Message(userMessageId, chat.id, userInput, User, userTime),
                                     Message(botMessageId, chat.id, cleanBotMessage, Bot, botTime)];
    var base := chat.(messages := messages, model := model, knowledgeBaseIds := Some(AsEntries(selectedProjects)));
    if title.Some? && title.value != "" then base.(title := title.value) else base
  }

  /** The knowledge bases saved with the chat are the ones the page loads back for it. */
  lemma SavedKnowledgeBasesReload(chat: Chat, userMessageId: string, userInput: string, userTime: string,
                                  botMessageId: string, cleanBotMessage: string, botTime: string,
                                  model: string, selectedProjects: seq<string>, title: Option<string>)
    ensures KnowledgeBaseIds(Some(Whole(UpdatedChat(chat, userMessageId, userInput, userTime, botMessageId,
                                                    cleanBotMessage, botTime, model, selectedProjects, title))))
            == selectedProjects
  {
  }

  // ------------------------------------------------------- worked example

  /**
   * A reply sent as three frames in one read: a frame whose content is the
   * title line and the start of the answer, a frame with the rest of the
   * answer, and the sentinel, each followed by a newline. The payloads are
   * any two newline-free JSON texts that parse to those contents.
   */
  function ExampleLines(titled: string, tail: string): seq<string>
  {
    ["data: " + titled, "data: " + tail, "data: [DONE]", ""]
  }

  /** The relay hands on the two contents, in order, and skips the sentinel and the empty last line. */
  lemma ExampleDeltas(titled: string, tail: string, parse: string -> ParsedFrame)
    requires '\n' !in titled && '\n' !in tail
    requires parse(titled) == Content("TITLE: Foo\nHello") && parse(tail) == Content(" world")
    requires titled != DoneSentinel && tail != DoneSentinel
    ensures StreamDeltas([Join(ExampleLines(titled, tail), "\n")], parse) == ["TITLE: Foo\nHello", " world"]
  {
    var lines := ExampleLines(titled, tail);
    assert forall line :: line in lines ==> '\n' !in line;
    ReadOfLines(lines, parse);
    ExampleLineDeltas(titled, tail, parse);
    StreamDeltasStep([], Join(lines, "\n"), parse);
    assert [] + [Join(lines, "\n")] == [Join(lines, "\n")];
  }

  lemma ExampleLineDeltas(titled: string, tail: string, parse: string -> ParsedFrame)
    requires parse(titled) == Content("TITLE: Foo\nHello") && parse(tail) == Content(" world")
    requires titled != DoneSentinel && tail != DoneSentinel
    ensures LineDeltas(ExampleLines(titled, tail), parse) == ["TITLE: Foo\nHello", " world"]
  {
    var lines := ExampleLines(titled, tail);
    var deltas := ["TITLE: Foo\nHello", " world"];
    ExampleFrames(titled, tail, parse);
    LineDeltasStep(lines, 0, parse);
    assert lines[..0] == [];
    assert LineDeltas(lines[..1], parse) == deltas[..1];
    LineDeltasStep(lines, 1, parse);
    assert LineDeltas(lines[..2], parse) == deltas;
    LineDeltasStep(lines, 2, parse);
    LineDeltasStep(lines, 3, parse);
    assert lines[..4] == lines;
  }

  lemma ExampleFrames(titled: string, tail: string, parse: string -> ParsedFrame)
    requires parse(titled) == Content("TITLE: Foo\nHello") && parse(tail) == Content(" world")
    requires titled != DoneSentinel && tail != DoneSentinel
    ensures var lines := ExampleLines(titled, tail);
      FrameDelta(lines[0], parse) == Some("TITLE: Foo\nHello") && FrameDelta(lines[1], parse) == Some(" world") &&
      FrameDelta(lines[2], parse) == None && FrameDelta(lines[3], parse) == None
  {
    var lines := ExampleLines(titled, tail);
    assert lines[0][|DataPrefix|..] == titled;
    assert lines[1][|DataPrefix|..] == tail;
    assert lines[2][|DataPrefix|..] == DoneSentinel;
    assert !StartsWith(lines[3], DataPrefix);
  }

  lemma PlainExampleTitle()
    ensures PlainTitle("TITLE: Foo") == "Foo"
  {
    StripExampleLabel();
    var t := "Foo";
    assert !IsDecor(t[0]) && !IsDecor(t[2]);
    PrefixLenAt(t, IsDecor, 0);
    SuffixLenAt(t, IsDecor, 0);
    assert t[0..3] == t;
  }

  lemma StripExampleLabel()
    ensures StripTitleLabel("TITLE: Foo") == "Foo"
  {
    var line := "TITLE: Foo";
    assert !IsDecor(line[0]);
    assert PrefixLen(line, IsDecor) == 0;
    assert line[0..5] == "TITLE";
    assert EqualsIgnoreCase("TITLE", "title");
    var after := line[5..];
    assert after == ": Foo";
    assert !IsDecorOrColon(after[2]);
    assert PrefixLen(after[2..], IsDecorOrColon) == 0;
    assert PrefixLen(after, IsDecorOrColon) == 2;
    assert after[2..] == "Foo";
  }

  lemma RagExampleTitle()
    ensures RagTitle("TITLE: Foo") == "Foo"
  {
    var line := "TITLE: Foo";
    assert line[..6] == "TITLE:";
    assert EqualsIgnoreCase("TITLE:", "TITLE:");
    var rest := line[6..];
    assert rest == " Foo";
    assert !IsJsSpace(rest[1]);
    assert PrefixLen(rest[1..], IsJsSpace) == 0;
    assert PrefixLen(rest, IsJsSpace) == 1;
  }

  /**
   * A reply whose first chunk already holds a non-empty title line: the
   * first call shows only the last character, the second sets the title from
   * that line and shows the rest of the reply from the newline on.
   */
  lemma TitleInFirstChunk(line: string, rest: string, next: string, cleaner: string -> string)
    requires '\n' !in line && line != ""
    ensures var first := line + "\n" + rest;
      Run([first, next], cleaner)
        == ViewState(first + next, "\n" + rest + next, Some(cleaner(line)),
                     [[first[|first| - 1]], "\n" + rest + next])
  {
    var first := line + "\n" + rest;
    RunTwo(first, next, cleaner);
    FirstCall(first, cleaner);
    SecondCall(line, rest, next, cleaner);
  }

  lemma RunTwo(a: string, b: string, cleaner: string -> string)
    ensures Run([a, b], cleaner) == Step(Step(Initial, a, cleaner), b, cleaner)
  {
    assert [a, b][..1] == [a] && [a][..0] == [];
    assert Run([a], cleaner) == Step(Initial, a, cleaner);
  }

  /** The first call finds an empty buffer: no title, and only the last character shown. */
  lemma FirstCall(chunk: string, cleaner: string -> string)
    requires chunk != ""
    ensures Step(Initial, chunk, cleaner) == ViewState(chunk, [chunk[|chunk| - 1]], None, [[chunk[|chunk| - 1]]])
  {
    assert IndexOf("", '\n') == -1;
    assert "" + chunk == chunk;
    assert chunk[|chunk| - 1..] == [chunk[|chunk| - 1]];
  }

  /** A later call after a non-empty first line sets the title and shows from the newline on. */
  lemma SecondCall(line: string, rest: string, next: string, cleaner: string -> string)
    requires '\n' !in line && line != ""
    ensures var first := line + "\n" + rest;
      var s := ViewState(first, [first[|first| - 1]], None, [[first[|first| - 1]]]);
      Step(s, next, cleaner)
        == ViewState(first + next, "\n" + rest + next, Some(cleaner(line)),
                     [[first[|first| - 1]], "\n" + rest + next])
  {
    var first := line + "\n" + rest;
    IndexOfAfter(line, '\n', rest);
    assert first[..|line|] == line;
    assert (first + next)[|line|..] == "\n" + rest + next;
  }

  /**
   * The example reply on the plain path: the title is "Foo", the buffer is
   * the whole reply, and the text left shown is the second line with the
   * newline before it.
   */
  lemma ExampleView()
    ensures var view := Run(["TITLE: Foo" + "\n" + "Hello", " world"], Cleaner(false));
      view.title == Some("Foo") && view.content == "TITLE: Foo" + "\n" + "Hello" + " world" &&
      view.clean == "\n" + "Hello" + " world" && view.shown == ["o", view.clean]
  {
    TitleInFirstChunk("TITLE: Foo", "Hello", " world", Cleaner(false));
    PlainExampleTitle();
  }
}
