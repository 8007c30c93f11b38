# IntelliForge chat client core, in Dafny

IntelliForge is a browser chat client for a hosted LLM aggregation API. It
has optional retrieval-augmented answering over knowledge bases ("RAG
projects") of uploaded text and PDF files. This project models its
sequential logic around the I/O and proves properties of the model. The
logic covers:

- **OpenRouter** (`openrouter.dfy`): the model listing, and the streaming
  chat-completion relay.
  - The relay splits each decoded read at newlines and keeps only `data: `
    lines.
  - It skips the `[DONE]` sentinel and frames that fail to parse.
  - It hands every non-empty delta to the callback and accumulates it.
  - Any failure is reported as the single error
    `Failed to get response from model`.
- **Chatbot** (`chatbot.dfy`): the send path of the chat page.
  - The pure parts: the history and the role mapping of the request, the
    model fallback, the normalisation and filtering of the selected
    knowledge bases, and the two title cleaners (the `TITLE:` strip of the
    knowledge-base path and the two-step regular-expression clean-up of
    the plain path).
  - The `onStream` closure, as the class `StreamView` over the variables
    it captures.
  - The chat saved at the end of a send.
- **KnowledgeStore** (`knowledge_store.dfy`): the document store, as an
  in-memory class.
  - It holds projects, document metadata, the chunks of each document and
    the chat documents of each user.
  - It has the store operations with their guards and error messages.
  - It has the all-or-nothing chunk batch and the top-5 ranking by
    similarity.
  - It has the ownership-checked cascade delete, and the merged writes of
    chats and titles.
- **RagService** (`rag_service.dfy`):
  - the text of an uploaded file, including the page-by-page PDF text;
  - the two-phase ingestion of a batch of files;
  - the context and system prompt of a retrieval-augmented answer.
- **ChatbotSlice** (`chatbot_slice.dfy`): the chat-state reducers, as the
  class `ChatbotState` with its in-place updates.
  - It covers the deduplicating create, message append, bot-message
    upsert, select, filter-delete and replace-or-append.
  - It also covers the active-chat lookup of the hook.
- **Analytics** (`analytics.dfy`): the per-user usage fold. It counts user
  messages and chats, adds up chat time spans, tracks the latest activity,
  and rounds to whole seconds. A latest activity outside a Firestore
  `Timestamp`'s range makes the whole summary fail, as the code's catch
  does.
- **Strings, Types, Wrappers**: the JavaScript string built-ins the code
  relies on, over sequences of characters. Also the record types and the
  Option, Result and Outcome wrappers.

The model deliberately keeps these behaviours of the code as written:

- The streamed-reply closure measures `firstLineBreak` on the buffer
  before the new chunk is appended.
- It tests `if (firstLineBreak)`, so -1 counts as true. Before any newline
  has arrived, only the last character of the buffer is shown.
- When the newline is at position 0, the whole buffer is shown.
- Otherwise the shown text starts at the newline, and the newline is
  included.
- On the reply `TITLE: Foo\nHello` + ` world`, the text left shown is
  therefore `\nHello world`, with the newline kept
  (`Chatbot.ExampleView`).
- The relay keeps no buffer between reads. A frame split across two reads
  is lost (`OpenRouter.SplitFrameIsLost`).
- The system message puts the two characters `/n` (a slash and an `n`)
  between the fixed instruction and the caller's prompt.

Time, fresh ids and the collaborators the code calls become parameters:

- `nanoid()` and `new Date()`;
- the embedding endpoint (`embed`) and the similarity of two embeddings
  (`similarity`, an integer score);
- `JSON.parse` of a frame (`parse`) and the text splitter (`chunker`);
- the PDF reader (pages of text items) and the date parser (`parseTime`);
- the HTTP reply (`HttpReply`).

## Model

| member | source | states |
|---|---|---|
| OpenRouter.FetchModels | src/services/openrouter.ts:11-25 | one model per listed entry, same order, same id and name; `isFree` exactly when `pricing.prompt` is `'0'`; a failed request gives `[]` |
| OpenRouter.DescribeAll | src/services/openrouter.ts:16-20 | the listing is mapped entry by entry, length and order kept |
| OpenRouter.OutgoingMessages | src/services/openrouter.ts:42-47 | exactly one system message, then the caller's messages unchanged and in order; its content is the fixed instruction, the two characters `/n`, then the prompt or `''` |
| OpenRouter.FrameDelta | src/services/openrouter.ts:70-83 | a line yields a delta exactly when it starts with `data: `, its payload is not `[DONE]` and parses to a non-empty content, and the delta is that content |
| OpenRouter.IgnoredLineHasNoDelta | src/services/openrouter.ts:71-86 | a non-`data: ` line, the sentinel, an unparsable payload or an empty content contributes nothing |
| OpenRouter.IgnoredLineIsSkipped | src/services/openrouter.ts:70-88 | a line without a delta is skipped: the lines around it give the same deltas as if it were absent |
| OpenRouter.StreamDeltasAppend | src/services/openrouter.ts:63-89 | reads are framed independently; the deltas of a stream are those of its reads in order |
| OpenRouter.StreamDeltasNonEmpty | src/services/openrouter.ts:78-82 | every delta handed to the callback is non-empty |
| OpenRouter.ReadOfLines | src/services/openrouter.ts:67-70 | a read of newline-free lines joined by `'\n'` yields exactly the deltas of those lines |
| OpenRouter.OneLineRead | src/services/openrouter.ts:67-70 | a read without a newline is a single line |
| OpenRouter.WholeFrameIsRelayed | src/services/openrouter.ts:63-83 | a frame that arrives in one read is relayed |
| OpenRouter.SplitFrameIsLost | src/services/openrouter.ts:63-68 | with no carry-over buffer, a frame split across two reads produces no delta |
| OpenRouter.FirstReadFailure | src/services/openrouter.ts:63-65 | the loop reads until the first rejected read or the end of the body |
| OpenRouter.RelayAdvances | src/services/openrouter.ts:70-88 | one more successful read appends exactly its deltas to `fullResponse` and to the callback arguments |
| OpenRouter.RelayStops | src/services/openrouter.ts:63-65 | when the loop stops, `fullResponse` is the concatenation of the callback arguments, which are all deltas in arrival order |
| OpenRouter.RelayRead | src/services/openrouter.ts:67-88 | the line loop over one read appends the concatenation of its deltas and calls back once per delta, in order |
| OpenRouter.RelayBody | src/services/openrouter.ts:60-93 | the read loop returns the concatenation of all relayed deltas, or the single failure message when a read is rejected |
| OpenRouter.SendChatMessage | src/services/openrouter.ts:27-95 | the request sent; any network failure, non-ok status or unreadable body fails with `Failed to get response from model` and no callback; otherwise the relay result |
| Chatbot.ApiRole | src/components/chatbot/chatbot.tsx:208 | user maps to `user`, system to `system`, bot and custom to `assistant` |
| Chatbot.HistoryForRequest | src/components/chatbot/chatbot.tsx:206-212 | the history with contents kept and roles mapped, then the new input as the last, user, message |
| Chatbot.RequestSystemPrompt | src/components/chatbot/chatbot.tsx:246 | the chat's prompt, else the user's prompt for the model, else `''` |
| Chatbot.SelectModel | src/components/chatbot/chatbot.tsx:157-167 | nothing when no model is listed; else the chat's model if usable, else the user's default if usable, else the first listed; the result is always a listed model |
| Chatbot.KnowledgeBaseIds | src/components/chatbot/chatbot.tsx:79-83 | a missing chat or list gives `[]`; otherwise each entry maps to its id, whether a plain id or an object |
| Chatbot.EntryIds | src/components/chatbot/chatbot.tsx:80-82 | the entries map to ids one by one, in order |
| Chatbot.SelectedProjects | src/components/chatbot/chatbot.tsx:218 | an id is kept exactly when it is selected and among the loaded projects |
| Chatbot.SelectedProjectsAppend | src/components/chatbot/chatbot.tsx:218 | the filter keeps the selection order (it distributes over concatenation) |
| Chatbot.RagTitle | src/components/chatbot/chatbot.tsx:232 | a leading `TITLE:` in any case is removed with the white space after it; any other line is unchanged |
| Chatbot.TitleLabelPosition | src/components/chatbot/chatbot.tsx:253 | the label pattern can match only right after the leading decoration run |
| Chatbot.StripTitleLabel | src/components/chatbot/chatbot.tsx:253 | with the label, everything through `title` and the `[*-_\s:]` run after it is removed; without it the line is unchanged |
| Chatbot.TrimDecor | src/components/chatbot/chatbot.tsx:253 | the result neither starts nor ends with `[*-_\s]` |
| Chatbot.TrimDecorSurrounds | src/components/chatbot/chatbot.tsx:253 | the result is the input with only decoration removed around it |
| Chatbot.TrimDecorUnique | src/components/chatbot/chatbot.tsx:253 | the trimmed core is the only one: any decoration-free core surrounded by decoration equals it |
| Chatbot.TrimDecorIdempotent | src/components/chatbot/chatbot.tsx:253 | trimming twice trims nothing more |
| Chatbot.PlainTitle | src/components/chatbot/chatbot.tsx:253 | the plain-path title has no decoration at its ends, and without a label it is the trimmed line |
| Chatbot.DisplayCases | src/components/chatbot/chatbot.tsx:236-242 | before any newline only the last character is shown; a newline at 0 shows the whole buffer; otherwise the buffer from the newline on |
| Chatbot.RunContent | src/components/chatbot/chatbot.tsx:227-242 | after every call the buffer is all chunks so far in order; one shown text per call; `cleanbotmessage` is the last text shown |
| Chatbot.RunTitle | src/components/chatbot/chatbot.tsx:229-234 | the title is decided by the buffer before the last chunk: its first line, cleaned, when that line is non-empty and ends in a newline |
| Chatbot.LateNewlineGivesNoTitle | src/components/chatbot/chatbot.tsx:229-234 | a newline arriving only in the last chunk leaves the title unset |
| Chatbot.StreamView.constructor | src/components/chatbot/chatbot.tsx:214-217 | a send starts with an empty buffer, nothing shown and no title |
| Chatbot.StreamView.OnStream | src/components/chatbot/chatbot.tsx:247-264 | one call of the callback updates the captured variables as one step of the view |
| Chatbot.AsEntries | src/components/chatbot/chatbot.tsx:284 | the selected projects are written as plain ids |
| Chatbot.UpdatedChat | src/components/chatbot/chatbot.tsx:267-284 | the user and bot messages appended after the history; the model used; the title replaced only by a non-empty extracted title |
| Chatbot.SavedKnowledgeBasesReload | src/components/chatbot/chatbot.tsx:284 | the knowledge bases saved with the chat are those loaded back for it |
| Chatbot.ExampleDeltas | src/services/openrouter.ts:67-83 | the worked reply in one read yields its two contents in order |
| Chatbot.PlainExampleTitle | src/components/chatbot/chatbot.tsx:253 | the plain cleaner turns `TITLE: Foo` into `Foo` |
| Chatbot.RagExampleTitle | src/components/chatbot/chatbot.tsx:232 | the knowledge-base cleaner turns `TITLE: Foo` into `Foo` |
| Chatbot.FirstCall | src/components/chatbot/chatbot.tsx:248-262 | the first call sets no title and shows only the last character |
| Chatbot.SecondCall | src/components/chatbot/chatbot.tsx:248-259 | a later call after a non-empty first line sets the title and shows from the newline on |
| Chatbot.TitleInFirstChunk | src/components/chatbot/chatbot.tsx:248-263 | the whole view after two chunks whose first holds the title line |
| Chatbot.ExampleView | src/components/chatbot/chatbot.tsx:247-264 | the worked reply: title `Foo`, full buffer kept, `\nHello world` left shown |
| KnowledgeStore.PutDocument | src/services/firebase.ts:111-121 | the written document is stored; others are kept; ids stay unique |
| KnowledgeStore.DocumentsWithout | src/services/firebase.ts:231-234 | exactly the documents whose ids are not deleted remain |
| KnowledgeStore.DocumentsWithoutUnique | src/services/firebase.ts:231-234 | deleting documents keeps ids unique |
| KnowledgeStore.DeleteKeepsOthers | src/services/firebase.ts:222-242 | a document is removed exactly when it is the owner's document of that project; other documents keep their chunks unchanged |
| KnowledgeStore.ArrayUnion | src/services/firebase.ts:124-126 | the id is added as a set union, at the end, the old list kept as prefix |
| KnowledgeStore.EmbedChunks | src/services/firebase.ts:148-163 | chunk `i` holds text `i`, index `i`, the document id and its embedding, so the batch is `EmbeddedBatch`; one failed embedding fails the batch |
| KnowledgeStore.CollectedComplete | src/services/firebase.ts:174-184 | every chunk of every selected document is collected |
| KnowledgeStore.CollectedSound | src/services/firebase.ts:174-184 | only chunks of selected documents are collected |
| KnowledgeStore.InsertRankedCounts | src/services/firebase.ts:186 | insertion adds exactly the one candidate |
| KnowledgeStore.InsertRankedKeepsOrder | src/services/firebase.ts:186 | insertion keeps a ranked list ranked |
| KnowledgeStore.SortRankedOrders | src/services/firebase.ts:186 | the sort is a permutation by non-increasing similarity |
| KnowledgeStore.WithSimilarityAppend | src/services/firebase.ts:186 | picking the candidates of one similarity distributes over concatenation |
| KnowledgeStore.InsertRankedStable | src/services/firebase.ts:186 | insertion into a ranked list goes behind every candidate of equal similarity |
| KnowledgeStore.NoneWithSimilarity | src/services/firebase.ts:186 | a ranked list that starts below a similarity holds nothing of it |
| KnowledgeStore.SortRankedStable | src/services/firebase.ts:186 | the sort is stable: for every similarity, its candidates keep the order they were collected in |
| KnowledgeStore.RankingShape | src/services/firebase.ts:186 | `slice(0, 5)` of the sort: min(n, 5) candidates, ranked, all drawn from the candidates |
| KnowledgeStore.RankedCut | src/services/firebase.ts:186 | in a ranked list nothing after a cut outscores anything before it |
| KnowledgeStore.RankingKeepsBest | src/services/firebase.ts:186 | no candidate left out scores higher than one kept |
| KnowledgeStore.RelevantChunks | src/services/firebase.ts:170-187 | any empty argument is refused with the source's message, and a failed query embedding fails; a result has min(n, 5) entries of the n chunks of the user's documents in the project, ranked, drawn from them, and no chunk left out scores higher than one kept |
| KnowledgeStore.ProjectChunks | src/services/firebase.ts:189-190 | no projects or no user gives `[]` |
| KnowledgeStore.LookupAfterPut | src/services/firebase.ts:62-66 | a chat written is read back, and no other chat document changes |
| KnowledgeStore.MergeChat | src/services/firebase.ts:74-77 | a merged write stores every field given; stored `knowledgeBaseIds` survive a chat without them |
| KnowledgeStore.MergeTitle | src/services/firebase.ts:80-88 | a stored chat keeps all but its title; without one, the document holds only the title |
| KnowledgeStore.Store.constructor | src/services/firebase.ts:39 | an empty store |
| KnowledgeStore.Store.SaveRagProject | src/services/firebase.ts:91-104 | refusal without user or name; else the project is stored owned by the user with no documents, and its id and name returned |
| KnowledgeStore.Store.SaveDocumentMetadata | src/services/firebase.ts:106-129 | the two refusals with the store unchanged; else the document is written, then its id is united into the project's list |
| KnowledgeStore.Store.StoreChunks | src/services/firebase.ts:145-167 | refusal without id or chunks; all-or-nothing; on success the count is returned and the document's chunks are the old ones followed by `EmbeddedBatch` of the texts |
| KnowledgeStore.Store.CollectChunks | src/services/firebase.ts:176-184 | the nested loop collects the selected documents' chunks in listing order |
| KnowledgeStore.Store.GetRelevantChunks | src/services/firebase.ts:170-187 | the query returns the value `RelevantChunks` specifies |
| KnowledgeStore.Store.GetChunksForProjects | src/services/firebase.ts:189-203 | the query returns the value `ProjectChunks` specifies |
| KnowledgeStore.Store.DeleteRagProject | src/services/firebase.ts:213-243 | the three refusals leave the store unchanged; else the project, its owner's documents in it and their chunks go in one commit |
| KnowledgeStore.DeletionBatch | src/services/firebase.ts:225-240 | the batch holds exactly the project's documents of that user |
| KnowledgeStore.Store.SaveChat | src/services/firebase.ts:52-55 | refusal without user or chat id; else the whole chat is written |
| KnowledgeStore.Store.DeleteChat | src/services/firebase.ts:57-60 | refusal without user or chat id; else that chat document is removed |
| KnowledgeStore.Store.GetChat | src/services/firebase.ts:62-66 | nothing for an empty id or missing document; else the stored chat |
| KnowledgeStore.Store.GetChats | src/services/firebase.ts:68-72 | nothing for an empty user; else the user's chats |
| KnowledgeStore.Store.UpdateChat | src/services/firebase.ts:74-77 | refusal without user or chat id; else a merged write |
| KnowledgeStore.Store.UpdateChatTitle | src/services/firebase.ts:80-88 | refusal without user, chat id or title; else a merged title write |
| RagService.PdfTextAppend | src/services/ragService.ts:24-30 | one more page appends its items joined by spaces and a newline |
| RagService.PdfPagesAreLines | src/services/ragService.ts:24-30 | split at newlines, the PDF text gives each page's text in order, then one empty piece after the final newline |
| RagService.Parsed | src/services/ragService.ts:15-35 | plain text verbatim; any type but plain text or PDF refused with `Unsupported file type: <type>` |
| RagService.ParseDocument | src/services/ragService.ts:15-35 | the page loop yields what `Parsed` specifies |
| RagService.ParseAll | src/services/ragService.ts:54-58 | every file is parsed, in order, before anything else; success exactly when all parse |
| RagService.IngestOne | src/services/ragService.ts:66-70 | metadata then chunks; success exactly when the metadata passes the store's checks and finds the project and every chunk is embedded; then the chunk count is returned, the document is listed, its id is united into the project's list and its chunks are the old ones followed by the embedded batch; whenever the metadata passes the checks the document is written, and when the project exists its id is united into the list, even if the chunks then fail; a failed turn leaves the chunks unchanged; metadata that fails the checks leaves documents and projects unchanged; the saved chats are unchanged, and other documents, other projects and other documents' chunks are kept |
| RagService.ChunkTotalStep | src/services/ragService.ts:68-70 | one more file adds its chunk count to the total |
| RagService.IngestedFileKept | src/services/ragService.ts:63-71 | a later turn that keeps a file's document, its place in the project and its chunks keeps the file ingested |
| RagService.ProgressStep | src/services/ragService.ts:63-71 | a turn that succeeds advances the loop with every earlier file still ingested; a turn that fails leaves every earlier file ingested, what the failing file wrote left behind, and no unrelated document lost |
| RagService.IngestAll | src/services/ragService.ts:60-73 | one id per file in order and the total chunk count when every file gets through; otherwise no result, with the files before the first failure ingested and the first failing file's document, list entry and untouched chunks left behind as `LeftBehind` states; either way the saved chats, every other project, every field of this project but its document list, and the chunks of every id no file takes are unchanged |
| RagService.UntouchedStep | src/services/ragService.ts:63-71 | a turn that writes only this file's chunks and this project's document list leaves the rest of the store as the loop found it |
| RagService.IngestTurn | src/services/ragService.ts:63-71 | one turn of the loop: the file is ingested and the loop advances, or it has stopped; the rest of the store is left alone |
| RagService.ProcessDocuments | src/services/ragService.ts:45-78 | a parse failure gives no result and an unchanged store; otherwise a result exactly when every file gets through, with one id per file in order and the total chunk count; every file before the first one that fails (all of them on success) has its document listed, its id in the project's list and its embedded chunks stored, and a failure rolls none of that back; the first file that fails keeps its document when its metadata passed the checks and its id in the project's list when the project exists, with its chunks untouched; unrelated documents are never removed, and the saved chats, every other project, every field of this project but its document list, and the chunks of every id no file takes are unchanged |
| RagService.RagSystemPrompt | src/services/ragService.ts:94 | an empty context gives the fallback prompt, any other the lead and the context |
| RagService.ContextPromptChoice | src/services/ragService.ts:87-94 | the context is empty exactly when there are no projects, so a project list always selects the context prompt |
| RagService.FailureStays | src/services/ragService.ts:89-92 | the first failed relevance query fails the whole context |
| RagService.BuildContext | src/services/ragService.ts:87-93 | per project, in order, the ranked texts joined by newlines and a newline |
| RagService.GenerateRagResponse | src/services/ragService.ts:79-96 | a failed query fails; else a single user message holding the query is sent with the prompt the context selects |
| ChatbotSlice.FindChat | src/redux/slices/chatbotSlice.ts:129 | the first chat with that id, or -1 when none |
| ChatbotSlice.ActiveChat | src/redux/useChatbot.ts:17-18 | the chat whose id is the active one; none for no, empty or unknown id |
| ChatbotSlice.WithoutChat | src/redux/slices/chatbotSlice.ts:123 | exactly the chats with another id remain |
| ChatbotSlice.WithoutAbsentChat | src/redux/slices/chatbotSlice.ts:123 | with no chat of that id the filter keeps the list as it is |
| ChatbotSlice.WithoutOnlyChat | src/redux/slices/chatbotSlice.ts:123 | when the chat at index k is the only one with that id, the filter gives the chats before k followed by those after it |
| ChatbotSlice.WithoutChatInOrder | src/redux/slices/chatbotSlice.ts:123 | the kept chats keep their order: with unique ids, deleting the chat at index k gives the chats before k followed by those after it |
| ChatbotSlice.WithoutChatUnique | src/redux/slices/chatbotSlice.ts:123 | filtering keeps ids unique |
| ChatbotSlice.WithoutChatIdempotent | src/redux/slices/chatbotSlice.ts:123 | deleting twice is deleting once |
| ChatbotSlice.WithoutFreshChat | src/redux/slices/chatbotSlice.ts:121-127 | deleting a freshly created chat gives back the list before it |
| ChatbotSlice.ReplaceOrAppend | src/redux/slices/chatbotSlice.ts:128-135 | the first chat with the id is replaced in place, else the chat is appended; others unchanged |
| ChatbotSlice.ReplaceOrAppendUnique | src/redux/slices/chatbotSlice.ts:128-135 | replace-or-append keeps ids unique |
| ChatbotSlice.WithMessage | src/redux/slices/chatbotSlice.ts:47-48 | only the first chat with that id gains the message, at the end; no match changes nothing |
| ChatbotSlice.FindBotMessage | src/redux/slices/chatbotSlice.ts:72 | the first message with that id and type bot, or -1 |
| ChatbotSlice.UpsertBotMessage | src/redux/slices/chatbotSlice.ts:72-85 | an existing bot message gets the new content and time in place; else a bot message is appended; other types are never edited |
| ChatbotSlice.UpsertBotMessageIdempotent | src/redux/slices/chatbotSlice.ts:72-85 | repeating the same update changes nothing more |
| ChatbotSlice.ChatbotState.constructor | src/redux/slices/chatbotSlice.ts:9-12 | no chats and no active chat |
| ChatbotSlice.ChatbotState.CreateChat | src/redux/slices/chatbotSlice.ts:18-34 | a present id changes nothing; else one chat with the defaults is appended and made active |
| ChatbotSlice.ChatbotState.CreateMessage | src/redux/slices/chatbotSlice.ts:35-49 | a user message is appended to the chat |
| ChatbotSlice.ChatbotState.CreateBotMessage | src/redux/slices/chatbotSlice.ts:50-64 | a bot message with the given id is appended to the chat |
| ChatbotSlice.ChatbotState.UpdateBotMessage | src/redux/slices/chatbotSlice.ts:65-87 | the bot message of the first matching chat is upserted |
| ChatbotSlice.ChatbotState.CreateSystemResponse | src/redux/slices/chatbotSlice.ts:88-102 | a system message is appended to the chat |
| ChatbotSlice.ChatbotState.CreateCustomMessage | src/redux/slices/chatbotSlice.ts:103-117 | a custom message holding the component when given, else the content, is appended |
| ChatbotSlice.ChatbotState.AppendMessage | src/redux/slices/chatbotSlice.ts:47-48 | the shared push of the create-message reducers |
| ChatbotSlice.ChatbotState.SelectChat | src/redux/slices/chatbotSlice.ts:118-120 | the active id is set without checking that the chat exists |
| ChatbotSlice.ChatbotState.DeleteChat | src/redux/slices/chatbotSlice.ts:121-127 | every chat with the id goes; the active id is cleared exactly when it was that id; ids stay unique |
| ChatbotSlice.ChatbotState.UpdateChat | src/redux/slices/chatbotSlice.ts:128-135 | replace-or-append with missing messages as `[]`; ids stay unique |
| Analytics.UserMessageCount | src/services/analytics.ts:34 | the count of user messages: 0 exactly when there is none, all exactly when all are |
| Analytics.ValidTimes | src/services/analytics.ts:36 | exactly the times of the messages whose timestamps parse |
| Analytics.MaxOf | src/services/analytics.ts:38 | the greatest of the times, and one of them |
| Analytics.MinOf | src/services/analytics.ts:38 | the least of the times, and one of them |
| Analytics.Span | src/services/analytics.ts:36-39 | non-negative, the largest distance between two times, 0 without times |
| Analytics.NoUserMessages | src/services/analytics.ts:31-34 | the message count is 0 exactly when no chat holds a user message |
| Analytics.TotalSpan | src/services/analytics.ts:31-39 | the summed duration is non-negative |
| Analytics.TotalSpanBoundsEach | src/services/analytics.ts:36-39 | no chat lasts longer than the total |
| Analytics.LatestIsGreatest | src/services/analytics.ts:40-44 | `lastActive` is `Never` exactly when no time parses, else the greatest valid time of all chats |
| Analytics.RoundSeconds | src/services/analytics.ts:53 | the nearest whole second, halves rounded up |
| Analytics.Summary | src/services/analytics.ts:47-55 | one session per chat; `Unknown` for an empty email; no display name for an empty name; a non-negative duration |
| Analytics.VisitChat | src/services/analytics.ts:32-44 | one chat's user messages, its span, and the updated `lastActive` as `Advance` gives it, which is none when a new time is outside a `Timestamp`'s range |
| Analytics.CheckedLatestAgrees | src/services/analytics.ts:40-44 | the fold with `Timestamp.fromMillis` agrees with the plain `lastActive` whenever it gets through; it gets through when every valid time is within years 1 to 9999; it fails when the final `lastActive` is outside them |
| Analytics.CheckedLatestStaysFailed | src/services/analytics.ts:31-45 | once one chat's turn throws, the whole fold has thrown |
| Analytics.GetUserAnalytics | src/services/analytics.ts:15-60 | nothing without the profile or the chats, nothing when a new `lastActive` is out of a `Timestamp`'s range (the catch returns null); else the fold computes `Summary` |
| Strings.JoinSplitLines | src/services/openrouter.ts:68 | joining the pieces of `split('\n')` with newlines gives the text back |
| Strings.SplitLinesHaveNoNewline | src/services/openrouter.ts:68 | no piece of `split('\n')` holds a newline |
| Strings.SplitLinesJoin | src/services/openrouter.ts:68 | splitting a newline-join of newline-free lines gives the lines back |
| Strings.ConcatAppend | src/services/openrouter.ts:79 | accumulating two runs of deltas is accumulating each in turn |
| Strings.IndexOf | src/components/chatbot/chatbot.tsx:228 | the first position of the character, or -1 exactly when it is absent |
| Strings.NatToString | src/redux/slices/chatbotSlice.ts:25 | decimal digits without a leading zero that spell `n` (`DigitsValue` of the result is `n`) |

## Left out

- The network, Firestore and every `await`: the store is an in-memory
  class, and a batch commit is one assignment to its fields. The HTTP
  reply, the decoded reads, `JSON.parse` of a frame and the embedding
  endpoint are parameters.
- Floating point:
  - `cosineSimilarity` (`src/services/firebase.ts:205-210`) is replaced by
    an abstract integer score.
  - The per-chat durations are summed in exact milliseconds and rounded
    once.
  - Dates are integer milliseconds, from a parser passed in.
- The Firestore `Timestamp` class is not part of this model. Only its
  range, years 1 to 9999, is: `Timestamp.fromMillis` throws outside it,
  and `Analytics.GetUserAnalytics` then returns nothing. The range is taken
  from the library's documented limits.
- Listing order: Firestore lists documents and chunks by document id, while
  the model lists them in the order they were written. The order of
  `getChats` is not modelled either (it returns a map).
- Store error wording: the store's own errors (a missing project on
  update, a failed embedding request) become `NotFound` and
  `RequestFailed`, not the library's messages.
- Store limits:
  - The store's limit of 30 values in an `in` query is not modelled.
  - Deleting a project removes the deleted documents' chunk lists as a
    whole.
- `chunkDocument`: the text splitter is the opaque `chunker` parameter;
  its size and overlap are not modelled.
- The PDF reader is not modelled: the pages of text items are input.
- `nanoid()` and `new Date()`:
  - They are parameters.
  - `RagService.ProcessDocuments` requires distinct document ids for
    distinct files, in place of nanoid's uniqueness.
- `totalText` in `processDocuments` is built but never used, so it is not
  modelled.
- RagService.GenerateRagResponse: states the request and the callback
  arguments of the reply, but not the full result; the result is stated on
  `OpenRouter.SendChatMessage`.
- KnowledgeStore.Store.StoreChunks: `generateEmbedding` returns whatever
  JSON the endpoint answers. The model takes a successful answer as an
  embedding and a failed request as `None`; a malformed answer is not
  distinguished.
- KnowledgeStore.ProjectChunks: when arguments are given, its result is
  stated by `CollectedComplete` and `CollectedSound`, not by its own
  contract.
- The user profile calls (`saveUserData`, `getUserData`), AES encryption of
  the API key, authentication, navigation, scrolling and rendering are not
  part of this model.
- The error messages the page shows in its `catch` blocks are not modelled.
- Strings are sequences of Unicode scalar values, not of UTF-16 code
  units. `length`, `indexOf` and `slice` therefore count an astral
  character (an emoji, say) as one position where JavaScript counts two.
  For example, `slice(-1)` of a buffer ending in an emoji is the whole
  emoji in the model but a lone low surrogate in the source.
- OpenRouter.RelayRead: the `onStream` callback is taken to return
  normally. In the source, an exception it throws is caught by the
  per-line `catch` after the delta was added to `fullResponse`, and the
  next lines are still read; the model does not capture that path.
