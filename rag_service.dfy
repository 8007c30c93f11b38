/**
 * The retrieval-augmented side of the chat client: the text of an uploaded
 * file, the ingestion of a batch of files into a knowledge base, and the
 * system prompt built from the chunks most relevant to a query.
 */
module RagService {
  import opened Wrappers
  import opened Strings
  import opened Types
  import opened KnowledgeStore
  import opened OpenRouter

  /**
   * An uploaded file as the modelled code reads it: its name, its MIME type,
   * its text as `file.text()` decodes it and, for a PDF, the strings of the
   * text items of each page in page order, as the PDF reader extracts them.
   */
  datatype Upload = Upload(name: string, kind: string, text: string, pages: seq<seq<string>>)

  // ------------------------------------------------------- parsing

  /** The text of one PDF page: its items joined by single spaces. */
  function PageText(items: seq<string>): string
  {
    Join(items, " ")
  }

  /** The text of a PDF: every page's text followed by a newline, the last page included. */
  function PdfText(pages: seq<seq<string>>): string
  {
    if pages == [] then "" else PageText(pages[0]) + "\n" + PdfText(pages[1..])
  }

  lemma {:induction false} PdfTextAppend(pages: seq<seq<string>>, page: seq<string>)
    ensures PdfText(pages + [page]) == PdfText(pages) + PageText(page) + "\n"
    decreases |pages|
  {
    if pages == [] {
      assert [page][1..] == [];
    } else {
      assert (pages + [page])[1..] == pages[1..] + [page];
      PdfTextAppend(pages[1..], page);
    }
  }

  /** The texts of the pages, in page order. */
  function PageTexts(pages: seq<seq<string>>): seq<string>
  {
    seq(|pages|, i requires 0 <= i < |pages| => PageText(pages[i]))
  }

  /**
   * When no item holds a newline, splitting a PDF's text at newlines gives
   * back each page's text, in page order, and one empty piece after the
   * final newline.
   */
  lemma {:induction false} PdfPagesAreLines(pages: seq<seq<string>>)
    requires forall page, item :: page in pages && item in page ==> '\n' !in item
    ensures SplitLines(PdfText(pages)) == PageTexts(pages) + [""]
    decreases |pages|
  {
    if pages != [] {
      var rest := pages[1..];
      assert forall page, item :: page in rest && item in page ==> '\n' !in item by {
        forall page, item | page in rest && item in page ensures '\n' !in item { assert page in pages; }
      }
      PdfPagesAreLines(rest);
      JoinHasNoNewline(pages[0], " ");
      SplitLinesAfterLine(PageText(pages[0]), PdfText(rest));
      assert PageTexts(pages) == [PageText(pages[0])] + PageTexts(rest);
    }
  }

  /** What `parseDocument` yields: the plain text as is, the assembled PDF text, or the refusal of any other type. */
  function Parsed(file: Upload): (r: Result<string, string>)
    ensures r.Failure? <==> file.kind != TextPlain && file.kind != ApplicationPdf
    ensures r.Failure? ==> r.error == "Unsupported file type: " + file.kind
    ensures file.kind == TextPlain ==> r == Success(file.text)
  {
    if file.kind == TextPlain then Success(file.text)
    else if file.kind == ApplicationPdf then Success(PdfText(file.pages))
    else Failure("Unsupported file type: " + file.kind)
  }

  /** `parseDocument`, with the page loop that appends each page's text and a newline. */
  method ParseDocument(file: Upload) returns (r: Result<string, string>)
    ensures r == Parsed(file)
  {
    if file.kind == TextPlain {
      return Success(file.text);
    } else if file.kind == ApplicationPdf {
      var text := "";
      var i := 1;
      while i <= |file.pages|
        invariant 1 <= i <= |file.pages| + 1
        invariant text == PdfText(file.pages[..i - 1])
      {
        var pageText := PageText(file.pages[i - 1]);
        assert file.pages[..i] == file.pages[..i - 1] + [file.pages[i - 1]];
        PdfTextAppend(file.pages[..i - 1], file.pages[i - 1]);
        text := text + pageText + "\n";
        i := i + 1;
      }
      assert file.pages[..i - 1] == file.pages;
      return Success(text);
    } else {
      return Failure("Unsupported file type: " + file.kind);
    }
  }

  // ------------------------------------------------------- ingestion

  /** What `processDocuments` returns on success. */
  datatype Ingested = Ingested(documentIds: seq<string>, totalChunksCount: nat)

  /** The number of chunks the chunker makes of the texts, together. */
  function ChunkTotal(texts: seq<string>, chunker: string -> seq<string>): nat
  {
    if texts == [] then 0 else ChunkTotal(texts[..|texts| - 1], chunker) + |chunker(texts[|texts| - 1])|
  }

  /** One more text adds its chunk count. */
  lemma ChunkTotalStep(texts: seq<string>, i: nat, chunker: string -> seq<string>)
    requires i < |texts|
    ensures ChunkTotal(texts[..i + 1], chunker) == ChunkTotal(texts[..i], chunker) + |chunker(texts[i])|
  {
    assert texts[..i + 1][..i] == texts[..i];
  }

  /** The first loop of `processDocuments`: every file is parsed, in order, and the first failure stops it. */
  method ParseAll(files: seq<Upload>) returns (texts: Option<seq<string>>)
    ensures texts.Some? <==> forall i :: 0 <= i < |files| ==> Parsed(files[i]).Success?
    ensures texts.Some? ==> |texts.value| == |files| && forall i :: 0 <= i < |files| ==> texts.value[i] == Parsed(files[i]).value
  {
    var parsed: seq<string> := [];
    var n := 0;
    while n < |files|
      invariant n <= |files| && |parsed| == n
      invariant forall i :: 0 <= i < n ==> Parsed(files[i]).Success? && parsed[i] == Parsed(files[i]).value
    {
      var text := ParseDocument(files[n]);
      if text.Failure? {
        return None;
      }
      parsed := parsed + [text.value];
      n := n + 1;
    }
    return Some(parsed);
  }

  /**
   * Whether one turn of the second loop gets through: the metadata passes
   * the store's checks and finds the project, the document has an id, and
   * the chunker gave at least one chunk, every one of which was embedded.
   */
  predicate Ingestible(projectIds: set<string>, userId: string, ragProjectId: string, name: string, kind: string,
                       chunks: seq<string>, newId: string, embed: string -> Option<Embedding>)
  {
    MetadataAccepted(userId, ragProjectId, name, kind) && ragProjectId in projectIds &&
    newId != "" && |chunks| > 0 && AllEmbedded(chunks, embed)
  }

  /** Whether the metadata passes the store's checks, so that the document itself is written. */
  predicate MetadataAccepted(userId: string, ragProjectId: string, name: string, kind: string)
  {
    userId != "" && ragProjectId != "" && name != "" && kind != "" && AllowedType(kind)
  }

  /**
   * A file fully ingested: its document is listed and recorded in its
   * project, and its chunks follow whatever its document id held before.
   */
  predicate IngestedFile(documents: seq<Document>, chunks: map<string, seq<Chunk>>, projects: map<string, RagProject>,
                         before: map<string, seq<Chunk>>, d: Document, texts: seq<string>, chunkId: nat -> string,
                         embed: string -> Option<Embedding>)
  {
    d in documents && d.ragProjectId in projects && d.documentId in projects[d.ragProjectId].documentIds &&
    AllEmbedded(texts, embed) &&
    ChunksOf(chunks, d.documentId) == ChunksOf(before, d.documentId) + EmbeddedBatch(d.documentId, texts, chunkId, embed)
  }

  /** One turn of the second loop: the file's metadata is saved, then its chunks are stored. */
  method IngestOne(store: Store, userId: string, ragProjectId: string, name: string, kind: string, chunks: seq<string>,
                   newId: string, chunkId: nat -> string, embed: string -> Option<Embedding>, createdAt: string)
    returns (count: Option<nat>)
    requires store.Valid()
    modifies store
    ensures store.Valid()
    ensures count.Some? <==> Ingestible(old(store.projects).Keys, userId, ragProjectId, name, kind, chunks, newId, embed)
    ensures count.Some? ==> count.value == |chunks|
    ensures count.Some? ==>
      IngestedFile(store.documents, store.chunks, store.projects, old(store.chunks),
                   Document(newId, ragProjectId, userId, name, kind, createdAt), chunks, chunkId, embed)
    ensures count.Some? ==> ragProjectId in old(store.projects) && store.projects == ListDocument(old(store.projects), ragProjectId, newId)
    ensures store.projects.Keys == old(store.projects).Keys
    ensures forall p :: p in old(store.projects) ==> forall x :: x in old(store.projects)[p].documentIds ==> x in store.projects[p].documentIds
    ensures forall e :: e in old(store.documents) && e.documentId != newId ==> e in store.documents
    ensures forall id :: id != newId ==> ChunksOf(store.chunks, id) == ChunksOf(old(store.chunks), id)
    ensures MetadataAccepted(userId, ragProjectId, name, kind) ==>
      store.documents == PutDocument(old(store.documents), Document(newId, ragProjectId, userId, name, kind, createdAt))
    ensures MetadataAccepted(userId, ragProjectId, name, kind) && ragProjectId in old(store.projects) ==>
      store.projects == ListDocument(old(store.projects), ragProjectId, newId)
    ensures !MetadataAccepted(userId, ragProjectId, name, kind) ==>
      store.documents == old(store.documents) && store.projects == old(store.projects)
    ensures ragProjectId !in old(store.projects) ==> store.projects == old(store.projects)
    ensures count.None? ==> store.chunks == old(store.chunks)
    ensures forall p :: p in old(store.projects) && p != ragProjectId ==> store.projects[p] == old(store.projects)[p]
    ensures store.chats == old(store.chats)
  {
    var saved := store.SaveDocumentMetadata(userId, ragProjectId, name, kind, newId, createdAt);
    if saved.Failure? {
      return None;
    }
    var stored := store.StoreChunks(saved.value, chunks, chunkId, embed);
    if stored.Failure? {
      return None;
    }
    return Some(stored.value);
  }

  /** Every file parses. */
  predicate AllParsed(files: seq<Upload>)
  {
    forall i :: 0 <= i < |files| ==> Parsed(files[i]).Success?
  }

  /** The texts of the files, in order, when every file parses. */
  function ParsedTexts(files: seq<Upload>): seq<string>
    requires AllParsed(files)
  {
    seq(|files|, i requires 0 <= i < |files| => Parsed(files[i]).value)
  }

  /**
   * What the second loop of `processDocuments` works from: the user, the
   * project, the files and their parsed texts, and the chunker, the id
   * sources, the embedding and the clock.
   */
  datatype Batch = Batch(userId: string, ragProjectId: string, files: seq<Upload>, texts: seq<string>,
                         chunker: string -> seq<string>, documentId: nat -> string, chunkId: nat -> string,
                         embed: string -> Option<Embedding>, createdAt: string)
  {
    /** One text per file, and a distinct document id per file. */
    predicate WellFormed()
    {
      |texts| == |files| && forall i, j :: 0 <= i < j < |files| ==> documentId(i) != documentId(j)
    }

    /** The document metadata written for file `k`. */
    function Doc(k: nat): Document
      requires k < |files|
    {
      Document(documentId(k), ragProjectId, userId, files[k].name, files[k].kind, createdAt)
    }

    /** Each of the first `n` files, chunked from its text, gets through its turn. */
    predicate IngestibleUpTo(projectIds: set<string>, n: nat)
      requires n <= |files| == |texts|
    {
      forall k :: 0 <= k < n ==>
        Ingestible(projectIds, userId, ragProjectId, files[k].name, files[k].kind, chunker(texts[k]), documentId(k), embed)
    }

    /** Each of the first `n` files is fully ingested, against the chunks its document id held in `before`. */
    predicate IngestedUpTo(documents: seq<Document>, chunks: map<string, seq<Chunk>>, projects: map<string, RagProject>,
                           before: map<string, seq<Chunk>>, n: nat)
      requires n <= |files| == |texts|
    {
      forall k :: 0 <= k < n ==> IngestedFile(documents, chunks, projects, before, Doc(k), chunker(texts[k]), chunkId, embed)
    }

    /**
     * What the second loop leaves alone, against the store it started from:
     * the saved chats, the set of projects, every project but this one and
     * every field of this one but its document list, and the chunks of
     * every id no file takes.
     */
    ghost predicate Untouched(chats: map<string, map<string, ChatRecord>>, projects: map<string, RagProject>,
                        chunks: map<string, seq<Chunk>>, chats0: map<string, map<string, ChatRecord>>,
                        projects0: map<string, RagProject>, chunks0: map<string, seq<Chunk>>)
    {
      chats == chats0 && projects.Keys == projects0.Keys &&
      (forall p :: p in projects0 && p != ragProjectId ==> projects[p] == projects0[p]) &&
      (ragProjectId in projects0 ==> projects[ragProjectId].(documentIds := projects0[ragProjectId].documentIds) == projects0[ragProjectId]) &&
      forall id :: (forall k :: 0 <= k < |files| ==> id != documentId(k)) ==> ChunksOf(chunks, id) == ChunksOf(chunks0, id)
    }

    /**
     * What a file that could not be ingested leaves, as no write is undone:
     * its document when its metadata passed the checks, its id in the
     * project's list when the project exists as well, and its chunks as
     * they were in `before`.
     */
    predicate LeftBehind(documents: seq<Document>, chunks: map<string, seq<Chunk>>, projects: map<string, RagProject>,
                         before: map<string, seq<Chunk>>, k: nat)
      requires k < |files|
    {
      (MetadataAccepted(userId, ragProjectId, files[k].name, files[k].kind) ==> Doc(k) in documents) &&
      (MetadataAccepted(userId, ragProjectId, files[k].name, files[k].kind) && ragProjectId in projects ==>
         documentId(k) in projects[ragProjectId].documentIds) &&
      ChunksOf(chunks, documentId(k)) == ChunksOf(before, documentId(k))
    }

    /** Every document of `documents0` whose id no file takes is still listed. */
    predicate Kept(documents0: seq<Document>, documents: seq<Document>)
    {
      forall d :: d in documents0 && (forall k :: 0 <= k < |files| ==> d.documentId != documentId(k)) ==> d in documents
    }
  }

  /**
   * The store after the first `i` turns of the second loop, against the
   * store it started from (`documents0`, `chunks0`, and `projectIds`, the
   * ids of its projects): the first `i` files got through and are ingested,
   * no later file's chunks were touched, and no unrelated document is lost.
   */
  predicate Progress(b: Batch, documents: seq<Document>, chunks: map<string, seq<Chunk>>, projects: map<string, RagProject>,
                     documents0: seq<Document>, chunks0: map<string, seq<Chunk>>, projectIds: set<string>, i: nat)
    requires b.WellFormed() && i <= |b.files|
  {
    projects.Keys == projectIds &&
    b.IngestibleUpTo(projectIds, i) &&
    b.IngestedUpTo(documents, chunks, projects, chunks0, i) &&
    (forall j :: i <= j < |b.files| ==> ChunksOf(chunks, b.documentId(j)) == ChunksOf(chunks0, b.documentId(j))) &&
    b.Kept(documents0, documents)
  }

  /**
   * The store after the second loop stopped at a file that could not be
   * ingested: not every file got through, every file before the first one
   * that could not is ingested, that one left behind what it wrote, and no
   * unrelated document is lost.
   */
  predicate Stopped(b: Batch, documents: seq<Document>, chunks: map<string, seq<Chunk>>, projects: map<string, RagProject>,
                    documents0: seq<Document>, chunks0: map<string, seq<Chunk>>, projectIds: set<string>)
    requires b.WellFormed()
  {
    !b.IngestibleUpTo(projectIds, |b.files|) &&
    (forall k | 0 <= k < |b.files| && b.IngestibleUpTo(projectIds, k + 1) ::
      IngestedFile(documents, chunks, projects, chunks0, b.Doc(k), b.chunker(b.texts[k]), b.chunkId, b.embed)) &&
    (forall k | 0 <= k < |b.files| && b.IngestibleUpTo(projectIds, k) && !b.IngestibleUpTo(projectIds, k + 1) ::
      b.LeftBehind(documents, chunks, projects, chunks0, k)) &&
    b.Kept(documents0, documents)
  }

  /** An ingested file stays ingested while its document, its place in the project and its chunks are kept. */
  lemma IngestedFileKept(documents: seq<Document>, chunks: map<string, seq<Chunk>>, projects: map<string, RagProject>,
                         documents': seq<Document>, chunks': map<string, seq<Chunk>>, projects': map<string, RagProject>,
                         before: map<string, seq<Chunk>>, d: Document, texts: seq<string>, chunkId: nat -> string,
                         embed: string -> Option<Embedding>)
    requires IngestedFile(documents, chunks, projects, before, d, texts, chunkId, embed)
    requires d in documents ==> d in documents'
    requires d.ragProjectId in projects ==> d.ragProjectId in projects'
    requires d.ragProjectId in projects && d.ragProjectId in projects' ==>
      forall x :: x in projects[d.ragProjectId].documentIds ==> x in projects'[d.ragProjectId].documentIds
    requires ChunksOf(chunks', d.documentId) == ChunksOf(chunks, d.documentId)
    ensures IngestedFile(documents', chunks', projects', before, d, texts, chunkId, embed)
  {
  }

  /**
   * One turn of the second loop: given what `IngestOne` promises about the
   * store before (`documents`, `chunks`, `projects`) and after the turn,
   * the loop advances to the next file when file `i` got through, and has
   * stopped as `processDocuments` leaves it otherwise.
   */
  lemma ProgressStep(b: Batch, documents: seq<Document>, chunks: map<string, seq<Chunk>>, projects: map<string, RagProject>,
                     documents': seq<Document>, chunks': map<string, seq<Chunk>>, projects': map<string, RagProject>,
                     documents0: seq<Document>, chunks0: map<string, seq<Chunk>>, projectIds: set<string>, i: nat, ok: bool)
    requires b.WellFormed() && i < |b.files|
    requires Progress(b, documents, chunks, projects, documents0, chunks0, projectIds, i)
    requires projects'.Keys == projects.Keys
    requires ok <==> Ingestible(projects.Keys, b.userId, b.ragProjectId, b.files[i].name, b.files[i].kind, b.chunker(b.texts[i]),
                                b.documentId(i), b.embed)
    requires ok ==> IngestedFile(documents', chunks', projects', chunks, b.Doc(i), b.chunker(b.texts[i]), b.chunkId, b.embed)
    requires !ok ==> b.LeftBehind(documents', chunks', projects', chunks, i)
    requires forall p :: p in projects ==> forall x :: x in projects[p].documentIds ==> x in projects'[p].documentIds
    requires forall e :: e in documents && e.documentId != b.documentId(i) ==> e in documents'
    requires forall id :: id != b.documentId(i) ==> ChunksOf(chunks', id) == ChunksOf(chunks, id)
    ensures ok ==> Progress(b, documents', chunks', projects', documents0, chunks0, projectIds, i + 1)
    ensures !ok ==> Stopped(b, documents', chunks', projects', documents0, chunks0, projectIds)
  {
    forall k | 0 <= k < i
      ensures IngestedFile(documents', chunks', projects', chunks0, b.Doc(k), b.chunker(b.texts[k]), b.chunkId, b.embed)
    {
      assert IngestedFile(documents, chunks, projects, chunks0, b.Doc(k), b.chunker(b.texts[k]), b.chunkId, b.embed);
      IngestedFileKept(documents, chunks, projects, documents', chunks', projects', chunks0,
                       b.Doc(k), b.chunker(b.texts[k]), b.chunkId, b.embed);
    }
    assert ChunksOf(chunks, b.documentId(i)) == ChunksOf(chunks0, b.documentId(i));
    if ok {
      assert IngestedFile(documents', chunks', projects', chunks0, b.Doc(i), b.chunker(b.texts[i]), b.chunkId, b.embed);
    } else {
      assert b.LeftBehind(documents', chunks', projects', chunks0, i);
      forall k | 0 <= k < |b.files| && b.IngestibleUpTo(projectIds, k) && !b.IngestibleUpTo(projectIds, k + 1)
        ensures k == i
      {
      }
    }
  }

  /** One turn of the second loop, which writes only file `i`'s chunks and this project, leaves the rest alone. */
  lemma UntouchedStep(b: Batch, chats: map<string, map<string, ChatRecord>>, projects: map<string, RagProject>,
                      chunks: map<string, seq<Chunk>>, chats': map<string, map<string, ChatRecord>>,
                      projects': map<string, RagProject>, chunks': map<string, seq<Chunk>>,
                      chats0: map<string, map<string, ChatRecord>>, projects0: map<string, RagProject>,
                      chunks0: map<string, seq<Chunk>>, i: nat)
    requires i < |b.files|
    requires b.Untouched(chats, projects, chunks, chats0, projects0, chunks0)
    requires chats' == chats && projects'.Keys == projects.Keys
    requires forall p :: p in projects && p != b.ragProjectId ==> projects'[p] == projects[p]
    requires b.ragProjectId in projects ==>
      projects'[b.ragProjectId].(documentIds := projects[b.ragProjectId].documentIds) == projects[b.ragProjectId]
    requires forall id :: id != b.documentId(i) ==> ChunksOf(chunks', id) == ChunksOf(chunks, id)
    ensures b.Untouched(chats', projects', chunks', chats0, projects0, chunks0)
  {
  }

  /** One more file's document id extends the ids of the files before it. */
  lemma IdsStep(ids: seq<string>, documentId: nat -> string, i: nat)
    requires |ids| == i && forall k :: 0 <= k < i ==> ids[k] == documentId(k)
    ensures |ids + [documentId(i)]| == i + 1 && forall k :: 0 <= k < i + 1 ==> (ids + [documentId(i)])[k] == documentId(k)
  {
  }

  /**
   * Turn `i` of the second loop, against the store the loop started from
   * (`documents0`, `chunks0`, `chats0`, `projects0`): file `i` is ingested
   * and the loop moves on to the next file, or it has stopped; either way
   * the rest of the store is left alone.
   */
  method IngestTurn(store: Store, b: Batch, i: nat, ghost documents0: seq<Document>, ghost chunks0: map<string, seq<Chunk>>,
                    ghost chats0: map<string, map<string, ChatRecord>>, ghost projects0: map<string, RagProject>)
    returns (count: Option<nat>)
    requires store.Valid() && b.WellFormed() && i < |b.files|
    requires Progress(b, store.documents, store.chunks, store.projects, documents0, chunks0, projects0.Keys, i)
    requires b.Untouched(store.chats, store.projects, store.chunks, chats0, projects0, chunks0)
    modifies store
    ensures store.Valid()
    ensures count.Some? ==> count.value == |b.chunker(b.texts[i])|
    ensures count.Some? ==> Progress(b, store.documents, store.chunks, store.projects, documents0, chunks0, projects0.Keys, i + 1)
    ensures count.None? ==> Stopped(b, store.documents, store.chunks, store.projects, documents0, chunks0, projects0.Keys)
    ensures b.Untouched(store.chats, store.projects, store.chunks, chats0, projects0, chunks0)
  {
    ghost var documents, chunks, projects, chats := store.documents, store.chunks, store.projects, store.chats;
    count := IngestOne(store, b.userId, b.ragProjectId, b.files[i].name, b.files[i].kind, b.chunker(b.texts[i]),
                       b.documentId(i), b.chunkId, b.embed, b.createdAt);
    ProgressStep(b, documents, chunks, projects, store.documents, store.chunks, store.projects,
                 documents0, chunks0, projects0.Keys, i, count.Some?);
    UntouchedStep(b, chats, projects, chunks, store.chats, store.projects, store.chunks, chats0, projects0, chunks0, i);
  }

  /**
   * The second loop of `processDocuments`: each file in turn is chunked,
   * its metadata saved and its chunks stored. The first failure gives no
   * result, and what earlier files wrote stays.
   */
  method IngestAll(store: Store, b: Batch) returns (r: Option<Ingested>)
    requires store.Valid() && b.WellFormed()
    modifies store
    ensures store.Valid()
    ensures r.Some? ==> Progress(b, store.documents, store.chunks, store.projects, old(store.documents), old(store.chunks),
                                 old(store.projects).Keys, |b.files|)
    ensures r.Some? ==> |r.value.documentIds| == |b.files| && forall i :: 0 <= i < |b.files| ==> r.value.documentIds[i] == b.documentId(i)
    ensures r.Some? ==> r.value.totalChunksCount == ChunkTotal(b.texts, b.chunker)
    ensures r.None? ==> Stopped(b, store.documents, store.chunks, store.projects, old(store.documents), old(store.chunks),
                                old(store.projects).Keys)
    ensures b.Untouched(store.chats, store.projects, store.chunks, old(store.chats), old(store.projects), old(store.chunks))
  {
    ghost var documents0, chunks0, chats0, projects0 := store.documents, store.chunks, store.chats, store.projects;
    var documentIds: seq<string> := [];
    var totalChunksCount := 0;
    var i := 0;
    while i < |b.files|
      invariant i <= |b.files| && store.Valid()
      invariant |documentIds| == i && forall k :: 0 <= k < i ==> documentIds[k] == b.documentId(k)
      invariant totalChunksCount == ChunkTotal(b.texts[..i], b.chunker)
      invariant Progress(b, store.documents, store.chunks, store.projects, documents0, chunks0, projects0.Keys, i)
      invariant b.Untouched(store.chats, store.projects, store.chunks, chats0, projects0, chunks0)
    {
      var count := IngestTurn(store, b, i, documents0, chunks0, chats0, projects0);
      if count.None? {
        return None;
      }
      ChunkTotalStep(b.texts, i, b.chunker);
      IdsStep(documentIds, b.documentId, i);
      documentIds := documentIds + [b.documentId(i)];
      totalChunksCount := totalChunksCount + count.value;
      i := i + 1;
    }
    assert b.texts[..i] == b.texts;
    return Some(Ingested(documentIds, totalChunksCount));
  }

  /**
   * `processDocuments`. Every file is parsed before anything is written, so
   * an unparsable file leaves the store as it was; then the files are
   * ingested in turn, and any failure gives no result while what earlier
   * files wrote stays in the store. File `i` gets document id
   * `documentId(i)`; the chunk ids, the embedding and the clock are passed
   * in as well.
   */
  method ProcessDocuments(store: Store, userId: string, ragProjectId: string, files: seq<Upload>,
                          chunker: string -> seq<string>, documentId: nat -> string, chunkId: nat -> string,
                          embed: string -> Option<Embedding>, createdAt: string)
    returns (r: Option<Ingested>)
    requires store.Valid()
    requires forall i, j :: 0 <= i < j < |files| ==> documentId(i) != documentId(j)
    modifies store
    ensures store.Valid()
    ensures !AllParsed(files) ==> r == None && unchanged(store)
    ensures r.Some? ==> AllParsed(files)
    ensures AllParsed(files) ==>
      var b := Batch(userId, ragProjectId, files, ParsedTexts(files), chunker, documentId, chunkId, embed, createdAt);
      (r.Some? <==> b.IngestibleUpTo(old(store.projects).Keys, |files|)) &&
      (forall k | 0 <= k < |files| && b.IngestibleUpTo(old(store.projects).Keys, k + 1) ::
        IngestedFile(store.documents, store.chunks, store.projects, old(store.chunks), b.Doc(k), chunker(ParsedTexts(files)[k]),
                     chunkId, embed)) &&
      forall k | 0 <= k < |files| && b.IngestibleUpTo(old(store.projects).Keys, k) && !b.IngestibleUpTo(old(store.projects).Keys, k + 1) ::
        b.LeftBehind(store.documents, store.chunks, store.projects, old(store.chunks), k)
    ensures r.Some? ==> |r.value.documentIds| == |files| && forall i :: 0 <= i < |files| ==> r.value.documentIds[i] == documentId(i)
    ensures r.Some? ==> r.value.totalChunksCount == ChunkTotal(ParsedTexts(files), chunker)
    ensures forall d :: d in old(store.documents) && (forall i :: 0 <= i < |files| ==> d.documentId != documentId(i)) ==> d in store.documents
    ensures store.chats == old(store.chats)
    ensures store.projects.Keys == old(store.projects).Keys
    ensures forall p :: p in old(store.projects) && p != ragProjectId ==> store.projects[p] == old(store.projects)[p]
    ensures ragProjectId in old(store.projects) ==>
      store.projects[ragProjectId].(documentIds := old(store.projects)[ragProjectId].documentIds) == old(store.projects)[ragProjectId]
    ensures forall id :: (forall i :: 0 <= i < |files| ==> id != documentId(i)) ==>
      ChunksOf(store.chunks, id) == ChunksOf(old(store.chunks), id)
  {
    var parsed := ParseAll(files);
    if parsed.None? {
      return None;
    }
    var texts := parsed.value;
    assert texts == ParsedTexts(files);
    var b := Batch(userId, ragProjectId, files, texts, chunker, documentId, chunkId, embed, createdAt);
    r := IngestAll(store, b);
  }

  // ------------------------------------------------------- answering

  const ContextLead := "Answer based on the provided context:\n"
  const NoContextPrompt := "No relevant context found. Answer generally."

  /** The texts of the ranked chunks, in rank order. */
  function TextsOf(ranked: seq<Scored>): seq<string>
  {
    seq(|ranked|, i requires 0 <= i < |ranked| => ranked[i].text)
  }

  /**
   * The context of `generateRAGResponse` for the projects in order: each
   * project adds its relevant chunk texts joined by newlines, and a newline.
   * The first failed relevance query fails the whole.
   */
  function ContextFor(docs: seq<Document>, chunks: map<string, seq<Chunk>>, projectIds: seq<string>, query: string,
                      userId: string, embed: string -> Option<Embedding>,
                      similarity: (Embedding, Embedding) -> int): Result<string, StoreError>
  {
    if projectIds == [] then Success("")
    else
      match ContextFor(docs, chunks, projectIds[..|projectIds| - 1], query, userId, embed, similarity)
      case Failure(e) => Failure(e)
      case Success(context) =>
        match RelevantChunks(docs, chunks, projectIds[|projectIds| - 1], query, userId, embed, similarity)
        case Failure(e) => Failure(e)
        case Success(ranked) => Success(context + Join(TextsOf(ranked), "\n") + "\n")
  }

  /** The system prompt: the context after a fixed lead, or a fixed fallback when the context is empty. */
  function RagSystemPrompt(context: string): (prompt: string)
    ensures context == "" ==> prompt == NoContextPrompt
    ensures context != "" ==> prompt == ContextLead + context
  {
    if context != "" then ContextLead + context else NoContextPrompt
  }

  /**
   * A context built for at least one project is never empty, even when no
   * chunk was found, so the prompt always leads with the context then; with
   * no project the fallback prompt is used.
   */
  lemma ContextPromptChoice(docs: seq<Document>, chunks: map<string, seq<Chunk>>, projectIds: seq<string>, query: string,
                            userId: string, embed: string -> Option<Embedding>, similarity: (Embedding, Embedding) -> int)
    requires ContextFor(docs, chunks, projectIds, query, userId, embed, similarity).Success?
    ensures var context := ContextFor(docs, chunks, projectIds, query, userId, embed, similarity).value;
      (projectIds == [] <==> context == "") &&
      (projectIds == [] ==> RagSystemPrompt(context) == NoContextPrompt) &&
      (projectIds != [] ==> RagSystemPrompt(context) == ContextLead + context && context[|context| - 1] == '\n')
  {
  }

  /** The loop of `generateRAGResponse` that builds the context, one relevance query per project. */
  method BuildContext(store: Store, ragProjectIds: seq<string>, query: string, userId: string,
                      embed: string -> Option<Embedding>, similarity: (Embedding, Embedding) -> int)
    returns (r: Result<string, StoreError>)
    ensures r == ContextFor(store.documents, store.chunks, ragProjectIds, query, userId, embed, similarity)
  {
    var context := "";
    var i := 0;
    while i < |ragProjectIds|
      invariant i <= |ragProjectIds|
      invariant ContextFor(store.documents, store.chunks, ragProjectIds[..i], query, userId, embed, similarity) == Success(context)
    {
      assert ragProjectIds[..i + 1][..i] == ragProjectIds[..i];
      var ranked := store.GetRelevantChunks(ragProjectIds[i], query, userId, embed, similarity);
      if ranked.Failure? {
        FailureStays(store.documents, store.chunks, ragProjectIds, i + 1, query, userId, embed, similarity);
        return Failure(ranked.error);
      }
      context := context + Join(TextsOf(ranked.value), "\n") + "\n";
      i := i + 1;
    }
    assert ragProjectIds[..i] == ragProjectIds;
    return Success(context);
  }

  /** Once a prefix of the projects fails, so does the whole list. */
  lemma {:induction false} FailureStays(docs: seq<Document>, chunks: map<string, seq<Chunk>>, projectIds: seq<string>, k: nat,
                                        query: string, userId: string, embed: string -> Option<Embedding>,
                                        similarity: (Embedding, Embedding) -> int)
    requires k <= |projectIds|
    requires ContextFor(docs, chunks, projectIds[..k], query, userId, embed, similarity).Failure?
    ensures ContextFor(docs, chunks, projectIds, query, userId, embed, similarity) ==
            ContextFor(docs, chunks, projectIds[..k], query, userId, embed, similarity)
    decreases |projectIds| - k
  {
    if k < |projectIds| {
      assert projectIds[..k + 1][..k] == projectIds[..k];
      FailureStays(docs, chunks, projectIds, k + 1, query, userId, embed, similarity);
    } else {
      assert projectIds[..k] == projectIds;
    }
  }

  /** What `generateRAGResponse` comes to: a failed relevance query, or the completion request and its outcome. */
  datatype RagReply =
    | ContextFailed(error: StoreError)
    | Sent(request: ChatRequest, result: Result<string, string>, calls: seq<string>)

  /**
   * `generateRAGResponse`: the context is built first; then a single user
   * message holding the query is sent, with the prompt the context selects.
   * The chat history is not sent.
   */
  method GenerateRagResponse(store: Store, ragProjectIds: seq<string>, query: string, llmModel: string, userId: string,
                             embed: string -> Option<Embedding>, similarity: (Embedding, Embedding) -> int,
                             reply: HttpReply, parse: string -> ParsedFrame, hasCallback: bool)
    returns (r: RagReply)
    ensures var context := ContextFor(store.documents, store.chunks, ragProjectIds, query, userId, embed, similarity);
      (context.Failure? ==> r == ContextFailed(context.error)) &&
      (context.Success? ==>
        r.Sent? && r.request == ChatRequest(llmModel, OutgoingMessages([ApiMessage("user", query)], Some(RagSystemPrompt(context.value))), true))
    ensures r.Sent? ==> r.request.messages[1..] == [ApiMessage("user", query)]
    ensures r.Sent? && !Streams(reply) ==> r.result == Failure(FailedResponse) && r.calls == []
    ensures r.Sent? && Streams(reply) ==> r.calls == if hasCallback then RelayedDeltas(reply.body.value, parse) else []
  {
    var context := BuildContext(store, ragProjectIds, query, userId, embed, similarity);
    if context.Failure? {
      return ContextFailed(context.error);
    }
    var systemPrompt := if context.value != "" then ContextLead + context.value else NoContextPrompt;
    var request, result, calls := SendChatMessage(llmModel, [ApiMessage("user", query)], Some(systemPrompt), reply, parse, hasCallback);
    return Sent(request, result, calls);
  }
}
