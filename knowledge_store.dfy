/**
 * The knowledge-base side of the document store, held in memory: projects,
 * document metadata, the embedded chunks of each document and the chat
 * documents of each user. A batch commit is a single assignment to the
 * store's fields; the embedding model and the similarity of two embeddings
 * are parameters, and a fresh id or a creation time is passed in by the
 * caller.
 */
module KnowledgeStore {
  import opened Wrappers
  import opened Types

  /** Why a store operation fails. */
  datatype StoreError =
    | Rejected(message: string)  // an Error the store functions throw themselves, with its message
    | NotFound                   // the store refuses to update a document that does not exist
    | RequestFailed              // the embedding request did not produce an embedding

  /** What `saveRAGProjectToFirebase` returns. */
  datatype ProjectRef = ProjectRef(ragProjectId: string, name: string)

  /** A candidate of a relevance query: a chunk's text and its similarity to the query. */
  datatype Scored = Scored(text: string, similarity: int)

  /** What `getChunksForProjects` lists of each chunk. */
  datatype ChunkRef = ChunkRef(chunkId: string, text: string, documentId: string)

  const TextPlain := "text/plain"
  const ApplicationPdf := "application/pdf"

  /** The number of chunks a relevance query returns at most. */
  const RelevantLimit := 5

  /** The MIME types a document may have. */
  predicate AllowedType(fileType: string)
  {
    fileType == TextPlain || fileType == ApplicationPdf
  }

  // ------------------------------------------------------- documents

  predicate UniqueDocumentIds(docs: seq<Document>)
  {
    forall i, j :: 0 <= i < j < |docs| ==> docs[i].documentId != docs[j].documentId
  }

  /** The position of the document with that id, or -1. */
  function FindDocument(docs: seq<Document>, id: string): (k: int)
    ensures -1 <= k < |docs|
    ensures k >= 0 ==> docs[k].documentId == id
    ensures k < 0 ==> forall j :: 0 <= j < |docs| ==> docs[j].documentId != id
  {
    if docs == [] then -1
    else if docs[|docs| - 1].documentId == id then |docs| - 1
    else FindDocument(docs[..|docs| - 1], id)
  }

  /**
   * Writing a document: the one stored under the same id is replaced in
   * place, otherwise the new one is listed last.
   */
  function PutDocument(docs: seq<Document>, d: Document): (r: seq<Document>)
    ensures d in r
    ensures UniqueDocumentIds(docs) ==> UniqueDocumentIds(r)
    ensures forall e :: e in docs && e.documentId != d.documentId ==> e in r
    ensures UniqueDocumentIds(docs) ==> forall e :: e in r ==> e == d || (e in docs && e.documentId != d.documentId)
  {
    var k := FindDocument(docs, d.documentId);
    if k >= 0 then
      assert forall e :: e in docs && e.documentId != d.documentId ==> e in docs[k := d] by {
        forall e | e in docs && e.documentId != d.documentId ensures e in docs[k := d] {
          var j :| 0 <= j < |docs| && docs[j] == e;
          assert docs[k := d][j] == e;
        }
      }
      assert docs[k := d][k] == d;
      docs[k := d]
    else
      docs + [d]
  }

  /** The documents whose ids are not in `ids`, in their order. */
  function DocumentsWithout(docs: seq<Document>, ids: set<string>): (r: seq<Document>)
    ensures forall d :: d in r <==> d in docs && d.documentId !in ids
    ensures |r| <= |docs|
  {
    if docs == [] then []
    else
      var d := docs[|docs| - 1];
      DocumentsWithout(docs[..|docs| - 1], ids) + (if d.documentId in ids then [] else [d])
  }

  /** The ids of the documents of project `projectId` that belong to `userId`. */
  function OwnedDocumentIds(docs: seq<Document>, projectId: string, userId: string): set<string>
  {
    set d | d in docs && d.ragProjectId == projectId && d.userId == userId :: d.documentId
  }

  /** The stored chunks of a document; none when it has none. */
  function ChunksOf(chunks: map<string, seq<Chunk>>, documentId: string): seq<Chunk>
  {
    if documentId in chunks then chunks[documentId] else []
  }

  /** The chunks whose documents lie outside `ids`. */
  function ChunksWithout(chunks: map<string, seq<Chunk>>, ids: set<string>): map<string, seq<Chunk>>
  {
    map k | k in chunks && k !in ids :: chunks[k]
  }

  /**
   * Removing a project deletes exactly the documents of that project that
   * belong to its owner, and the chunks of those documents; every other
   * document stays listed and keeps its chunks.
   */
  lemma DeleteKeepsOthers(docs: seq<Document>, chunks: map<string, seq<Chunk>>, projectId: string, userId: string, d: Document)
    requires UniqueDocumentIds(docs) && d in docs
    ensures var ids := OwnedDocumentIds(docs, projectId, userId);
      (d in DocumentsWithout(docs, ids) <==> !(d.ragProjectId == projectId && d.userId == userId)) &&
      (d.documentId in ChunksWithout(chunks, ids) <==> d.documentId in chunks && !(d.ragProjectId == projectId && d.userId == userId)) &&
      (d.documentId in ChunksWithout(chunks, ids) ==> ChunksWithout(chunks, ids)[d.documentId] == chunks[d.documentId])
  {
    var ids := OwnedDocumentIds(docs, projectId, userId);
    assert forall e :: e in docs && e.documentId == d.documentId ==> e == d by {
      forall e | e in docs && e.documentId == d.documentId ensures e == d {
        var i :| 0 <= i < |docs| && docs[i] == d;
        var j :| 0 <= j < |docs| && docs[j] == e;
      }
    }
  }

  // ------------------------------------------------------- projects

  /** `arrayUnion`: the id is added at the end unless it is already listed. */
  function ArrayUnion(ids: seq<string>, id: string): (r: seq<string>)
    ensures |ids| <= |r| <= |ids| + 1 && r[..|ids|] == ids
    ensures forall x :: x in r <==> x in ids || x == id
  {
    if id in ids then ids else ids + [id]
  }

  /** The project with the document id added to its list by `arrayUnion`. */
  function ListDocument(projects: map<string, RagProject>, projectId: string, documentId: string): map<string, RagProject>
    requires projectId in projects
  {
    projects[projectId := projects[projectId].(documentIds := ArrayUnion(projects[projectId].documentIds, documentId))]
  }

  // ------------------------------------------------------- chunks

  /** Every text's embedding was obtained. */
  predicate AllEmbedded(texts: seq<string>, embed: string -> Option<Embedding>)
  {
    forall i :: 0 <= i < |texts| ==> embed(texts[i]).Some?
  }

  /** The chunks written for the texts of a document: chunk `i` holds text `i`, position `i` and its embedding. */
  function EmbeddedBatch(documentId: string, texts: seq<string>, chunkId: nat -> string, embed: string -> Option<Embedding>): seq<Chunk>
    requires AllEmbedded(texts, embed)
  {
    seq(|texts|, i requires 0 <= i < |texts| => Chunk(chunkId(i), texts[i], documentId, i, embed(texts[i]).value))
  }

  /**
   * The write batch of `storeChunks`: chunk `i` holds the i-th text, its
   * position `i`, the document id and the text's embedding. One failed
   * embedding request fails the whole batch.
   */
  method EmbedChunks(documentId: string, texts: seq<string>, chunkId: nat -> string, embed: string -> Option<Embedding>)
    returns (batch: Result<seq<Chunk>, StoreError>)
    ensures batch.Success? <==> AllEmbedded(texts, embed)
    ensures batch.Failure? ==> batch.error == RequestFailed
    ensures batch.Success? ==> |batch.value| == |texts|
    ensures batch.Success? ==>
      forall i :: 0 <= i < |texts| ==> batch.value[i] == Chunk(chunkId(i), texts[i], documentId, i, embed(texts[i]).value)
    ensures batch.Success? ==> batch.value == EmbeddedBatch(documentId, texts, chunkId, embed)
  {
    var written: seq<Chunk> := [];
    var index := 0;
    while index < |texts|
      invariant index <= |texts| && |written| == index
      invariant forall i :: 0 <= i < index ==> embed(texts[i]).Some?
      invariant forall i :: 0 <= i < index ==> written[i] == Chunk(chunkId(i), texts[i], documentId, i, embed(texts[i]).value)
    {
      var embedding := embed(texts[index]);
      if embedding.None? {
        return Failure(RequestFailed);
      }
      written := written + [Chunk(chunkId(index), texts[index], documentId, index, embedding.value)];
      index := index + 1;
    }
    return Success(written);
  }

  /** The view of every chunk, in order. */
  function Viewed<T>(cs: seq<Chunk>, view: Chunk -> T): seq<T>
  {
    seq(|cs|, i requires 0 <= i < |cs| => view(cs[i]))
  }

  /**
   * What a query over the documents collects: for each listed document that
   * `keep` selects, in listing order, the view of each of its chunks.
   */
  function Collected<T>(docs: seq<Document>, chunks: map<string, seq<Chunk>>, keep: Document -> bool, view: Chunk -> T): seq<T>
  {
    if docs == [] then []
    else
      var d := docs[|docs| - 1];
      Collected(docs[..|docs| - 1], chunks, keep, view) + (if keep(d) then Viewed(ChunksOf(chunks, d.documentId), view) else [])
  }

  lemma CollectedStep<T>(docs: seq<Document>, i: nat, chunks: map<string, seq<Chunk>>, keep: Document -> bool, view: Chunk -> T)
    requires i < |docs|
    ensures Collected(docs[..i + 1], chunks, keep, view) ==
      Collected(docs[..i], chunks, keep, view) + (if keep(docs[i]) then Viewed(ChunksOf(chunks, docs[i].documentId), view) else [])
  {
    assert docs[..i + 1][..i] == docs[..i];
  }

  /** Every chunk of every selected document is collected. */
  lemma {:induction false} CollectedComplete<T>(docs: seq<Document>, chunks: map<string, seq<Chunk>>, keep: Document -> bool,
                                                view: Chunk -> T, d: Document, c: Chunk)
    requires d in docs && keep(d) && c in ChunksOf(chunks, d.documentId)
    ensures view(c) in Collected(docs, chunks, keep, view)
  {
    var last := docs[|docs| - 1];
    var init := docs[..|docs| - 1];
    if d == last {
      var k :| 0 <= k < |ChunksOf(chunks, d.documentId)| && ChunksOf(chunks, d.documentId)[k] == c;
      assert Viewed(ChunksOf(chunks, d.documentId), view)[k] == view(c);
    } else {
      assert docs == init + [last];
      CollectedComplete(init, chunks, keep, view, d, c);
    }
  }

  /** Nothing is collected but the chunks of selected documents. */
  lemma {:induction false} CollectedSound<T>(docs: seq<Document>, chunks: map<string, seq<Chunk>>, keep: Document -> bool,
                                             view: Chunk -> T, y: T)
    requires y in Collected(docs, chunks, keep, view)
    ensures exists d, c :: d in docs && keep(d) && c in ChunksOf(chunks, d.documentId) && y == view(c)
  {
    var last := docs[|docs| - 1];
    var init := docs[..|docs| - 1];
    assert docs == init + [last];
    if y in Collected(init, chunks, keep, view) {
      CollectedSound(init, chunks, keep, view, y);
      var d, c :| d in init && keep(d) && c in ChunksOf(chunks, d.documentId) && y == view(c);
      assert d in docs;
    } else {
      var cs := ChunksOf(chunks, last.documentId);
      var k :| 0 <= k < |cs| && Viewed(cs, view)[k] == y;
      assert cs[k] in cs;
    }
  }

  /** The selection of `getRelevantChunks`: the project's documents that belong to the user. */
  function InProject(projectId: string, userId: string): Document -> bool
  {
    (d: Document) => d.ragProjectId == projectId && d.userId == userId
  }

  /** The selection of `getChunksForProjects`: the documents of any of the projects that belong to the user. */
  function InProjects(projectIds: seq<string>, userId: string): Document -> bool
  {
    (d: Document) => d.ragProjectId in projectIds && d.userId == userId
  }

  /** A chunk as a relevance candidate: its text and its similarity to the query. */
  function ScoredAgainst(query: Embedding, similarity: (Embedding, Embedding) -> int): Chunk -> Scored
  {
    (c: Chunk) => Scored(c.text, similarity(query, c.embedding))
  }

  function RefOf(c: Chunk): ChunkRef
  {
    ChunkRef(c.chunkId, c.text, c.documentId)
  }

  // ------------------------------------------------------- ranking

  predicate RankedDown(s: seq<Scored>)
  {
    forall i, j :: 0 <= i < j < |s| ==> s[i].similarity >= s[j].similarity
  }

  /** Insertion behind every candidate that scores at least as high, which keeps ties in arrival order. */
  function InsertRanked(x: Scored, s: seq<Scored>): seq<Scored>
  {
    if s == [] then [x]
    else if s[0].similarity >= x.similarity then [s[0]] + InsertRanked(x, s[1..])
    else [x] + s
  }

  /** The candidates ordered by non-increasing similarity (a stable sort). */
  function SortRanked(xs: seq<Scored>): seq<Scored>
  {
    if xs == [] then [] else InsertRanked(xs[|xs| - 1], SortRanked(xs[..|xs| - 1]))
  }

  /** The candidates after insertion are the old ones and the inserted one. */
  lemma {:induction false} InsertRankedCounts(x: Scored, s: seq<Scored>)
    ensures multiset(InsertRanked(x, s)) == multiset(s) + multiset{x}
    ensures |InsertRanked(x, s)| == |s| + 1
  {
    if s != [] && s[0].similarity >= x.similarity {
      InsertRankedCounts(x, s[1..]);
      assert s == [s[0]] + s[1..];
    }
  }

  /** A candidate in front of a ranked list that scores no lower than any of it keeps the list ranked. */
  lemma RankedCons(a: Scored, rest: seq<Scored>)
    requires RankedDown(rest)
    requires forall y :: y in rest ==> y.similarity <= a.similarity
    ensures RankedDown([a] + rest)
  {
    var r := [a] + rest;
    forall i, j | 0 <= i < j < |r| ensures r[i].similarity >= r[j].similarity {
      assert r[j] == rest[j - 1];
      if i > 0 { assert r[i] == rest[i - 1]; }
    }
  }

  lemma {:induction false} InsertRankedKeepsOrder(x: Scored, s: seq<Scored>)
    requires RankedDown(s)
    ensures RankedDown(InsertRanked(x, s))
  {
    if s == [] {
    } else if s[0].similarity >= x.similarity {
      var tail := s[1..];
      var rest := InsertRanked(x, tail);
      InsertRankedKeepsOrder(x, tail);
      InsertRankedCounts(x, tail);
      forall y | y in rest ensures y.similarity <= s[0].similarity {
        assert y in multiset(rest);
        if y != x {
          var j :| 0 <= j < |tail| && tail[j] == y;
          assert s[j + 1] == y;
        }
      }
      RankedCons(s[0], rest);
    } else {
      forall y | y in s ensures y.similarity <= x.similarity {
        var j :| 0 <= j < |s| && s[j] == y;
      }
      RankedCons(x, s);
    }
  }

  lemma {:induction false} SortRankedOrders(xs: seq<Scored>)
    ensures RankedDown(SortRanked(xs))
    ensures multiset(SortRanked(xs)) == multiset(xs)
    ensures |SortRanked(xs)| == |xs|
  {
    if xs != [] {
      var init := xs[..|xs| - 1];
      SortRankedOrders(init);
      InsertRankedKeepsOrder(xs[|xs| - 1], SortRanked(init));
      InsertRankedCounts(xs[|xs| - 1], SortRanked(init));
      assert xs == init + [xs[|xs| - 1]];
    }
  }

  /** The candidates with similarity `v`, in their order. */
  function WithSimilarity(s: seq<Scored>, v: int): seq<Scored>
  {
    if s == [] then [] else (if s[0].similarity == v then [s[0]] else []) + WithSimilarity(s[1..], v)
  }

  lemma {:induction false} WithSimilarityAppend(a: seq<Scored>, b: seq<Scored>, v: int)
    ensures WithSimilarity(a + b, v) == WithSimilarity(a, v) + WithSimilarity(b, v)
  {
    if a == [] {
      assert a + b == b;
    } else {
      assert (a + b)[1..] == a[1..] + b;
      WithSimilarityAppend(a[1..], b, v);
    }
  }

  /** Inserting into a ranked list puts the candidate behind every one of equal similarity. */
  lemma {:induction false} InsertRankedStable(x: Scored, s: seq<Scored>, v: int)
    requires RankedDown(s)
    ensures WithSimilarity(InsertRanked(x, s), v) == WithSimilarity(s, v) + (if x.similarity == v then [x] else [])
  {
    if s == [] {
    } else if s[0].similarity >= x.similarity {
      assert RankedDown(s[1..]);
      InsertRankedStable(x, s[1..], v);
      assert ([s[0]] + InsertRanked(x, s[1..]))[1..] == InsertRanked(x, s[1..]);
    } else {
      if x.similarity == v {
        NoneWithSimilarity(s, v);
      }
      assert ([x] + s)[1..] == s;
    }
  }

  /** A ranked list that starts below `v` holds nothing of similarity `v`. */
  lemma {:induction false} NoneWithSimilarity(s: seq<Scored>, v: int)
    requires RankedDown(s) && s != [] && s[0].similarity < v
    ensures WithSimilarity(s, v) == []
  {
    if |s| > 1 {
      assert RankedDown(s[1..]) && s[1..][0].similarity < v;
      NoneWithSimilarity(s[1..], v);
    }
  }

  /**
   * The sort is stable: for every similarity, the candidates with that
   * similarity come out in the order they went in.
   */
  lemma {:induction false} SortRankedStable(xs: seq<Scored>, v: int)
    ensures WithSimilarity(SortRanked(xs), v) == WithSimilarity(xs, v)
  {
    if xs != [] {
      var init, x := xs[..|xs| - 1], xs[|xs| - 1];
      var last := if x.similarity == v then [x] else [];
      SortRankedOrders(init);
      calc {
        WithSimilarity(SortRanked(xs), v);
        WithSimilarity(InsertRanked(x, SortRanked(init)), v);
        { InsertRankedStable(x, SortRanked(init), v); }
        WithSimilarity(SortRanked(init), v) + last;
        { SortRankedStable(init, v); }
        WithSimilarity(init, v) + last;
        { assert WithSimilarity([x], v) == last + WithSimilarity([], v); }
        WithSimilarity(init, v) + WithSimilarity([x], v);
        { WithSimilarityAppend(init, [x], v); }
        WithSimilarity(init + [x], v);
        { assert init + [x] == xs; }
        WithSimilarity(xs, v);
      }
    }
  }

  /** The sort by descending similarity followed by `slice(0, limit)`. */
  function TopRanked(xs: seq<Scored>, limit: nat): seq<Scored>
  {
    var s := SortRanked(xs);
    if |s| <= limit then s else s[..limit]
  }

  /**
   * The ranking returns as many candidates as there are, up to `limit`,
   * highest similarity first, and each of them is a candidate.
   */
  lemma RankingShape(xs: seq<Scored>, limit: nat)
    ensures var r := TopRanked(xs, limit);
      |r| == (if |xs| <= limit then |xs| else limit) && RankedDown(r) && multiset(r) <= multiset(xs)
  {
    var s := SortRanked(xs);
    SortRankedOrders(xs);
    var n := if |s| <= limit then |s| else limit;
    assert TopRanked(xs, limit) == s[..n];
    RankedPrefix(s, n);
  }

  lemma RankedPrefix(s: seq<Scored>, n: nat)
    requires RankedDown(s) && n <= |s|
    ensures RankedDown(s[..n]) && multiset(s[..n]) <= multiset(s)
  {
    assert s == s[..n] + s[n..];
  }

  /** In a ranked list, everything after a cut scores no higher than anything before it. */
  lemma RankedCut(s: seq<Scored>, n: nat)
    requires RankedDown(s) && n <= |s|
    ensures forall x, y :: x in s[n..] && y in s[..n] ==> x.similarity <= y.similarity
  {
    forall x, y | x in s[n..] && y in s[..n] ensures x.similarity <= y.similarity {
      var j :| 0 <= j < |s| - n && s[n..][j] == x;
      var i :| 0 <= i < n && s[..n][i] == y;
      assert s[i] == y && s[n + j] == x;
    }
  }

  /** No candidate left out of the ranking scores higher than one that was kept. */
  lemma RankingKeepsBest(xs: seq<Scored>, limit: nat)
    ensures var r := TopRanked(xs, limit);
      forall x, y :: x in multiset(xs) - multiset(r) && y in r ==> x.similarity <= y.similarity
  {
    var s := SortRanked(xs);
    SortRankedOrders(xs);
    var r := TopRanked(xs, limit);
    var n := |r|;
    assert r == s[..n];
    assert s == s[..n] + s[n..];
    assert multiset(xs) - multiset(r) == multiset(s[n..]);
    RankedCut(s, n);
  }

  /**
   * What `getRelevantChunks` returns for the store's documents and chunks:
   * the refusal of an empty argument, the failed embedding of the query, or
   * the best-ranked candidates of the project's documents of that user.
   */
  function RelevantChunks(docs: seq<Document>, chunks: map<string, seq<Chunk>>, projectId: string, queryText: string,
                          userId: string, embed: string -> Option<Embedding>,
                          similarity: (Embedding, Embedding) -> int): (r: Result<seq<Scored>, StoreError>)
    ensures projectId == "" || queryText == "" || userId == "" <==>
      r == Failure(Rejected("Project ID, query, and user ID required"))
    ensures projectId != "" && queryText != "" && userId != "" && embed(queryText).None? ==> r == Failure(RequestFailed)
    ensures r.Success? ==> RankedDown(r.value)
    ensures r.Success? ==> embed(queryText).Some?
    ensures r.Success? && embed(queryText).Some? ==>
      var candidates := Collected(docs, chunks, InProject(projectId, userId), ScoredAgainst(embed(queryText).value, similarity));
      |r.value| == (if |candidates| <= RelevantLimit then |candidates| else RelevantLimit) &&
      multiset(r.value) <= multiset(candidates) &&
      forall x, y :: x in multiset(candidates) - multiset(r.value) && y in r.value ==> x.similarity <= y.similarity
  {
    if projectId == "" || queryText == "" || userId == "" then Failure(Rejected("Project ID, query, and user ID required"))
    else if embed(queryText).None? then Failure(RequestFailed)
    else
      var candidates := Collected(docs, chunks, InProject(projectId, userId), ScoredAgainst(embed(queryText).value, similarity));
      RankingShape(candidates, RelevantLimit);
      RankingKeepsBest(candidates, RelevantLimit);
      Success(TopRanked(candidates, RelevantLimit))
  }

  /** What `getChunksForProjects` returns: nothing without projects or user, else every chunk of the user's documents in those projects. */
  function ProjectChunks(docs: seq<Document>, chunks: map<string, seq<Chunk>>, projectIds: seq<string>, userId: string): (r: seq<ChunkRef>)
    ensures |projectIds| == 0 || userId == "" ==> r == []
  {
    if |projectIds| == 0 || userId == "" then [] else Collected(docs, chunks, InProjects(projectIds, userId), RefOf)
  }

  // ------------------------------------------------------- chats

  /** The chat documents of a user. */
  function UserChats(chats: map<string, map<string, ChatRecord>>, uid: string): map<string, ChatRecord>
  {
    if uid in chats then chats[uid] else map[]
  }

  function Lookup(chats: map<string, map<string, ChatRecord>>, uid: string, chatId: string): Option<ChatRecord>
  {
    var mine := UserChats(chats, uid);
    if chatId in mine then Some(mine[chatId]) else None
  }

  /** The store after writing `record` as chat `chatId` of user `uid`. */
  function PutChat(chats: map<string, map<string, ChatRecord>>, uid: string, chatId: string, record: ChatRecord): map<string, map<string, ChatRecord>>
  {
    chats[uid := UserChats(chats, uid)[chatId := record]]
  }

  /** A chat written is the chat read back, and no other chat document changes. */
  lemma LookupAfterPut(chats: map<string, map<string, ChatRecord>>, uid: string, chatId: string, record: ChatRecord, u: string, c: string)
    ensures Lookup(PutChat(chats, uid, chatId, record), u, c) == if u == uid && c == chatId then Some(record) else Lookup(chats, u, c)
  {
  }

  /**
   * A merged write of a whole chat: every field of the chat is written; a
   * chat without `knowledgeBaseIds` keeps the ones already stored.
   */
  function MergeChat(stored: Option<ChatRecord>, chat: Chat): (r: ChatRecord)
    ensures r.Whole? && r.chat.(knowledgeBaseIds := chat.knowledgeBaseIds) == chat
    ensures chat.knowledgeBaseIds.Some? ==> r.chat.knowledgeBaseIds == chat.knowledgeBaseIds
    ensures chat.knowledgeBaseIds.None? && stored.Some? && stored.value.Whole? ==>
      r.chat.knowledgeBaseIds == stored.value.chat.knowledgeBaseIds
    ensures chat.knowledgeBaseIds.None? && (stored.None? || stored.value.TitleOnly?) ==> r.chat.knowledgeBaseIds == None
  {
    if chat.knowledgeBaseIds.None? && stored.Some? && stored.value.Whole? then
      Whole(chat.(knowledgeBaseIds := stored.value.chat.knowledgeBaseIds))
    else Whole(chat)
  }

  /**
   * A merged write of a title alone: a stored chat keeps everything but its
   * title; without a stored chat the document holds just the title.
   */
  function MergeTitle(stored: Option<ChatRecord>, title: string): (r: ChatRecord)
    ensures r.Whole? <==> stored.Some? && stored.value.Whole?
    ensures r.Whole? ==> r.chat == stored.value.chat.(title := title)
    ensures r.TitleOnly? ==> r.title == title && MessagesOf(r) == []
  {
    if stored.Some? && stored.value.Whole? then Whole(stored.value.chat.(title := title)) else TitleOnly(title)
  }

  // ------------------------------------------------------- the store

  class Store {
    var projects: map<string, RagProject>
    var documents: seq<Document>
    var chunks: map<string, seq<Chunk>>
    var chats: map<string, map<string, ChatRecord>>

    /** Each project is stored under its own id, document ids are unique, and chunks sit under their document. */
    ghost predicate Valid()
      reads this
    {
      (forall k :: k in projects ==> projects[k].ragProjectId == k) &&
      UniqueDocumentIds(documents) &&
      (forall k :: k in chunks ==> forall c :: c in chunks[k] ==> c.documentId == k)
    }

    constructor ()
      ensures Valid()
      ensures projects == map[] && documents == [] && chunks == map[] && chats == map[]
    {
      projects, documents, chunks, chats := map[], [], map[], map[];
    }

    /** `saveRAGProjectToFirebase`; `newId` stands for the generated id and `createdAt` for the clock. */
    method SaveRagProject(userId: string, name: string, newId: string, createdAt: string)
      returns (r: Result<ProjectRef, StoreError>)
      requires Valid()
      modifies this
      ensures Valid()
      ensures userId == "" || name == "" ==> r == Failure(Rejected("User ID and name required")) && projects == old(projects)
      ensures userId != "" && name != "" ==>
        r == Success(ProjectRef(newId, name)) && projects == old(projects)[newId := RagProject(newId, name, userId, createdAt, [])]
      ensures documents == old(documents) && chunks == old(chunks) && chats == old(chats)
    {
      if userId == "" || name == "" {
        return Failure(Rejected("User ID and name required"));
      }
      projects := projects[newId := RagProject(newId, name, userId, createdAt, [])];
      return Success(ProjectRef(newId, name));
    }

    /**
     * `saveDocumentMetadataToFirestore`: the document is written first and
     * then its id is added to the project's list, so a missing project fails
     * the call after the document was stored.
     */
    method SaveDocumentMetadata(userId: string, ragProjectId: string, fileName: string, fileType: string,
                                newId: string, createdAt: string)
      returns (r: Result<string, StoreError>)
      requires Valid()
      modifies this
      ensures Valid()
      ensures userId == "" || ragProjectId == "" || fileName == "" || fileType == "" ==>
        r == Failure(Rejected("User ID, project ID, file name, type required")) && unchanged(this)
      ensures userId != "" && ragProjectId != "" && fileName != "" && fileType != "" && !AllowedType(fileType) ==>
        r == Failure(Rejected("Unsupported file type")) && unchanged(this)
      ensures userId != "" && ragProjectId != "" && fileName != "" && fileType != "" && AllowedType(fileType) ==>
        documents == PutDocument(old(documents), Document(newId, ragProjectId, userId, fileName, fileType, createdAt)) &&
        chunks == old(chunks) && chats == old(chats) &&
        (ragProjectId !in old(projects) ==> r == Failure(NotFound) && projects == old(projects)) &&
        (ragProjectId in old(projects) ==>
          r == Success(newId) &&
          projects == ListDocument(old(projects), ragProjectId, newId))
    {
      if userId == "" || ragProjectId == "" || fileName == "" || fileType == "" {
        return Failure(Rejected("User ID, project ID, file name, type required"));
      }
      if !AllowedType(fileType) {
        return Failure(Rejected("Unsupported file type"));
      }
      documents := PutDocument(documents, Document(newId, ragProjectId, userId, fileName, fileType, createdAt));
      if ragProjectId !in projects {
        return Failure(NotFound);
      }
      var project := projects[ragProjectId];
      projects := projects[ragProjectId := project.(documentIds := ArrayUnion(project.documentIds, newId))];
      return Success(newId);
    }

    /**
     * `storeChunks`: the batch is built for every text and committed after
     * the loop, so a failure leaves the store as it was; on success the new
     * chunks follow the ones the document already had.
     */
    method StoreChunks(documentId: string, texts: seq<string>, chunkId: nat -> string, embed: string -> Option<Embedding>)
      returns (r: Result<nat, StoreError>)
      requires Valid()
      modifies this
      ensures Valid()
      ensures documentId == "" || |texts| == 0 ==> r == Failure(Rejected("Document ID and chunks required"))
      ensures r.Failure? ==> unchanged(this)
      ensures r.Success? <==> documentId != "" && |texts| > 0 && AllEmbedded(texts, embed)
      ensures r.Success? ==> r.value == |texts| && projects == old(projects) && documents == old(documents) && chats == old(chats)
      ensures r.Success? ==> documentId in chunks && chunks == old(chunks)[documentId := chunks[documentId]]
      ensures r.Success? ==>
        var before := ChunksOf(old(chunks), documentId);
        |chunks[documentId]| == |before| + |texts| && chunks[documentId][..|before|] == before &&
        forall i :: 0 <= i < |texts| ==>
          chunks[documentId][|before| + i] == Chunk(chunkId(i), texts[i], documentId, i, embed(texts[i]).value)
      ensures r.Success? ==> ChunksOf(chunks, documentId) == ChunksOf(old(chunks), documentId) + EmbeddedBatch(documentId, texts, chunkId, embed)
    {
      if documentId == "" || |texts| == 0 {
        return Failure(Rejected("Document ID and chunks required"));
      }
      var batch := EmbedChunks(documentId, texts, chunkId, embed);
      if batch.Failure? {
        return Failure(batch.error);
      }
      var before := ChunksOf(chunks, documentId);
      assert forall c :: c in batch.value ==> c.documentId == documentId;
      chunks := chunks[documentId := before + batch.value];
      return Success(|texts|);
    }

    /** The nested loop of the two chunk queries: the selected documents in listing order, each with its chunks in order. */
    method CollectChunks<T>(keep: Document -> bool, view: Chunk -> T) returns (out: seq<T>)
      ensures out == Collected(documents, chunks, keep, view)
    {
      out := [];
      var i := 0;
      while i < |documents|
        invariant i <= |documents|
        invariant out == Collected(documents[..i], chunks, keep, view)
      {
        var d := documents[i];
        if keep(d) {
          var cs := ChunksOf(chunks, d.documentId);
          var j := 0;
          ghost var base := out;
          while j < |cs|
            invariant j <= |cs|
            invariant out == base + Viewed(cs[..j], view)
          {
            assert Viewed(cs[..j + 1], view) == Viewed(cs[..j], view) + [view(cs[j])];
            out := out + [view(cs[j])];
            j := j + 1;
          }
          assert cs[..j] == cs;
        }
        CollectedStep(documents, i, chunks, keep, view);
        i := i + 1;
      }
      assert documents[..i] == documents;
    }

    /** `getRelevantChunks`, which only reads the store. */
    method GetRelevantChunks(ragProjectId: string, queryText: string, userId: string,
                             embed: string -> Option<Embedding>, similarity: (Embedding, Embedding) -> int)
      returns (r: Result<seq<Scored>, StoreError>)
      ensures r == RelevantChunks(documents, chunks, ragProjectId, queryText, userId, embed, similarity)
    {
      if ragProjectId == "" || queryText == "" || userId == "" {
        return Failure(Rejected("Project ID, query, and user ID required"));
      }
      var queryEmbedding := embed(queryText);
      if queryEmbedding.None? {
        return Failure(RequestFailed);
      }
      var candidates := CollectChunks(InProject(ragProjectId, userId), ScoredAgainst(queryEmbedding.value, similarity));
      return Success(TopRanked(candidates, RelevantLimit));
    }

    /** `getChunksForProjects`, which only reads the store. */
    method GetChunksForProjects(ragProjectIds: seq<string>, userId: string) returns (r: seq<ChunkRef>)
      ensures r == ProjectChunks(documents, chunks, ragProjectIds, userId)
    {
      if |ragProjectIds| == 0 || userId == "" {
        return [];
      }
      r := CollectChunks(InProjects(ragProjectIds, userId), RefOf);
    }

    /**
     * `deleteRAGProject`: after the checks, the project, the owner's
     * documents of that project and their chunks are removed in one commit.
     */
    method DeleteRagProject(userId: string, ragProjectId: string) returns (r: Outcome<StoreError>)
      requires Valid()
      modifies this
      ensures Valid()
      ensures userId == "" || ragProjectId == "" ==> r == Fail(Rejected("User ID and project ID required"))
      ensures userId != "" && ragProjectId != "" && ragProjectId !in old(projects) ==> r == Fail(Rejected("Project not found"))
      ensures userId != "" && ragProjectId != "" && ragProjectId in old(projects) && old(projects)[ragProjectId].userId != userId ==>
        r == Fail(Rejected("Unauthorized: Project does not belong to user"))
      ensures r.Fail? ==> unchanged(this)
      ensures r.Pass? <==> userId != "" && ragProjectId != "" && ragProjectId in old(projects) && old(projects)[ragProjectId].userId == userId
      ensures r.Pass? ==>
        var doomed := OwnedDocumentIds(old(documents), ragProjectId, userId);
        projects == old(projects) - {ragProjectId} && chats == old(chats) &&
        documents == DocumentsWithout(old(documents), doomed) && chunks == ChunksWithout(old(chunks), doomed)
    {
      if userId == "" || ragProjectId == "" {
        return Fail(Rejected("User ID and project ID required"));
      }
      if ragProjectId !in projects {
        return Fail(Rejected("Project not found"));
      }
      if projects[ragProjectId].userId != userId {
        return Fail(Rejected("Unauthorized: Project does not belong to user"));
      }
      var doomed := DeletionBatch(documents, ragProjectId, userId);
      DocumentsWithoutUnique(documents, doomed);
      projects := projects - {ragProjectId};
      documents := DocumentsWithout(documents, doomed);
      chunks := ChunksWithout(chunks, doomed);
      return Pass;
    }

    /** `saveChat`. */
    method SaveChat(uid: string, chat: Chat) returns (r: Outcome<StoreError>)
      requires Valid()
      modifies this
      ensures Valid()
      ensures uid == "" || chat.id == "" ==> r == Fail(Rejected("Invalid user ID or chat ID")) && unchanged(this)
      ensures uid != "" && chat.id != "" ==> r == Pass && chats == PutChat(old(chats), uid, chat.id, Whole(chat))
      ensures projects == old(projects) && documents == old(documents) && chunks == old(chunks)
    {
      if uid == "" || chat.id == "" {
        return Fail(Rejected("Invalid user ID or chat ID"));
      }
      chats := PutChat(chats, uid, chat.id, Whole(chat));
      return Pass;
    }

    /** `deleteChat` of the store. */
    method DeleteChat(uid: string, chatId: string) returns (r: Outcome<StoreError>)
      requires Valid()
      modifies this
      ensures Valid()
      ensures uid == "" || chatId == "" ==> r == Fail(Rejected("Invalid user ID or chat ID")) && unchanged(this)
      ensures uid != "" && chatId != "" ==> r == Pass && chats == old(chats)[uid := UserChats(old(chats), uid) - {chatId}]
      ensures projects == old(projects) && documents == old(documents) && chunks == old(chunks)
    {
      if uid == "" || chatId == "" {
        return Fail(Rejected("Invalid user ID or chat ID"));
      }
      chats := chats[uid := UserChats(chats, uid) - {chatId}];
      return Pass;
    }

    /** `getChat`: nothing for an empty id or a missing document. */
    method GetChat(uid: string, chatId: string) returns (r: Option<ChatRecord>)
      ensures uid == "" || chatId == "" ==> r == None
      ensures uid != "" && chatId != "" ==> r == Lookup(chats, uid, chatId)
    {
      if uid == "" || chatId == "" {
        return None;
      }
      return Lookup(chats, uid, chatId);
    }

    /** `getChats`: every chat document of the user, by id (the listing order is not modelled). */
    method GetChats(uid: string) returns (r: map<string, ChatRecord>)
      ensures uid == "" ==> r == map[]
      ensures uid != "" ==> r == UserChats(chats, uid)
    {
      if uid == "" {
        return map[];
      }
      return UserChats(chats, uid);
    }

    /** `updateChat` of the store: a merged write under `chatId`. */
    method UpdateChat(uid: string, chatId: string, chat: Chat) returns (r: Outcome<StoreError>)
      requires Valid()
      modifies this
      ensures Valid()
      ensures uid == "" || chatId == "" ==> r == Fail(Rejected("Invalid user ID or chat ID")) && unchanged(this)
      ensures uid != "" && chatId != "" ==>
        r == Pass && chats == PutChat(old(chats), uid, chatId, MergeChat(Lookup(old(chats), uid, chatId), chat))
      ensures projects == old(projects) && documents == old(documents) && chunks == old(chunks)
    {
      if uid == "" || chatId == "" {
        return Fail(Rejected("Invalid user ID or chat ID"));
      }
      chats := PutChat(chats, uid, chatId, MergeChat(Lookup(chats, uid, chatId), chat));
      return Pass;
    }

    /** `updateChatTitle`: a merged write of the title alone. */
    method UpdateChatTitle(uid: string, chatId: string, title: string) returns (r: Outcome<StoreError>)
      requires Valid()
      modifies this
      ensures Valid()
      ensures uid == "" || chatId == "" || title == "" ==> r == Fail(Rejected("Invalid user ID, chat ID, or title")) && unchanged(this)
      ensures uid != "" && chatId != "" && title != "" ==>
        r == Pass && chats == PutChat(old(chats), uid, chatId, MergeTitle(Lookup(old(chats), uid, chatId), title))
      ensures projects == old(projects) && documents == old(documents) && chunks == old(chunks)
    {
      if uid == "" || chatId == "" || title == "" {
        return Fail(Rejected("Invalid user ID, chat ID, or title"));
      }
      chats := PutChat(chats, uid, chatId, MergeTitle(Lookup(chats, uid, chatId), title));
      return Pass;
    }
  }

  /** The documents `deleteRAGProject` adds to its batch: the project's documents that belong to the user. */
  method DeletionBatch(docs: seq<Document>, projectId: string, userId: string) returns (doomed: set<string>)
    ensures doomed == OwnedDocumentIds(docs, projectId, userId)
  {
    doomed := {};
    var i := 0;
    while i < |docs|
      invariant i <= |docs|
      invariant doomed == OwnedDocumentIds(docs[..i], projectId, userId)
    {
      var d := docs[i];
      assert docs[..i + 1] == docs[..i] + [d];
      if d.ragProjectId == projectId && d.userId == userId {
        doomed := doomed + {d.documentId};
      }
      i := i + 1;
    }
    assert docs[..i] == docs;
  }

  /** Removing documents keeps the remaining ids unique. */
  lemma {:induction false} DocumentsWithoutUnique(docs: seq<Document>, ids: set<string>)
    requires UniqueDocumentIds(docs)
    ensures UniqueDocumentIds(DocumentsWithout(docs, ids))
  {
    if docs != [] {
      var init := docs[..|docs| - 1];
      var d := docs[|docs| - 1];
      DocumentsWithoutUnique(init, ids);
      var r := DocumentsWithout(init, ids);
      forall e | e in r ensures e.documentId != d.documentId {
        var j :| 0 <= j < |init| && init[j] == e;
        assert docs[j] == e;
      }
    }
  }
}
