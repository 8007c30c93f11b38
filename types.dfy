/**
 * The records of the chat client: chats and their messages, knowledge-base
 * projects, uploaded documents and their embedded chunks, and the stored
 * profile of a user.
 */
module Types {
  import opened Wrappers

  /** The role tag of a message (`type` in the source). */
  datatype MessageType = User | Bot | System | Custom

  /** A chat message; the timestamp is the ISO text the client wrote. */
  datatype Message = Message(id: string, chatId: string, content: string, kind: MessageType, timestamp: string)

  /**
   * An entry of a chat's `knowledgeBaseIds`: a project id, or a legacy object
   * that carries the id in its `ragProjectId` field.
   */
  datatype KbEntry = KbId(id: string) | KbObject(ragProjectId: string)

  /** A chat; `knowledgeBaseIds` is absent on chats that never selected a knowledge base. */
  datatype Chat = Chat(
    id: string,
    title: string,
    model: string,
    systemPrompt: string,
    messages: seq<Message>,
    knowledgeBaseIds: Option<seq<KbEntry>>)

  /**
   * A stored chat document: a whole chat, or the title-only document that a
   * merged title update leaves behind when no chat was stored under that id.
   */
  datatype ChatRecord = Whole(chat: Chat) | TitleOnly(title: string)

  /** A knowledge base ("RAG project"). */
  datatype RagProject = RagProject(ragProjectId: string, name: string, userId: string, createdAt: string, documentIds: seq<string>)

  /** Metadata of an uploaded file. */
  datatype Document = Document(documentId: string, ragProjectId: string, userId: string, fileName: string, fileType: string, createdAt: string)

  /** The vector the embedding endpoint returns; nothing in the model computes with it. */
  type Embedding = seq<real>

  /** One embedded piece of a document's text; `index` is its position in the document. */
  datatype Chunk = Chunk(chunkId: string, text: string, documentId: string, index: int, embedding: Embedding)

  /** The stored profile of a user, as far as the modelled code reads it. */
  datatype UserData = UserData(uid: string, name: string, email: string, defaultModel: Option<string>)

  /** The `messages` of a stored chat document, `[]` when the document has none. */
  function MessagesOf(record: ChatRecord): seq<Message>
  {
    match record
    case Whole(chat) => chat.messages
    case TitleOnly(_) => []
  }
}
