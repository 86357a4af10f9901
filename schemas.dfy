/** The records the gateway passes between the downstream services, the cache and its callers. */
module Schemas {
  import opened Common

  type Byte = b: int | 0 <= b < 256

  datatype TracebackUnit = TracebackUnit(documentId: Uuid, documentName: string, information: string)

  /** An AI message's supporting sources; the source's element type admits `None`. */
  type Traceback = seq<Option<TracebackUnit>>

  /** One history entry as the gateway returns it (UserMessageResponse | AIMessageResponse). */
  datatype Message =
    | UserMessageResponse(content: string, role: string)
    | AIMessageResponse(content: string, role: string, traceback: Traceback)

  datatype HistoryPayload = HistoryPayload(history: seq<Message>)

  /** An answer-generation backend's reply. */
  datatype AIMessage = AIMessage(content: string, traceback: Traceback)

  datatype CreateChat = CreateChat(userId: Uuid, vaultId: Uuid, name: string)

  datatype ChatPayload = ChatPayload(
    id: Uuid,
    name: string,
    vaultId: Uuid,
    isArchived: bool,
    createdAt: string,
    chatHistory: Option<HistoryPayload>)

  datatype ChangeChatArchiveStatus = ChangeChatArchiveStatus(chatId: Uuid, archiveAction: string)

  datatype UpdateChat = UpdateChat(chatId: Uuid, name: string)

  datatype Document = Document(id: Uuid, name: string, text: string, vaultId: Uuid)

  datatype VaultType = Graph | Vector

  datatype VaultPayload = VaultPayload(
    id: Uuid,
    name: string,
    kind: VaultType,
    createdAt: string,
    userId: Uuid,
    documents: seq<Document>)

  datatype VaultPreview = VaultPreview(id: Uuid, name: string, kind: VaultType)

  datatype CreateVault = CreateVault(userId: Uuid, vaultName: string, vaultType: VaultType)

  datatype UpdateVault = UpdateVault(vaultId: Uuid, newName: string)

  /** What a caller of answer generation supplies. */
  datatype GenerationCredentials = GenerationCredentials(vaultId: Uuid, chatId: Uuid, query: string)

  /** What an answer-generation backend is sent: the vault (None when it could not be fetched),
      the query and the history to answer against. */
  datatype AnswerGenerationCredentials = AnswerGenerationCredentials(
    vaultId: Option<Uuid>,
    query: string,
    history: seq<Message>)

  datatype UploadFile = UploadFile(filename: string, contentType: string, bytes: seq<Byte>)

  /** The JSON text a cache entry holds, one case per serialised shape. Pydantic's
      `model_dump_json` is the constructor and `model_validate_json` its destructor, so every
      shape decodes back to what was encoded. List shapes stand for `json.dumps` of the list of
      element dumps. */
  datatype CacheText =
    | ChatText(chat: ChatPayload)
    | ChatListText(chats: seq<ChatPayload>)
    | DocumentText(document: Document)
    | DocumentListText(documents: seq<Document>)
    | VaultText(vault: VaultPayload)
    | PreviewListText(previews: seq<VaultPreview>)
}
