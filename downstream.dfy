/** The downstream services as the gateway observes them through its HTTP session: the log of
    requests issued, and which chat records and history records exist. Each request is given the
    outcome it produces; a request that fails has no effect downstream. */
module Downstream {
  import opened Common
  import opened Schemas

  /** The two answer-generation endpoints. */
  datatype AnswerEndpoint = GraphAnswer | VectorAnswer

  /** One request issued to a downstream service, with what the gateway sends. */
  datatype Call =
    // chat service
    | CreateChatRequest(request: CreateChat)
    | DeleteChatRequest(chatId: Uuid)
    | GetChatRequest(chatId: Uuid)
    | GetUserChatsRequest(userId: Uuid, archivedEndpoint: bool)
    | GetVaultChatsRequest(vaultId: Uuid)
    | ChangeChatArchiveStatusRequest(change: ChangeChatArchiveStatus, archiveEndpoint: bool)
    | SetChatNameRequest(update: UpdateChat)
    // history service
    | CreateHistoryRequest(chatId: Uuid)
    | DeleteHistoryRequest(chatId: Uuid)
    | CleanHistoryRequest(chatId: Uuid)
    | GetHistoryRequest(chatId: Uuid)
    | AddUserMessageRequest(chatId: Uuid, content: string)
    | AddAiMessageRequest(chatId: Uuid, message: AIMessage)
    // vault service
    | CreateVaultRequest(creation: CreateVault, files: seq<UploadFile>)
    | AddDocumentRequest(vaultId: Uuid, file: UploadFile)
    | DeleteVaultRequest(vaultId: Uuid)
    | DeleteDocumentRequest(vaultId: Uuid, documentId: Uuid)
    | UpdateVaultNameRequest(rename: UpdateVault)
    | GetVaultDocumentsRequest(vaultId: Uuid)
    | GetUserVaultsPreviewRequest(userId: Uuid)
    | GetDocumentRequest(vaultId: Uuid, documentId: Uuid)
    | GetVaultRequest(vaultId: Uuid)
    // answer generation
    | AnswerRequest(endpoint: AnswerEndpoint, credentials: AnswerGenerationCredentials)
  {
    /** The requests that create or delete a chat record or a history record. */
    predicate ChangesRecords() {
      CreateChatRequest? || DeleteChatRequest? || CreateHistoryRequest? || DeleteHistoryRequest?
    }
  }

  class Session {
    var log: seq<Call>
    var chats: set<Uuid>
    var histories: set<Uuid>

    /** Every chat record has a history record and vice versa. */
    predicate Paired()
      reads this
    {
      chats == histories
    }

    constructor ()
      ensures log == [] && chats == {} && histories == {}
    {
      log, chats, histories := [], {}, {};
    }

    /** A request that neither creates nor deletes a chat or history record. */
    method Issue<T>(call: Call, outcome: Outcome<T>) returns (r: Outcome<T>)
      requires !call.ChangesRecords()
      modifies this
      ensures log == old(log) + [call]
      ensures chats == old(chats) && histories == old(histories)
      ensures r == outcome
    {
      log := log + [call];
      r := outcome;
    }

    /** The chat service creates a chat and answers with its record, including the new id. */
    method CreateChat(request: CreateChat, outcome: Outcome<ChatPayload>) returns (r: Outcome<ChatPayload>)
      modifies this
      ensures log == old(log) + [CreateChatRequest(request)]
      ensures chats == if outcome.Ok? then old(chats) + {outcome.value.id} else old(chats)
      ensures histories == old(histories)
      ensures r == outcome
    {
      log := log + [CreateChatRequest(request)];
      if outcome.Ok? {
        chats := chats + {outcome.value.id};
      }
      r := outcome;
    }

    method DeleteChat(chatId: Uuid, outcome: Outcome<()>) returns (r: Outcome<()>)
      modifies this
      ensures log == old(log) + [DeleteChatRequest(chatId)]
      ensures chats == if outcome.Ok? then old(chats) - {chatId} else old(chats)
      ensures histories == old(histories)
      ensures r == outcome
    {
      log := log + [DeleteChatRequest(chatId)];
      if outcome.Ok? {
        chats := chats - {chatId};
      }
      r := outcome;
    }

    /** The history service creates an empty history for a chat. */
    method CreateHistory(chatId: Uuid, outcome: Outcome<()>) returns (r: Outcome<()>)
      modifies this
      ensures log == old(log) + [CreateHistoryRequest(chatId)]
      ensures chats == old(chats)
      ensures histories == if outcome.Ok? then old(histories) + {chatId} else old(histories)
      ensures r == outcome
    {
      log := log + [CreateHistoryRequest(chatId)];
      if outcome.Ok? {
        histories := histories + {chatId};
      }
      r := outcome;
    }

    method DeleteHistory(chatId: Uuid, outcome: Outcome<()>) returns (r: Outcome<()>)
      modifies this
      ensures log == old(log) + [DeleteHistoryRequest(chatId)]
      ensures chats == old(chats)
      ensures histories == if outcome.Ok? then old(histories) - {chatId} else old(histories)
      ensures r == outcome
    {
      log := log + [DeleteHistoryRequest(chatId)];
      if outcome.Ok? {
        histories := histories - {chatId};
      }
      r := outcome;
    }
  }
}
