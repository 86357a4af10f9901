/** The messaging service of the gateway: chat reads through the cache, the create and delete
    sagas, and the writes that invalidate cached chats and chat lists. */
module MessagingService {
  import opened Common
  import opened Schemas
  import opened KeyValueStore
  import opened Downstream
  import MessagingCache
  import HistoryGet
  import CreateChatSaga
  import DeleteChatSaga

  /** The store after `create_chat` succeeds: the chat is cached under its id, then the
      creator's chat lists are dropped. */
  function AfterCreate(data: map<string, CacheText>, chat: ChatPayload, userId: Uuid): map<string, CacheText> {
    MessagingCache.DropChats(data[MessagingCache.ChatKey(chat.id) := ChatText(chat)], userId)
  }

  /** The store after a rename or an archive toggle succeeds: the chat entry, then the user's
      chat lists are dropped. */
  function AfterChatChange(data: map<string, CacheText>, chatId: Uuid, userId: Uuid): map<string, CacheText> {
    MessagingCache.DropChats(data - {MessagingCache.ChatKey(chatId)}, userId)
  }

  /** The store after `delete_chat` succeeds: the user's chat lists, then the chat entry are
      dropped. */
  function AfterDelete(data: map<string, CacheText>, chatId: Uuid, userId: Uuid): map<string, CacheText> {
    MessagingCache.DropChats(data, userId) - {MessagingCache.ChatKey(chatId)}
  }

  /** After a successful create, reading the new chat returns it, and both of the creator's
      chat lists read as absent, so the next list read goes to the chat service. */
  lemma CreatedChatIsCached(data: map<string, CacheText>, chat: ChatPayload, userId: Uuid, f: bool)
    ensures MessagingCache.ReadChat(AfterCreate(data, chat, userId), chat.id) == Some(chat)
    ensures MessagingCache.ReadChats(AfterCreate(data, chat, userId), userId, f) == None
  {
    MessagingCache.ChatsPatternMatches(userId, userId, f, chat.id);
    MessagingCache.DropChatsRemovesBothVariants(data[MessagingCache.ChatKey(chat.id) := ChatText(chat)], userId);
  }

  /** After a successful rename, archive toggle or delete, neither the chat nor the user's chat
      lists are read from the cache. */
  lemma ChangedChatIsNotCached(data: map<string, CacheText>, chatId: Uuid, userId: Uuid, f: bool)
    ensures MessagingCache.ReadChat(AfterChatChange(data, chatId, userId), chatId) == None
    ensures MessagingCache.ReadChats(AfterChatChange(data, chatId, userId), userId, f) == None
    ensures MessagingCache.ReadChat(AfterDelete(data, chatId, userId), chatId) == None
    ensures MessagingCache.ReadChats(AfterDelete(data, chatId, userId), userId, f) == None
  {
    MessagingCache.DropChatsRemovesBothVariants(data - {MessagingCache.ChatKey(chatId)}, userId);
    MessagingCache.DropChatsRemovesBothVariants(data, userId);
  }

  /** Only the user's chat lists are dropped: a list cached under a vault id survives a chat
      change, so it may go on listing a renamed, archived or deleted chat. */
  lemma VaultChatListSurvives(data: map<string, CacheText>, chatId: Uuid, userId: Uuid, vaultId: Uuid)
    requires vaultId != userId
    ensures MessagingCache.ReadChats(AfterChatChange(data, chatId, userId), vaultId, false)
      == MessagingCache.ReadChats(data, vaultId, false)
    ensures MessagingCache.ReadChats(AfterDelete(data, chatId, userId), vaultId, false)
      == MessagingCache.ReadChats(data, vaultId, false)
  {
    MessagingCache.DropChatsKeepsOtherKeys(data - {MessagingCache.ChatKey(chatId)}, userId, vaultId, false, chatId);
    MessagingCache.ChatWritesKeepLists(data, chatId, ChatPayload(chatId, "", chatId, false, "", None), vaultId, false);
    MessagingCache.DropChatsKeepsOtherKeys(data, userId, vaultId, false, chatId);
    MessagingCache.ChatWritesKeepLists(MessagingCache.DropChats(data, userId), chatId,
      ChatPayload(chatId, "", chatId, false, "", None), vaultId, false);
  }

  /** A cache-aside read of a chat list: what it returns, the requests it makes and the store
      after it. */
  datatype ListRead = ListRead(result: Outcome<seq<ChatPayload>>, calls: seq<Call>, data: map<string, CacheText>)

  /** Reading `id`'s list (archived or not) through the cache, where `request` is the chat-service
      request made on a miss and `fetched` its outcome. */
  function ReadThrough(data: map<string, CacheText>, id: Uuid, isArchived: bool, request: Call,
                       fetched: Outcome<seq<ChatPayload>>): ListRead {
    var cached := MessagingCache.ReadChats(data, id, isArchived);
    if cached.Some? then ListRead(Ok(cached.value), [], data)
    else if fetched.Ok? then
      ListRead(fetched, [request], data[MessagingCache.ChatsKey(id, isArchived) := ChatListText(fetched.value)])
    else ListRead(fetched, [request], data)
  }

  /** A hit makes no request and changes nothing; a miss makes exactly the one request and
      returns its outcome, and a fetched non-empty list is a hit on the next read. A fetched empty
      list is stored but still reads as a miss. */
  lemma ReadThroughHitOrMiss(data: map<string, CacheText>, id: Uuid, isArchived: bool, request: Call,
                             fetched: Outcome<seq<ChatPayload>>)
    ensures var read := ReadThrough(data, id, isArchived, request, fetched);
      var cached := MessagingCache.ReadChats(data, id, isArchived);
      && (cached.Some? ==> read.result == Ok(cached.value) && read.calls == [] && read.data == data)
      && (cached.None? ==> read.result == fetched && read.calls == [request])
      && (cached.None? && fetched.Ok? ==>
            MessagingCache.ReadChats(read.data, id, isArchived) == if fetched.value == [] then None else Some(fetched.value))
      && (cached.None? && fetched.Err? ==> read.data == data)
  {
    if MessagingCache.ReadChats(data, id, isArchived).None? && fetched.Ok? {
      MessagingCache.ReadChatsAfterSet(data, id, isArchived, fetched.value);
    }
  }

  class MessagingService {
    const cache: MessagingCache.MessagingCache

    constructor (cache: MessagingCache.MessagingCache)
      ensures this.cache == cache
    {
      this.cache := cache;
    }

    /** Cache-aside read of one chat with its history. On a miss the chat and the history are
        requested together; if both fail, the chat request's error is the one that escapes. */
    method GetChatByUserId(session: Session, chatId: Uuid, chatFetched: Outcome<ChatPayload>,
                           historyReply: Outcome<HistoryGet.HistoryReply>) returns (r: Outcome<ChatPayload>)
      modifies cache.store, session
      ensures session.chats == old(session.chats) && session.histories == old(session.histories)
      ensures MessagingCache.ReadChat(old(cache.store.data), chatId).Some? ==>
        && r == Ok(MessagingCache.ReadChat(old(cache.store.data), chatId).value)
        && session.log == old(session.log)
        && cache.store.data == old(cache.store.data)
      ensures MessagingCache.ReadChat(old(cache.store.data), chatId).None? ==>
        session.log == old(session.log) + [Call.GetChatRequest(chatId), Call.GetHistoryRequest(chatId)]
      ensures MessagingCache.ReadChat(old(cache.store.data), chatId).None? && chatFetched.Err? ==>
        r == Err(chatFetched.failure) && cache.store.data == old(cache.store.data)
      ensures MessagingCache.ReadChat(old(cache.store.data), chatId).None? && chatFetched.Ok?
              && HistoryGet.ReadHistory(historyReply).Err? ==>
        r == Err(HistoryGet.ReadHistory(historyReply).failure) && cache.store.data == old(cache.store.data)
      ensures MessagingCache.ReadChat(old(cache.store.data), chatId).None? && chatFetched.Ok?
              && HistoryGet.ReadHistory(historyReply).Ok? ==>
        && r == Ok(chatFetched.value.(chatHistory := Some(HistoryGet.ReadHistory(historyReply).value)))
        && cache.store.data == old(cache.store.data)[MessagingCache.ChatKey(chatId) := ChatText(r.value)]
    {
      var cached := cache.GetChat(chatId);
      if cached.Some? {
        return Ok(cached.value);
      }
      var chat := session.Issue(Call.GetChatRequest(chatId), chatFetched);
      var history := HistoryGet.GetHistoryRequest(session, chatId, historyReply);
      if chat.Err? {
        return Err(chat.failure);
      }
      if history.Err? {
        return Err(history.failure);
      }
      var payload := chat.value.(chatHistory := Some(history.value));
      var _ := cache.SetChat(chatId, payload);
      r := Ok(payload);
    }

    /** Cache-aside read of a user's chats, archived or not; the flag picks the endpoint. */
    method GetChatsByUserId(session: Session, userId: Uuid, isArchived: bool, fetched: Outcome<seq<ChatPayload>>)
      returns (r: Outcome<seq<ChatPayload>>)
      modifies cache.store, session
      ensures session.chats == old(session.chats) && session.histories == old(session.histories)
      ensures var read := ReadThrough(old(cache.store.data), userId, isArchived, GetUserChatsRequest(userId, isArchived), fetched);
        r == read.result && session.log == old(session.log) + read.calls && cache.store.data == read.data
    {
      var cached := cache.GetChats(userId, isArchived);
      if cached.Some? {
        return Ok(cached.value);
      }
      r := session.Issue(GetUserChatsRequest(userId, isArchived), fetched);
      if r.Ok? {
        var _ := cache.SetChats(userId, r.value, isArchived);
      }
    }

    /** Cache-aside read of a vault's chats, kept under the vault id as a non-archived list. */
    method GetChatsByVaultId(session: Session, vaultId: Uuid, fetched: Outcome<seq<ChatPayload>>)
      returns (r: Outcome<seq<ChatPayload>>)
      modifies cache.store, session
      ensures session.chats == old(session.chats) && session.histories == old(session.histories)
      ensures var read := ReadThrough(old(cache.store.data), vaultId, false, GetVaultChatsRequest(vaultId), fetched);
        r == read.result && session.log == old(session.log) + read.calls && cache.store.data == read.data
    {
      var cached := cache.GetChats(vaultId, false);
      if cached.Some? {
        return Ok(cached.value);
      }
      r := session.Issue(GetVaultChatsRequest(vaultId), fetched);
      if r.Ok? {
        var _ := cache.SetChats(vaultId, r.value, false);
      }
    }

    /** The archive endpoint is used exactly when the action is "archive"; any other action
        unarchives. */
    method ChangeChatArchiveStatus(session: Session, userId: Uuid, change: ChangeChatArchiveStatus, outcome: Outcome<()>)
      returns (r: Outcome<()>)
      modifies cache.store, session
      ensures session.chats == old(session.chats) && session.histories == old(session.histories)
      ensures session.log == old(session.log) + [ChangeChatArchiveStatusRequest(change, change.archiveAction == "archive")]
      ensures r == outcome
      ensures cache.store.data ==
        if r.Ok? then AfterChatChange(old(cache.store.data), change.chatId, userId) else old(cache.store.data)
    {
      var archive := change.archiveAction == "archive";
      r := session.Issue(ChangeChatArchiveStatusRequest(change, archive), outcome);
      if r.Err? {
        return;
      }
      var _ := cache.DeleteChat(change.chatId);
      cache.DeleteChats(userId);
    }

    /** Cleaning a history drops only the chat entry, which embeds the history. */
    method CleanChatHistory(session: Session, chatId: Uuid, outcome: Outcome<()>) returns (r: Outcome<()>)
      modifies cache.store, session
      ensures session.chats == old(session.chats) && session.histories == old(session.histories)
      ensures session.log == old(session.log) + [CleanHistoryRequest(chatId)]
      ensures r == outcome
      ensures cache.store.data ==
        if r.Ok? then old(cache.store.data) - {MessagingCache.ChatKey(chatId)} else old(cache.store.data)
    {
      r := session.Issue(CleanHistoryRequest(chatId), outcome);
      if r.Err? {
        return;
      }
      var _ := cache.DeleteChat(chatId);
    }

    /** The create saga, then on success the new chat is cached and the creator's lists dropped. */
    method CreateChat(session: Session, request: CreateChat, created: Outcome<ChatPayload>,
                      historyCreated: Outcome<()>, rollback: Outcome<()>) returns (r: Outcome<ChatPayload>)
      modifies cache.store, session
      ensures session.log == old(session.log) + CreateChatSaga.CreateChatCalls(request, created, historyCreated)
      ensures r == CreateChatSaga.CreateChatResult(created, historyCreated, rollback)
      ensures session.histories ==
        if created.Ok? && historyCreated.Ok? then old(session.histories) + {created.value.id} else old(session.histories)
      ensures session.chats ==
        if created.Err? then old(session.chats)
        else if historyCreated.Ok? || rollback.Err? then old(session.chats) + {created.value.id}
        else old(session.chats) + {created.value.id} - {created.value.id}
      ensures cache.store.data ==
        if r.Ok? then AfterCreate(old(cache.store.data), r.value, request.userId) else old(cache.store.data)
    {
      r := CreateChatSaga.CreateChat(session, request, created, historyCreated, rollback);
      if r.Err? {
        return;
      }
      var _ := cache.SetChat(r.value.id, r.value);
      cache.DeleteChats(request.userId);
    }

    /** The delete saga, then on success the user's lists and the chat entry are dropped. */
    method DeleteChat(session: Session, userId: Uuid, chatId: Uuid, o: DeleteChatSaga.DeleteChatOutcomes)
      returns (r: Outcome<()>)
      modifies cache.store, session
      ensures session.log == old(session.log) + DeleteChatSaga.DeleteChatCalls(chatId, o)
      ensures r == DeleteChatSaga.DeleteChatResult(o)
      ensures session.chats == if r.Ok? then old(session.chats) - {chatId} else old(session.chats)
      ensures session.histories == DeleteChatSaga.HistoriesAfterDelete(old(session.histories), chatId, o)
      ensures cache.store.data ==
        if r.Ok? then AfterDelete(old(cache.store.data), chatId, userId) else old(cache.store.data)
    {
      r := DeleteChatSaga.DeleteChat(session, chatId, o);
      if r.Err? {
        return;
      }
      cache.DeleteChats(userId);
      var _ := cache.DeleteChat(chatId);
    }

    method UpdateChatName(session: Session, userId: Uuid, update: UpdateChat, outcome: Outcome<()>)
      returns (r: Outcome<()>)
      modifies cache.store, session
      ensures session.chats == old(session.chats) && session.histories == old(session.histories)
      ensures session.log == old(session.log) + [SetChatNameRequest(update)]
      ensures r == outcome
      ensures cache.store.data ==
        if r.Ok? then AfterChatChange(old(cache.store.data), update.chatId, userId) else old(cache.store.data)
    {
      r := session.Issue(SetChatNameRequest(update), outcome);
      if r.Err? {
        return;
      }
      var _ := cache.DeleteChat(update.chatId);
      cache.DeleteChats(userId);
    }

    /** The history is always read from the history service, never from the cache. */
    method GetChatHistory(session: Session, userId: Uuid, chatId: Uuid, reply: Outcome<HistoryGet.HistoryReply>)
      returns (r: Outcome<HistoryPayload>)
      modifies session
      ensures session.chats == old(session.chats) && session.histories == old(session.histories)
      ensures session.log == old(session.log) + [Call.GetHistoryRequest(chatId)]
      ensures r == HistoryGet.ReadHistory(reply)
    {
      r := HistoryGet.GetHistoryRequest(session, chatId, reply);
    }
  }
}
