/** The messaging cache manager: where single chats and chat lists live in the store,
    how they are read back, and which keys each write or delete touches. */
module MessagingCache {
  import opened Common
  import opened Schemas
  import opened KeyValueStore

  const CachePrefix: string := "messaging:"
  const ChatPrefix: string := "chat:"
  const ChatsPrefix: string := "chats:"

  /** Python's rendering of a bool inside an f-string. */
  function BoolText(b: bool): string {
    if b then "True" else "False"
  }

  /** The key of one cached chat. */
  function ChatKey(chatId: Uuid): (k: string)
    ensures |k| == 47
  {
    CachePrefix + ChatPrefix + chatId
  }

  /** The part of a chat-list key in front of the archived flag; deleting by the pattern
      "<this>*" drops both archived variants kept for `id`. */
  function ChatsPattern(id: Uuid): (k: string)
    ensures |k| == 49
  {
    CachePrefix + ChatsPrefix + id + ":"
  }

  /** The key of a cached chat list. `id` is a user id or a vault id: both kinds of list share
      this key family. */
  function ChatsKey(id: Uuid, isArchived: bool): string {
    ChatsPattern(id) + BoolText(isArchived)
  }

  /** What `get_chat` reads: the stored chat, or None when nothing is stored under its key. */
  function ReadChat(data: map<string, CacheText>, chatId: Uuid): Option<ChatPayload> {
    var key := ChatKey(chatId);
    if key in data && data[key].ChatText? then Some(data[key].chat) else None
  }

  /** What `get_chats` reads: `[...] if json_result else None`, so a stored empty list is None. */
  function ReadChats(data: map<string, CacheText>, id: Uuid, isArchived: bool): Option<seq<ChatPayload>> {
    var key := ChatsKey(id, isArchived);
    if key in data && data[key].ChatListText? && data[key].chats != [] then Some(data[key].chats) else None
  }

  /** The store after `delete_chats(id)`. */
  function DropChats(data: map<string, CacheText>, id: Uuid): map<string, CacheText> {
    WithoutPrefix(data, ChatsPattern(id))
  }

  lemma ChatKeyInjective(a: Uuid, b: Uuid)
    ensures ChatKey(a) == ChatKey(b) <==> a == b
  {
    assert ChatKey(a)[15..] == a;
    assert ChatKey(b)[15..] == b;
  }

  lemma ChatsPatternInjective(a: Uuid, b: Uuid)
    ensures ChatsPattern(a) == ChatsPattern(b) <==> a == b
  {
    assert ChatsPattern(a)[16..48] == a;
    assert ChatsPattern(b)[16..48] == b;
  }

  /** Two list keys coincide only for the same id and the same archived flag: the archived and
      the non-archived list of one id are distinct entries. */
  lemma ChatsKeyInjective(a: Uuid, fa: bool, b: Uuid, fb: bool)
    ensures ChatsKey(a, fa) == ChatsKey(b, fb) <==> a == b && fa == fb
  {
    if ChatsKey(a, fa) == ChatsKey(b, fb) {
      assert |BoolText(fa)| == |BoolText(fb)|;
      assert ChatsKey(a, fa)[..49] == ChatsPattern(a);
      assert ChatsKey(b, fb)[..49] == ChatsPattern(b);
      ChatsPatternInjective(a, b);
    }
  }

  /** A single-chat key is never a list key. */
  lemma ChatKeyIsNotChatsKey(a: Uuid, b: Uuid, f: bool)
    ensures ChatKey(a) != ChatsKey(b, f)
  {
    assert ChatKey(a)[14] == ':';
    assert ChatsKey(b, f)[14] == 's';
  }

  /** `delete_chats(id)` matches a list key exactly when the key belongs to `id`, and never
      matches a single-chat key. */
  lemma ChatsPatternMatches(id: Uuid, other: Uuid, f: bool, c: Uuid)
    ensures HasPrefix(ChatsKey(other, f), ChatsPattern(id)) <==> other == id
    ensures !HasPrefix(ChatKey(c), ChatsPattern(id))
  {
    assert ChatsKey(other, f)[..49] == ChatsPattern(other);
    ChatsPatternInjective(id, other);
  }

  /** `delete_chats(id)` removes both the archived and the non-archived list of `id`. */
  lemma DropChatsRemovesBothVariants(data: map<string, CacheText>, id: Uuid)
    ensures ChatsKey(id, true) !in DropChats(data, id)
    ensures ChatsKey(id, false) !in DropChats(data, id)
    ensures ReadChats(DropChats(data, id), id, true) == None
    ensures ReadChats(DropChats(data, id), id, false) == None
  {
    ChatsPatternMatches(id, id, true, id);
    ChatsPatternMatches(id, id, false, id);
  }

  /** `delete_chats(id)` leaves every other id's lists and every single-chat entry as they were. */
  lemma DropChatsKeepsOtherKeys(data: map<string, CacheText>, id: Uuid, other: Uuid, f: bool, c: Uuid)
    requires other != id
    ensures ReadChats(DropChats(data, id), other, f) == ReadChats(data, other, f)
    ensures ReadChat(DropChats(data, id), c) == ReadChat(data, c)
  {
    ChatsPatternMatches(id, other, f, c);
  }

  /** `set_chat` then `get_chat` returns the stored payload; other chats are unaffected. */
  lemma ReadChatAfterSet(data: map<string, CacheText>, chatId: Uuid, payload: ChatPayload, other: Uuid)
    ensures ReadChat(data[ChatKey(chatId) := ChatText(payload)], chatId) == Some(payload)
    ensures other != chatId ==>
      ReadChat(data[ChatKey(chatId) := ChatText(payload)], other) == ReadChat(data, other)
  {
    ChatKeyInjective(chatId, other);
  }

  /** After `delete_chat` nothing is read for that chat, and other chats are unaffected. */
  lemma ReadChatAfterDelete(data: map<string, CacheText>, chatId: Uuid, other: Uuid)
    ensures ReadChat(data - {ChatKey(chatId)}, chatId) == None
    ensures other != chatId ==> ReadChat(data - {ChatKey(chatId)}, other) == ReadChat(data, other)
  {
    ChatKeyInjective(chatId, other);
  }

  /** `set_chats` then `get_chats` returns the stored list, except that an empty list reads back
      as None; the other archived variant is unaffected. */
  lemma ReadChatsAfterSet(data: map<string, CacheText>, id: Uuid, f: bool, payloads: seq<ChatPayload>)
    ensures ReadChats(data[ChatsKey(id, f) := ChatListText(payloads)], id, f)
      == if payloads == [] then None else Some(payloads)
    ensures ReadChats(data[ChatsKey(id, f) := ChatListText(payloads)], id, !f) == ReadChats(data, id, !f)
  {
    ChatsKeyInjective(id, f, id, !f);
  }

  /** Writing or deleting a single chat never changes what a chat-list read returns. */
  lemma ChatWritesKeepLists(data: map<string, CacheText>, chatId: Uuid, payload: ChatPayload, id: Uuid, f: bool)
    ensures ReadChats(data[ChatKey(chatId) := ChatText(payload)], id, f) == ReadChats(data, id, f)
    ensures ReadChats(data - {ChatKey(chatId)}, id, f) == ReadChats(data, id, f)
  {
    ChatKeyIsNotChatsKey(chatId, id, f);
  }

  class MessagingCache {
    const store: Store

    constructor (store: Store)
      ensures this.store == store
    {
      this.store := store;
    }

    method GetChat(chatId: Uuid) returns (r: Option<ChatPayload>)
      ensures r == ReadChat(store.data, chatId)
    {
      var text := store.Get(ChatKey(chatId));
      r := if text.Some? && text.value.ChatText? then Some(text.value.chat) else None;
    }

    method SetChat(chatId: Uuid, payload: ChatPayload) returns (ok: bool)
      modifies store
      ensures store.data == old(store.data)[ChatKey(chatId) := ChatText(payload)]
      ensures ok
    {
      ok := store.Set(ChatKey(chatId), ChatText(payload));
    }

    method DeleteChat(chatId: Uuid) returns (removed: bool)
      modifies store
      ensures store.data == old(store.data) - {ChatKey(chatId)}
      ensures removed == (ChatKey(chatId) in old(store.data))
    {
      removed := store.Delete(ChatKey(chatId));
    }

    method GetChats(id: Uuid, isArchived: bool) returns (r: Option<seq<ChatPayload>>)
      ensures r == ReadChats(store.data, id, isArchived)
    {
      var text := store.Get(ChatsKey(id, isArchived));
      r := if text.Some? && text.value.ChatListText? && text.value.chats != []
        then Some(text.value.chats) else None;
    }

    method SetChats(id: Uuid, payloads: seq<ChatPayload>, isArchived: bool) returns (ok: bool)
      modifies store
      ensures store.data == old(store.data)[ChatsKey(id, isArchived) := ChatListText(payloads)]
      ensures ok
    {
      ok := store.Set(ChatsKey(id, isArchived), ChatListText(payloads));
    }

    method DeleteChats(id: Uuid)
      modifies store
      ensures store.data == DropChats(old(store.data), id)
    {
      store.DeleteByPrefix(ChatsPattern(id));
    }
  }
}
