/** The vaults cache manager: four key families (document lists, single documents, a user's
    vault previews, single vaults), their reads, writes and deletes. */
module VaultsCache {
  import opened Common
  import opened Schemas
  import opened KeyValueStore
  import MessagingCache

  const CachePrefix: string := "vaults:"

  /** The four kinds of vault-cache entry; the name of each gives its prefix below. */
  datatype Family = DocumentsFamily | DocumentFamily | VaultsFamily | VaultFamily

  function FamilyPrefix(f: Family): string {
    match f
    case DocumentsFamily => "documents:"
    case DocumentFamily => "document:"
    case VaultsFamily => "vaults:"
    case VaultFamily => "vault:"
  }

  /** The key of an entry: the documents of a vault, a document, the vault previews of a user,
      a vault. */
  function Key(f: Family, id: Uuid): string {
    CachePrefix + FamilyPrefix(f) + id
  }

  function ReadDocuments(data: map<string, CacheText>, vaultId: Uuid): Option<seq<Document>> {
    var key := Key(DocumentsFamily, vaultId);
    if key in data && data[key].DocumentListText? && data[key].documents != []
    then Some(data[key].documents) else None
  }

  function ReadDocument(data: map<string, CacheText>, documentId: Uuid): Option<Document> {
    var key := Key(DocumentFamily, documentId);
    if key in data && data[key].DocumentText? then Some(data[key].document) else None
  }

  function ReadVaultsPreview(data: map<string, CacheText>, userId: Uuid): Option<seq<VaultPreview>> {
    var key := Key(VaultsFamily, userId);
    if key in data && data[key].PreviewListText? && data[key].previews != []
    then Some(data[key].previews) else None
  }

  function ReadVault(data: map<string, CacheText>, vaultId: Uuid): Option<VaultPayload> {
    var key := Key(VaultFamily, vaultId);
    if key in data && data[key].VaultText? then Some(data[key].vault) else None
  }

  /** Keys of different families never coincide, and keys of one family coincide only for
      equal ids. */
  lemma KeysInjective(f: Family, a: Uuid, g: Family, b: Uuid)
    ensures Key(f, a) == Key(g, b) <==> f == g && a == b
  {
    var x, y := Key(f, a), Key(g, b);
    if f == g {
      var n := |CachePrefix + FamilyPrefix(f)|;
      assert x[n..] == a;
      assert y[n..] == b;
    } else if {f, g} == {DocumentsFamily, DocumentFamily} {
      assert x[15] != y[15];
    } else if {f, g} == {VaultsFamily, VaultFamily} {
      assert x[12] != y[12];
    } else {
      assert x[7] != y[7];
    }
  }

  /** No vault-cache key is a messaging-cache key, nor starts with a chat-list pattern: the
      two cache managers never touch each other's entries in the shared store. */
  lemma VaultKeysAreNotMessagingKeys(f: Family, a: Uuid, chatId: Uuid, id: Uuid, isArchived: bool)
    ensures Key(f, a) != MessagingCache.ChatKey(chatId)
    ensures Key(f, a) != MessagingCache.ChatsKey(id, isArchived)
    ensures !HasPrefix(Key(f, a), MessagingCache.ChatsPattern(id))
  {
    assert Key(f, a)[0] == 'v';
    assert MessagingCache.ChatKey(chatId)[0] == 'm';
    assert MessagingCache.ChatsKey(id, isArchived)[0] == 'm';
    PrefixesExclusive(Key(f, a), [], MessagingCache.ChatsPattern(id), 0);
    assert Key(f, a) + [] == Key(f, a);
  }

  /** Deleting or writing one entry changes no other entry of the vault cache. */
  lemma WritesTouchOnlyTheirKey(data: map<string, CacheText>, f: Family, id: Uuid, v: CacheText, g: Family, other: Uuid)
    requires f != g || id != other
    ensures Key(g, other) in data - {Key(f, id)} <==> Key(g, other) in data
    ensures Key(g, other) in data[Key(f, id) := v] <==> Key(g, other) in data
    ensures Key(g, other) in data ==> data[Key(f, id) := v][Key(g, other)] == data[Key(g, other)]
  {
    KeysInjective(f, id, g, other);
  }

  /** Set followed by get on the same id returns what was stored, except that an empty
      documents list or preview list reads back as None. */
  lemma ReadAfterSet(data: map<string, CacheText>, id: Uuid, documents: seq<Document>, document: Document,
                     previews: seq<VaultPreview>, vault: VaultPayload)
    ensures ReadDocuments(data[Key(DocumentsFamily, id) := DocumentListText(documents)], id)
      == if documents == [] then None else Some(documents)
    ensures ReadDocument(data[Key(DocumentFamily, id) := DocumentText(document)], id) == Some(document)
    ensures ReadVaultsPreview(data[Key(VaultsFamily, id) := PreviewListText(previews)], id)
      == if previews == [] then None else Some(previews)
    ensures ReadVault(data[Key(VaultFamily, id) := VaultText(vault)], id) == Some(vault)
  {
  }

  /** Get on a missing key, or after its delete, returns None. */
  lemma ReadAfterDelete(data: map<string, CacheText>, id: Uuid)
    ensures ReadDocuments(data - {Key(DocumentsFamily, id)}, id) == None
    ensures ReadDocument(data - {Key(DocumentFamily, id)}, id) == None
    ensures ReadVaultsPreview(data - {Key(VaultsFamily, id)}, id) == None
    ensures ReadVault(data - {Key(VaultFamily, id)}, id) == None
  {
  }

  class VaultsCache {
    const store: Store

    constructor (store: Store)
      ensures this.store == store
    {
      this.store := store;
    }

    method GetDocuments(vaultId: Uuid) returns (r: Option<seq<Document>>)
      ensures r == ReadDocuments(store.data, vaultId)
    {
      var text := store.Get(Key(DocumentsFamily, vaultId));
      r := if text.Some? && text.value.DocumentListText? && text.value.documents != []
        then Some(text.value.documents) else None;
    }

    method SetDocuments(vaultId: Uuid, documents: seq<Document>) returns (ok: bool)
      modifies store
      ensures store.data == old(store.data)[Key(DocumentsFamily, vaultId) := DocumentListText(documents)]
      ensures ok
    {
      ok := store.Set(Key(DocumentsFamily, vaultId), DocumentListText(documents));
    }

    method DeleteDocuments(vaultId: Uuid) returns (removed: bool)
      modifies store
      ensures store.data == old(store.data) - {Key(DocumentsFamily, vaultId)}
      ensures removed == (Key(DocumentsFamily, vaultId) in old(store.data))
    {
      removed := store.Delete(Key(DocumentsFamily, vaultId));
    }

    method GetDocument(documentId: Uuid) returns (r: Option<Document>)
      ensures r == ReadDocument(store.data, documentId)
    {
      var text := store.Get(Key(DocumentFamily, documentId));
      r := if text.Some? && text.value.DocumentText? then Some(text.value.document) else None;
    }

    method SetDocument(documentId: Uuid, document: Document) returns (ok: bool)
      modifies store
      ensures store.data == old(store.data)[Key(DocumentFamily, documentId) := DocumentText(document)]
      ensures ok
    {
      ok := store.Set(Key(DocumentFamily, documentId), DocumentText(document));
    }

    method DeleteDocument(documentId: Uuid) returns (removed: bool)
      modifies store
      ensures store.data == old(store.data) - {Key(DocumentFamily, documentId)}
      ensures removed == (Key(DocumentFamily, documentId) in old(store.data))
    {
      removed := store.Delete(Key(DocumentFamily, documentId));
    }

    method GetVaultsPreview(userId: Uuid) returns (r: Option<seq<VaultPreview>>)
      ensures r == ReadVaultsPreview(store.data, userId)
    {
      var text := store.Get(Key(VaultsFamily, userId));
      r := if text.Some? && text.value.PreviewListText? && text.value.previews != []
        then Some(text.value.previews) else None;
    }

    method SetVaultsPreview(userId: Uuid, previews: seq<VaultPreview>) returns (ok: bool)
      modifies store
      ensures store.data == old(store.data)[Key(VaultsFamily, userId) := PreviewListText(previews)]
      ensures ok
    {
      ok := store.Set(Key(VaultsFamily, userId), PreviewListText(previews));
    }

    method DeleteVaultsPreview(userId: Uuid) returns (removed: bool)
      modifies store
      ensures store.data == old(store.data) - {Key(VaultsFamily, userId)}
      ensures removed == (Key(VaultsFamily, userId) in old(store.data))
    {
      removed := store.Delete(Key(VaultsFamily, userId));
    }

    method GetVault(vaultId: Uuid) returns (r: Option<VaultPayload>)
      ensures r == ReadVault(store.data, vaultId)
    {
      var text := store.Get(Key(VaultFamily, vaultId));
      r := if text.Some? && text.value.VaultText? then Some(text.value.vault) else None;
    }

    method SetVault(vaultId: Uuid, vault: VaultPayload) returns (ok: bool)
      modifies store
      ensures store.data == old(store.data)[Key(VaultFamily, vaultId) := VaultText(vault)]
      ensures ok
    {
      ok := store.Set(Key(VaultFamily, vaultId), VaultText(vault));
    }

    method DeleteVault(vaultId: Uuid) returns (removed: bool)
      modifies store
      ensures store.data == old(store.data) - {Key(VaultFamily, vaultId)}
      ensures removed == (Key(VaultFamily, vaultId) in old(store.data))
    {
      removed := store.Delete(Key(VaultFamily, vaultId));
    }
  }
}
