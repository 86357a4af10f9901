/** The vaults service of the gateway: vault and document reads through the cache, the writes
    that invalidate cached vaults, documents and previews, and the deletion of a vault together
    with its chats. */
module VaultsService {
  import opened Common
  import opened Schemas
  import opened KeyValueStore
  import opened Downstream
  import opened VaultsCache
  import opened ChatFanOut
  import DeleteChatSaga
  import MessagingCache
  import MessagingService

  /** The store after `create_vault` succeeds: the owner's previews are dropped, then the new
      vault is cached under its id. */
  function AfterCreateVault(data: map<string, CacheText>, userId: Uuid, vault: VaultPayload): map<string, CacheText> {
    (data - {Key(VaultsFamily, userId)})[Key(VaultFamily, vault.id) := VaultText(vault)]
  }

  /** The store after a vault is deleted: its entry, its owner's previews and its documents list
      are dropped, in that order. */
  function AfterDeleteVault(data: map<string, CacheText>, vaultId: Uuid, userId: Uuid): map<string, CacheText> {
    data - {Key(VaultFamily, vaultId)} - {Key(VaultsFamily, userId)} - {Key(DocumentsFamily, vaultId)}
  }

  /** The store after a document is deleted: the document's entry, its vault's entry and its
      vault's documents list are dropped, in that order. */
  function AfterDeleteDocument(data: map<string, CacheText>, vaultId: Uuid, documentId: Uuid): map<string, CacheText> {
    data - {Key(DocumentFamily, documentId)} - {Key(VaultFamily, vaultId)} - {Key(DocumentsFamily, vaultId)}
  }

  /** Whether the log holds a vault delete from position `from` on. */
  predicate VaultDeleteRequested(log: seq<Call>, from: nat) {
    exists k :: from <= k < |log| && log[k].DeleteVaultRequest?
  }

  /** After a create, the new vault is read from the cache and the owner's previews are not. */
  lemma CreatedVaultIsCached(data: map<string, CacheText>, userId: Uuid, vault: VaultPayload)
    ensures ReadVault(AfterCreateVault(data, userId, vault), vault.id) == Some(vault)
    ensures ReadVaultsPreview(AfterCreateVault(data, userId, vault), userId) == None
  {
    KeysInjective(VaultFamily, vault.id, VaultsFamily, userId);
  }

  /** Adding a document rewrites only the vault entry: a documents list cached for the vault is
      left as it was, so it goes on omitting the new document. */
  lemma AddDocumentKeepsDocumentsList(data: map<string, CacheText>, vault: VaultPayload, vaultId: Uuid)
    ensures ReadDocuments(data[Key(VaultFamily, vault.id) := VaultText(vault)], vaultId) == ReadDocuments(data, vaultId)
  {
    KeysInjective(VaultFamily, vault.id, DocumentsFamily, vaultId);
  }

  /** After a vault or a document is deleted, none of the entries it dropped is read back, and
      every other vault-cache entry is as it was. */
  lemma DeletesInvalidate(data: map<string, CacheText>, vaultId: Uuid, userId: Uuid, documentId: Uuid,
                          g: Family, other: Uuid)
    ensures ReadVault(AfterDeleteVault(data, vaultId, userId), vaultId) == None
    ensures ReadVaultsPreview(AfterDeleteVault(data, vaultId, userId), userId) == None
    ensures ReadDocuments(AfterDeleteVault(data, vaultId, userId), vaultId) == None
    ensures ReadDocument(AfterDeleteDocument(data, vaultId, documentId), documentId) == None
    ensures ReadVault(AfterDeleteDocument(data, vaultId, documentId), vaultId) == None
    ensures ReadDocuments(AfterDeleteDocument(data, vaultId, documentId), vaultId) == None
    ensures (g, other) !in {(VaultFamily, vaultId), (VaultsFamily, userId), (DocumentsFamily, vaultId)} ==>
      (Key(g, other) in AfterDeleteVault(data, vaultId, userId) <==> Key(g, other) in data)
    ensures (g, other) !in {(DocumentFamily, documentId), (VaultFamily, vaultId), (DocumentsFamily, vaultId)} ==>
      (Key(g, other) in AfterDeleteDocument(data, vaultId, documentId) <==> Key(g, other) in data)
  {
    KeysInjective(g, other, VaultFamily, vaultId);
    KeysInjective(g, other, VaultsFamily, userId);
    KeysInjective(g, other, DocumentsFamily, vaultId);
    KeysInjective(g, other, DocumentFamily, documentId);
  }

  class VaultsService {
    const cache: VaultsCache

    constructor (cache: VaultsCache)
      ensures this.cache == cache
    {
      this.cache := cache;
    }

    method CreateVault(session: Session, creation: CreateVault, files: seq<UploadFile>, created: Outcome<VaultPayload>)
      returns (r: Outcome<VaultPayload>)
      modifies cache.store, session
      ensures session.chats == old(session.chats) && session.histories == old(session.histories)
      ensures session.log == old(session.log) + [CreateVaultRequest(creation, files)]
      ensures r == created
      ensures cache.store.data ==
        if r.Ok? then AfterCreateVault(old(cache.store.data), creation.userId, r.value) else old(cache.store.data)
    {
      r := session.Issue(CreateVaultRequest(creation, files), created);
      if r.Err? {
        return;
      }
      var _ := cache.DeleteVaultsPreview(creation.userId);
      var _ := cache.SetVault(r.value.id, r.value);
    }

    /** The vault entry is rewritten under the id of the returned payload; nothing else in the
        cache changes. */
    method AddDocument(session: Session, vaultId: Uuid, file: UploadFile, added: Outcome<VaultPayload>)
      returns (r: Outcome<VaultPayload>)
      modifies cache.store, session
      ensures session.chats == old(session.chats) && session.histories == old(session.histories)
      ensures session.log == old(session.log) + [AddDocumentRequest(vaultId, file)]
      ensures r == added
      ensures cache.store.data ==
        if r.Ok? then old(cache.store.data)[Key(VaultFamily, r.value.id) := VaultText(r.value)] else old(cache.store.data)
    {
      r := session.Issue(AddDocumentRequest(vaultId, file), added);
      if r.Err? {
        return;
      }
      var _ := cache.SetVault(r.value.id, r.value);
    }

    /** Lists the vault's chats through the messaging cache, deletes each of them, and only when
        all of them are deleted, deletes the vault and drops its cache entries. */
    method DeleteVaultAndChats(session: Session, messaging: MessagingService.MessagingService, userId: Uuid,
                               vaultId: Uuid, chatsFetched: Outcome<seq<ChatPayload>>,
                               outcomes: nat -> DeleteChatSaga.DeleteChatOutcomes, vaultDeleted: Outcome<()>)
      returns (r: Outcome<()>)
      requires messaging.cache.store == cache.store
      modifies cache.store, session
      ensures var listing := MessagingService.ReadThrough(old(cache.store.data), vaultId, false, GetVaultChatsRequest(vaultId), chatsFetched);
        listing.result.Err? ==>
          && r == Err(listing.result.failure)
          && Remote(session.log, session.chats, session.histories)
             == Remote(old(session.log) + listing.calls, old(session.chats), old(session.histories))
          && cache.store.data == listing.data
      ensures var listing := MessagingService.ReadThrough(old(cache.store.data), vaultId, false, GetVaultChatsRequest(vaultId), chatsFetched);
        listing.result.Ok? ==>
          var ids := ChatIds(listing.result.value);
          var join := RunDeletes(Remote(old(session.log) + listing.calls, old(session.chats), old(session.histories)), ids, outcomes, 0);
          var data := StoreAfterDeletes(listing.data, userId, ids, outcomes, 0);
          && (join.failure.Some? ==>
                && r == Err(if join.failure.value.HttpException?
                            then HttpException(HTTP_500_INTERNAL_SERVER_ERROR, FailedToDeleteChats)
                            else join.failure.value)
                && Remote(session.log, session.chats, session.histories) == join.remote
                && cache.store.data == data)
          && (join.failure.None? ==>
                && r == vaultDeleted
                && Remote(session.log, session.chats, session.histories)
                   == Remote(join.remote.log + [DeleteVaultRequest(vaultId)], join.remote.chats, join.remote.histories)
                && cache.store.data == if r.Ok? then AfterDeleteVault(data, vaultId, userId) else data)
      // The vault delete is requested exactly when the chats were listed and every one of them
      // was deleted.
      ensures VaultDeleteRequested(session.log, |old(session.log)|) <==>
        var listing := MessagingService.ReadThrough(old(cache.store.data), vaultId, false, GetVaultChatsRequest(vaultId), chatsFetched);
        listing.result.Ok? &&
          forall j :: 0 <= j < |listing.result.value| ==> DeleteChatSaga.DeleteChatResult(outcomes(j)).Ok?
    {
      var listed := messaging.GetChatsByVaultId(session, vaultId, chatsFetched);
      if listed.Err? {
        return Err(listed.failure);
      }
      ghost var listedLog := session.log;
      assert forall k :: |old(session.log)| <= k < |listedLog| ==> !listedLog[k].DeleteVaultRequest?;
      r := DeleteChatsThenVault(session, messaging, userId, vaultId, listed.value, outcomes, vaultDeleted);
      assert forall k :: 0 <= k < |listedLog| ==> session.log[k] == listedLog[k];
      assert VaultDeleteRequested(session.log, |old(session.log)|) <==> VaultDeleteRequested(session.log, |listedLog|);
    }

    /** Deletes each listed chat until one fails (an HTTP failure is reported as a 500), and
        only when all of them are deleted, deletes the vault. */
    method DeleteChatsThenVault(session: Session, messaging: MessagingService.MessagingService, userId: Uuid,
                                vaultId: Uuid, chats: seq<ChatPayload>,
                                outcomes: nat -> DeleteChatSaga.DeleteChatOutcomes, vaultDeleted: Outcome<()>)
      returns (r: Outcome<()>)
      requires messaging.cache.store == cache.store
      modifies cache.store, session
      ensures var join := RunDeletes(Remote(old(session.log), old(session.chats), old(session.histories)), ChatIds(chats), outcomes, 0);
        var data := StoreAfterDeletes(old(cache.store.data), userId, ChatIds(chats), outcomes, 0);
        && (join.failure.Some? ==>
              && r == Err(if join.failure.value.HttpException?
                          then HttpException(HTTP_500_INTERNAL_SERVER_ERROR, FailedToDeleteChats)
                          else join.failure.value)
              && Remote(session.log, session.chats, session.histories) == join.remote
              && cache.store.data == data)
        && (join.failure.None? ==>
              && r == vaultDeleted
              && Remote(session.log, session.chats, session.histories)
                 == Remote(join.remote.log + [DeleteVaultRequest(vaultId)], join.remote.chats, join.remote.histories)
              && cache.store.data == if r.Ok? then AfterDeleteVault(data, vaultId, userId) else data)
      ensures old(session.log) <= session.log
      ensures VaultDeleteRequested(session.log, |old(session.log)|) <==>
        forall j :: 0 <= j < |chats| ==> DeleteChatSaga.DeleteChatResult(outcomes(j)).Ok?
    {
      var tasks := BuildDeleteTasks(chats);
      assert tasks == ChatIds(chats);
      ghost var start := Remote(session.log, session.chats, session.histories);
      JoinNeverDeletesVault(start, tasks, outcomes, 0);
      JoinFailsIffSomeTaskFails(start, tasks, outcomes, 0);
      if |tasks| > 0 {
        var failure := RunDeleteTasks(session, messaging, userId, tasks, outcomes);
        if failure.Some? {
          assert !VaultDeleteRequested(session.log, |old(session.log)|);
          if failure.value.HttpException? {
            return Err(HttpException(HTTP_500_INTERNAL_SERVER_ERROR, FailedToDeleteChats));
          }
          return Err(failure.value);
        }
      }
      r := DeleteVaultRecord(session, userId, vaultId, vaultDeleted);
      assert session.log[|session.log| - 1].DeleteVaultRequest?;
    }

    /** The last step of a vault deletion: the vault delete itself, then, on success, the vault,
        its owner's previews and its documents list are dropped from the cache. */
    method DeleteVaultRecord(session: Session, userId: Uuid, vaultId: Uuid, vaultDeleted: Outcome<()>)
      returns (r: Outcome<()>)
      modifies cache.store, session
      ensures session.chats == old(session.chats) && session.histories == old(session.histories)
      ensures session.log == old(session.log) + [DeleteVaultRequest(vaultId)]
      ensures r == vaultDeleted
      ensures cache.store.data ==
        if r.Ok? then AfterDeleteVault(old(cache.store.data), vaultId, userId) else old(cache.store.data)
    {
      r := session.Issue(DeleteVaultRequest(vaultId), vaultDeleted);
      if r.Err? {
        return;
      }
      var _ := cache.DeleteVault(vaultId);
      var _ := cache.DeleteVaultsPreview(userId);
      var _ := cache.DeleteDocuments(vaultId);
    }

    method DeleteDocument(session: Session, vaultId: Uuid, documentId: Uuid, outcome: Outcome<()>)
      returns (r: Outcome<()>)
      modifies cache.store, session
      ensures session.chats == old(session.chats) && session.histories == old(session.histories)
      ensures session.log == old(session.log) + [DeleteDocumentRequest(vaultId, documentId)]
      ensures r == outcome
      ensures cache.store.data ==
        if r.Ok? then AfterDeleteDocument(old(cache.store.data), vaultId, documentId) else old(cache.store.data)
    {
      r := session.Issue(DeleteDocumentRequest(vaultId, documentId), outcome);
      if r.Err? {
        return;
      }
      var _ := cache.DeleteDocument(documentId);
      var _ := cache.DeleteVault(vaultId);
      var _ := cache.DeleteDocuments(vaultId);
    }

    method UpdateVaultName(session: Session, userId: Uuid, update: UpdateVault, outcome: Outcome<()>)
      returns (r: Outcome<()>)
      modifies cache.store, session
      ensures session.chats == old(session.chats) && session.histories == old(session.histories)
      ensures session.log == old(session.log) + [UpdateVaultNameRequest(update)]
      ensures r == outcome
      ensures cache.store.data ==
        if r.Ok? then old(cache.store.data) - {Key(VaultFamily, update.vaultId)} - {Key(VaultsFamily, userId)}
        else old(cache.store.data)
    {
      r := session.Issue(UpdateVaultNameRequest(update), outcome);
      if r.Err? {
        return;
      }
      var _ := cache.DeleteVault(update.vaultId);
      var _ := cache.DeleteVaultsPreview(userId);
    }

    method GetVaultDocuments(session: Session, vaultId: Uuid, fetched: Outcome<seq<Document>>)
      returns (r: Outcome<seq<Document>>)
      modifies cache.store, session
      ensures session.chats == old(session.chats) && session.histories == old(session.histories)
      ensures ReadDocuments(old(cache.store.data), vaultId).Some? ==>
        && r == Ok(ReadDocuments(old(cache.store.data), vaultId).value)
        && session.log == old(session.log)
        && cache.store.data == old(cache.store.data)
      ensures ReadDocuments(old(cache.store.data), vaultId).None? ==>
        && session.log == old(session.log) + [GetVaultDocumentsRequest(vaultId)]
        && r == fetched
        && cache.store.data == if fetched.Ok?
             then old(cache.store.data)[Key(DocumentsFamily, vaultId) := DocumentListText(fetched.value)]
             else old(cache.store.data)
    {
      var cached := cache.GetDocuments(vaultId);
      if cached.Some? {
        return Ok(cached.value);
      }
      r := session.Issue(GetVaultDocumentsRequest(vaultId), fetched);
      if r.Ok? {
        var _ := cache.SetDocuments(vaultId, r.value);
      }
    }

    method GetUserVaultsPreview(session: Session, userId: Uuid, fetched: Outcome<seq<VaultPreview>>)
      returns (r: Outcome<seq<VaultPreview>>)
      modifies cache.store, session
      ensures session.chats == old(session.chats) && session.histories == old(session.histories)
      ensures ReadVaultsPreview(old(cache.store.data), userId).Some? ==>
        && r == Ok(ReadVaultsPreview(old(cache.store.data), userId).value)
        && session.log == old(session.log)
        && cache.store.data == old(cache.store.data)
      ensures ReadVaultsPreview(old(cache.store.data), userId).None? ==>
        && session.log == old(session.log) + [GetUserVaultsPreviewRequest(userId)]
        && r == fetched
        && cache.store.data == if fetched.Ok?
             then old(cache.store.data)[Key(VaultsFamily, userId) := PreviewListText(fetched.value)]
             else old(cache.store.data)
    {
      var cached := cache.GetVaultsPreview(userId);
      if cached.Some? {
        return Ok(cached.value);
      }
      r := session.Issue(GetUserVaultsPreviewRequest(userId), fetched);
      if r.Ok? {
        var _ := cache.SetVaultsPreview(userId, r.value);
      }
    }

    method GetVault(session: Session, vaultId: Uuid, fetched: Outcome<VaultPayload>) returns (r: Outcome<VaultPayload>)
      modifies cache.store, session
      ensures session.chats == old(session.chats) && session.histories == old(session.histories)
      ensures ReadVault(old(cache.store.data), vaultId).Some? ==>
        && r == Ok(ReadVault(old(cache.store.data), vaultId).value)
        && session.log == old(session.log)
        && cache.store.data == old(cache.store.data)
      ensures ReadVault(old(cache.store.data), vaultId).None? ==>
        && session.log == old(session.log) + [GetVaultRequest(vaultId)]
        && r == fetched
        && cache.store.data == if fetched.Ok?
             then old(cache.store.data)[Key(VaultFamily, vaultId) := VaultText(fetched.value)]
             else old(cache.store.data)
    {
      var cached := cache.GetVault(vaultId);
      if cached.Some? {
        return Ok(cached.value);
      }
      r := session.Issue(GetVaultRequest(vaultId), fetched);
      if r.Ok? {
        var _ := cache.SetVault(vaultId, r.value);
      }
    }

    method GetDocument(session: Session, vaultId: Uuid, documentId: Uuid, fetched: Outcome<Document>)
      returns (r: Outcome<Document>)
      modifies cache.store, session
      ensures session.chats == old(session.chats) && session.histories == old(session.histories)
      ensures ReadDocument(old(cache.store.data), documentId).Some? ==>
        && r == Ok(ReadDocument(old(cache.store.data), documentId).value)
        && session.log == old(session.log)
        && cache.store.data == old(cache.store.data)
      ensures ReadDocument(old(cache.store.data), documentId).None? ==>
        && session.log == old(session.log) + [GetDocumentRequest(vaultId, documentId)]
        && r == fetched
        && cache.store.data == if fetched.Ok?
             then old(cache.store.data)[Key(DocumentFamily, documentId) := DocumentText(fetched.value)]
             else old(cache.store.data)
    {
      var cached := cache.GetDocument(documentId);
      if cached.Some? {
        return Ok(cached.value);
      }
      r := session.Issue(GetDocumentRequest(vaultId, documentId), fetched);
      if r.Ok? {
        var _ := cache.SetDocument(documentId, r.value);
      }
    }
  }
}
