# Papper gateway orchestration, modelled in Dafny

Papper's gateway sits in front of several services: a chat service, a history service, a vault
(document store) service and two answer-generation backends (graph and vector). It keeps a
Redis cache of chats, chat lists, vaults, documents and vault previews. This project models the
gateway's orchestration logic and proves what that logic promises:

- **The chat sagas.** Creating a chat creates the chat record and then its history record. If the
  history cannot be created, the chat is deleted again. Deleting a chat deletes the history and
  then the chat. If the chat delete fails, the history is re-created. HTTP errors pass through
  unchanged; any other error becomes a 503 with a fixed detail. The older revision of the create
  saga re-raises errors as they are.
- **The cache managers.** These are the key families of the messaging and vaults caches: single
  chats, chat lists per id and archived flag, documents lists, single documents, vault previews
  and single vaults. They are read, written and deleted, including the prefix delete of both
  chat-list variants. An empty cached list reads back as absent. Lemmas show that key families
  are disjoint and that every delete touches only its own keys.
- **The services.** `MessagingService` and `VaultsService` do cache-aside reads (a hit makes no
  request; a miss fetches, stores and returns the fetched value) and invalidate the cache after
  each write.
- **Vault deletion.** One chat-delete saga runs per chat of the vault. A failed chat delete is
  reported as a 500 and the vault is not deleted. When every chat is deleted, the vault and three
  cache entries are deleted. The older revision never deletes a vault that has chats.
- **Answer generation.** The newer revision is best-effort: fetch failures go into four error
  slots, the vault's type selects the backend, and the chat's cache entry is dropped only when the
  history fetch succeeded. The older revision raises on most failures.
- **History truncation.** The backward accumulation loop is proved to return the longest suffix
  of the history whose token total stays below the budget.
- **History decoding and reply classification.** A history entry whose role is "user" becomes a
  user message and every other entry an AI message. A request helper turns a downstream reply
  into a value or an HTTP error: 503, 502, or the reply's own status.

How the world is modelled:

- **Downstream services.** They are a `Downstream.Session` object. It holds the log of requests
  issued and the sets of chat records and history records that exist. The sets make it possible
  to state that chats and histories stay paired.
- **Replies.** Every request is given its outcome as a parameter: `Ok(value)` or
  `Err(HttpException(status, detail) | OtherException(name, message))`. A failed request has no
  downstream effect.
- **The cache.** The Redis store is a `KeyValueStore.Store` object whose `data` map the cache
  managers update in place. Both managers share one store, as they share one Redis client.
- **Sequencing.** What a saga or a fan-out does is specified by functions over the outcomes.
  The methods are proved to do exactly that.

## Model

| member | source | states |
|---|---|---|
| Common.ExceptionText | src/services/rag/service/generate_answer.py:56-65 | `str(e)` of an HTTP error is never empty; any other exception renders as its message |
| Common.PassThroughOr503 | src/services/messaging/service/messaging.py:159-167 | the raised error is always an HTTP error: an HTTP error unchanged, any other error a 503 with the call site's detail |
| KeyValueStore.WithoutPrefix | src/services/messaging/utils/cache.py:59-62 | a key survives a pattern delete exactly when it was present and does not start with the pattern's prefix; surviving values are unchanged |
| KeyValueStore.Store.Get | src/repositories/redis.py:34-36 | the stored value for a present key, None for a missing one |
| KeyValueStore.Store.Set | src/repositories/redis.py:27-29 | the key maps to the new value, nothing else changes, and the answer is true |
| KeyValueStore.Store.Delete | src/repositories/redis.py:31-32 | the key is removed, nothing else changes, and the answer says whether it existed |
| KeyValueStore.Store.DeleteByPrefix | src/services/messaging/utils/cache.py:60-62 | the store loses exactly the keys matching the trailing-`*` pattern |
| KeyValueStore.Store.Clear | src/repositories/redis.py:38-39 | the store is empty |
| MessagingCache.ChatKeyInjective | src/services/messaging/utils/cache.py:14-17 | two chats share a single-chat key exactly when they are the same chat |
| MessagingCache.ChatsPatternInjective | src/services/messaging/utils/cache.py:59-62 | two ids share a chat-list pattern exactly when they are equal |
| MessagingCache.ChatsKeyInjective | src/services/messaging/utils/cache.py:33-57 | list keys coincide only for the same id and the same archived flag, so the archived and non-archived lists are distinct entries |
| MessagingCache.ChatKeyIsNotChatsKey | src/services/messaging/utils/cache.py:16 | a single-chat key is never a chat-list key |
| MessagingCache.ChatsPatternMatches | src/services/messaging/utils/cache.py:59-62 | the pattern delete for an id matches a list key exactly when the key belongs to that id, and never matches a single-chat key |
| MessagingCache.DropChatsRemovesBothVariants | src/services/messaging/utils/cache.py:59-62 | after `delete_chats(id)` both list variants of the id are gone and read as None |
| MessagingCache.DropChatsKeepsOtherKeys | src/services/messaging/utils/cache.py:59-62 | `delete_chats(id)` changes no other id's lists and no single-chat entry |
| MessagingCache.ReadChatAfterSet | src/services/messaging/utils/cache.py:14-25 | `set_chat` then `get_chat` returns the stored payload; other chats read as before |
| MessagingCache.ReadChatAfterDelete | src/services/messaging/utils/cache.py:14-30 | after `delete_chat` the chat reads as None; other chats read as before |
| MessagingCache.ReadChatsAfterSet | src/services/messaging/utils/cache.py:33-57 | `set_chats` then `get_chats` returns the list, except that an empty list reads back as None; the other archived variant is unchanged |
| MessagingCache.ChatWritesKeepLists | src/services/messaging/utils/cache.py:21-45 | writing or deleting a single chat never changes a chat-list read |
| MessagingCache.MessagingCache.GetChat | src/services/messaging/utils/cache.py:14-19 | returns the chat stored under the chat's key, or None |
| MessagingCache.MessagingCache.SetChat | src/services/messaging/utils/cache.py:21-25 | stores the payload under the chat's key and changes nothing else |
| MessagingCache.MessagingCache.DeleteChat | src/services/messaging/utils/cache.py:27-30 | removes exactly the chat's key |
| MessagingCache.MessagingCache.GetChats | src/services/messaging/utils/cache.py:33-45 | returns the stored list for the id and flag, or None when absent or empty |
| MessagingCache.MessagingCache.SetChats | src/services/messaging/utils/cache.py:47-57 | stores the list under the id and flag's key and changes nothing else |
| MessagingCache.MessagingCache.DeleteChats | src/services/messaging/utils/cache.py:59-63 | removes every key matching the id's list pattern |
| VaultsCache.KeysInjective | src/services/vaults/utils/cache.py:10-15 | keys of different families never coincide; keys of one family coincide only for equal ids |
| VaultsCache.VaultKeysAreNotMessagingKeys | src/services/vaults/utils/cache.py:11-15 | no vault-cache key is a messaging-cache key or matches a chat-list pattern, so the two managers never touch each other's entries |
| VaultsCache.WritesTouchOnlyTheirKey | src/services/vaults/utils/cache.py:38-109 | a set or delete of one entry leaves every other vault-cache entry as it was |
| VaultsCache.ReadAfterSet | src/services/vaults/utils/cache.py:17-104 | set then get on the same id returns the stored value in all four families, except that an empty documents or preview list reads back as None |
| VaultsCache.ReadAfterDelete | src/services/vaults/utils/cache.py:17-109 | get after a delete of the same key returns None in all four families |
| VaultsCache.VaultsCache.GetDocuments | src/services/vaults/utils/cache.py:17-27 | returns the vault's stored documents list, or None when absent or empty |
| VaultsCache.VaultsCache.SetDocuments | src/services/vaults/utils/cache.py:29-36 | stores the documents list under the vault's key and changes nothing else |
| VaultsCache.VaultsCache.DeleteDocuments | src/services/vaults/utils/cache.py:38-41 | removes exactly the vault's documents key |
| VaultsCache.VaultsCache.GetDocument | src/services/vaults/utils/cache.py:43-48 | returns the stored document, or None |
| VaultsCache.VaultsCache.SetDocument | src/services/vaults/utils/cache.py:50-55 | stores the document under its key and changes nothing else |
| VaultsCache.VaultsCache.DeleteDocument | src/services/vaults/utils/cache.py:57-60 | removes exactly the document's key |
| VaultsCache.VaultsCache.GetVaultsPreview | src/services/vaults/utils/cache.py:62-77 | returns the user's stored previews, or None when absent or empty |
| VaultsCache.VaultsCache.SetVaultsPreview | src/services/vaults/utils/cache.py:79-86 | stores the previews under the user's key and changes nothing else |
| VaultsCache.VaultsCache.DeleteVaultsPreview | src/services/vaults/utils/cache.py:88-91 | removes exactly the user's previews key |
| VaultsCache.VaultsCache.GetVault | src/services/vaults/utils/cache.py:93-98 | returns the stored vault, or None |
| VaultsCache.VaultsCache.SetVault | src/services/vaults/utils/cache.py:100-104 | stores the vault under its key and changes nothing else |
| VaultsCache.VaultsCache.DeleteVault | src/services/vaults/utils/cache.py:106-109 | removes exactly the vault's key |
| Downstream.Session.CreateChat | src/services/messaging/requests/chats_service/create.py:10-22 | logs the request; on success the returned chat's id is a chat record; histories unchanged |
| Downstream.Session.DeleteChat | src/messaging/requests/chats_service/delete.py:10-22 | logs the request; on success the chat record is gone; histories unchanged |
| Downstream.Session.CreateHistory | main_service/src/messaging/requests/history_service/create.py:10-21 | logs the request; on success the chat has a history record; chats unchanged |
| Downstream.Session.DeleteHistory | src/services/messaging/requests/history_service/delete.py:9-20 | logs the request; on success the history record is gone; chats unchanged |
| HistoryGet.DecodeEntry | src/services/messaging/requests/history_service/get.py:24-27 | an entry becomes a user message exactly when its role is "user", otherwise an AI message; content and role kept, and the traceback for AI messages |
| HistoryGet.DecodeHistory | src/services/messaging/requests/history_service/get.py:22-27 | one decoded message per entry, same length, same order |
| HistoryGet.ReadHistory | src/services/messaging/requests/history_service/get.py:17-30 | status >= 400 exactly when an HTTP error with that status and detail is raised; a transport error escapes unchanged; otherwise the history is the entries decoded one by one, in order |
| HistoryGet.GetHistoryRequest | src/services/messaging/requests/history_service/get.py:10-30 | issues one history request and yields `ReadHistory` of its reply |
| CreateChatSaga.CreateChatSagaSteps | src/services/messaging/service/create_chat.py:14-47 | the history is created for exactly the id the chat service returned; no history request after a chat-create failure; a rollback delete exactly when the history create fails; success returns the chat payload; the error mapping of each step |
| CreateChatSaga.CreateChat | src/services/messaging/service/create_chat.py:11-47 | issues the saga's requests and returns its result; the records after it; chats and histories stay paired for a fresh id when the rollback succeeds |
| DeleteChatSaga.DeleteChatSagaSteps | main_service/src/messaging/service/delete_chat.py:13-36 | history delete first; the chat delete exactly when the history delete succeeded; the history re-create exactly when the chat delete then failed; success exactly when both succeeded; an HTTP failure of either delete is raised unchanged and any other becomes a 503 with that step's fixed detail; a failed re-create escapes as it is |
| DeleteChatSaga.DeleteChat | main_service/src/messaging/service/delete_chat.py:10-36 | issues the saga's requests and returns its result; the records after it; pairing is kept unless the compensation itself fails |
| LegacyCreateChat.RevisionsAgree | main_service/src/messaging/service/create_chat.py:10-28 | the older create saga succeeds exactly when the newer one does, with the same payload, and raises the same HTTP errors; it differs only by re-raising non-HTTP errors where the newer one raises a 503 |
| LegacyCreateChat.CreateChat | main_service/src/messaging/service/create_chat.py:7-30 | issues the same requests as the newer saga and re-raises every failure as it is |
| MessagingService.CreatedChatIsCached | src/services/messaging/service/messaging.py:189-192 | after a successful create the new chat is read from the cache and both of the creator's lists read as None |
| MessagingService.ChangedChatIsNotCached | src/services/messaging/service/messaging.py:119-244 | after a rename, an archive toggle or a delete, neither the chat nor the user's lists are read from the cache |
| MessagingService.VaultChatListSurvives | src/services/messaging/service/messaging.py:112-116 | the chat list cached under a vault id survives chat changes and deletes, so it can go stale |
| MessagingService.ReadThroughHitOrMiss | src/services/messaging/service/messaging.py:75-96 | a list hit makes no request and changes nothing; a miss makes exactly the one request and returns its outcome; a fetched non-empty list is a hit next time, an empty one is not |
| MessagingService.MessagingService.GetChatByUserId | src/services/messaging/service/messaging.py:40-67 | a hit returns the cached chat with no request; a miss requests the chat and the history, attaches the history, caches and returns the chat; when both fail, the chat's failure is raised (a fixed schedule, see "## Left out") |
| MessagingService.MessagingService.GetChatsByUserId | src/services/messaging/service/messaging.py:69-96 | the cache-aside list read under the user id, the flag picking the archived endpoint |
| MessagingService.MessagingService.GetChatsByVaultId | src/services/messaging/service/messaging.py:98-117 | the cache-aside list read under the vault id, kept as a non-archived list |
| MessagingService.MessagingService.ChangeChatArchiveStatus | src/services/messaging/service/messaging.py:119-139 | the archive endpoint exactly when the action is "archive"; after success the chat entry and the user's lists are dropped |
| MessagingService.MessagingService.CleanChatHistory | src/services/messaging/service/messaging.py:141-149 | after success only the chat entry is dropped |
| MessagingService.MessagingService.CreateChat | src/services/messaging/service/messaging.py:151-193 | the create saga, then, only on success, the chat is cached and the creator's lists dropped; on failure the cache is untouched |
| MessagingService.MessagingService.DeleteChat | src/services/messaging/service/messaging.py:195-230 | the delete saga, then, only on success, the user's lists and the chat entry are dropped; on failure the cache is untouched |
| MessagingService.MessagingService.UpdateChatName | src/services/messaging/service/messaging.py:232-244 | after success the chat entry and the user's lists are dropped |
| MessagingService.MessagingService.GetChatHistory | src/services/messaging/service/messaging.py:246-255 | always one history request, never the cache |
| ChatFanOut.BuildDeleteTasks | src/services/vaults/service/vaults.py:83-95 | one task per chat, for that chat's id, in list order |
| ChatFanOut.RunDeleteTasks | src/services/vaults/service/vaults.py:97-108 | runs the chat deletes until the first failure; the downstream state, the store and the failure are those the join specifies |
| ChatFanOut.JoinFailsIffSomeTaskFails | src/services/vaults/service/vaults.py:97-108 | the join fails exactly when some chat delete fails |
| ChatFanOut.JoinReportsFirstFailure | src/services/vaults/service/vaults.py:105-108 | the failure reported is that of the first failing chat delete |
| ChatFanOut.JoinNeverDeletesVault | src/services/vaults/service/vaults.py:97-114 | the join only appends to the log, never requests a vault delete, and only removes chat records |
| ChatFanOut.JoinAllSucceed | src/services/vaults/service/vaults.py:83-100 | when every delete succeeds, the join raises nothing, exactly the listed chats and their histories are gone and the log holds one history delete and one chat delete per chat |
| ChatFanOut.StoreAfterDeletesWithin | src/services/messaging/service/messaging.py:228-229 | the chat deletes only remove cache entries and change no value |
| ChatFanOut.StoreAfterDeletesDropsChats | src/services/messaging/service/messaging.py:228-229 | when every chat delete succeeds, no deleted chat and no list of the user is read from the cache |
| VaultsService.CreatedVaultIsCached | src/services/vaults/service/vaults.py:49-54 | after a create the new vault is read from the cache and the owner's previews are not |
| VaultsService.AddDocumentKeepsDocumentsList | src/services/vaults/service/vaults.py:63-68 | adding a document leaves a cached documents list as it was, so it can go stale |
| VaultsService.DeletesInvalidate | src/services/vaults/service/vaults.py:118-136 | after a vault or document delete none of the dropped entries is read back, and every other vault-cache key is as it was |
| VaultsService.VaultsService.CreateVault | src/services/vaults/service/vaults.py:38-55 | on success the owner's previews are dropped and the vault cached under its id; on failure nothing changes |
| VaultsService.VaultsService.AddDocument | src/services/vaults/service/vaults.py:57-69 | on success only the vault entry is rewritten, under the returned payload's id |
| VaultsService.VaultsService.DeleteVaultAndChats | src/services/vaults/service/vaults.py:71-122 | lists the chats through the cache, deletes them until the first failure (an HTTP failure becomes a 500), deletes the vault exactly when every chat was deleted, and then drops the vault, preview and documents entries |
| VaultsService.VaultsService.DeleteChatsThenVault | src/services/vaults/service/vaults.py:83-121 | the chat deletes until the first failure (an HTTP failure becomes a 500); the vault delete exactly when every chat was deleted; the log only grows |
| VaultsService.VaultsService.DeleteVaultRecord | src/services/vaults/service/vaults.py:118-121 | the vault delete, then, only on success, the vault, preview and documents entries are dropped |
| VaultsService.VaultsService.DeleteDocument | src/services/vaults/service/vaults.py:124-137 | only after the remote delete succeeded, the document, vault and documents entries are dropped |
| VaultsService.VaultsService.UpdateVaultName | src/services/vaults/service/vaults.py:139-152 | after success the vault and the user's previews entries are dropped |
| VaultsService.VaultsService.GetVaultDocuments | src/services/vaults/service/vaults.py:154-168 | a hit returns the cached list with no request; a miss fetches, stores and returns |
| VaultsService.VaultsService.GetUserVaultsPreview | src/services/vaults/service/vaults.py:170-184 | a hit returns the cached previews with no request; a miss fetches, stores and returns |
| VaultsService.VaultsService.GetVault | src/services/vaults/service/vaults.py:186-198 | a hit returns the cached vault with no request; a miss fetches, stores and returns |
| VaultsService.VaultsService.GetDocument | src/services/vaults/service/vaults.py:200-214 | a hit returns the cached document with no request; a miss fetches, stores and returns |
| LegacyDeleteVault.AllChatsDeletedVaultKept | src/vaults/service/delete_vault.py:31-53 | with at least one chat and every chat delete succeeding, every chat is gone and the join succeeds, yet no vault delete is requested |
| LegacyDeleteVault.DeleteVaultAndChats | src/vaults/service/delete_vault.py:12-54 | lists the chats with no cache, runs the same chat deletes, and requests the vault delete only when there were no chats |
| HistoryTruncation.TruncatedFits | main_service/src/rag/utils.py:10-15 | the result is a suffix of the history; it fits the budget unless empty; a history that fits is returned unchanged; when cut, the entry just before the cut would break the budget |
| HistoryTruncation.SuffixMonotone | main_service/src/rag/utils.py:10-13 | a longer suffix never totals fewer tokens |
| HistoryTruncation.TruncatedFrom | main_service/src/rag/utils.py:10-15 | the cut is at any position where the suffix fits and the one-longer suffix does not |
| HistoryTruncation.TruncatedIsLongestFittingSuffix | main_service/src/rag/utils.py:10-13 | no fitting suffix is longer than the result |
| HistoryTruncation.LastEntryTooBig | main_service/src/rag/utils.py:12-13 | when the newest entry alone reaches the budget, the result is empty |
| HistoryTruncation.TruncateHistory | main_service/src/rag/utils.py:5-15 | the backward accumulation loop returns exactly the specified truncation |
| GenerateAnswer.ErrorText | src/services/rag/service/generate_answer.py:56-65 | an error text exactly when the step failed; non-empty after an HTTP error |
| GenerateAnswer.SelectBackend | src/services/rag/service/generate_answer.py:78-98 | the vector backend exactly for a vector vault, the graph backend for an absent or graph vault |
| GenerateAnswer.InvalidationFollowsHistoryFetch | src/services/rag/service/generate_answer.py:126-129 | the cached chat survives exactly when the history fetch failed with a non-empty error text |
| GenerateAnswer.SentCredentialsFit | src/services/rag/service/generate_answer.py:67-76 | the backend gets the query, the fetched vault's id (or None), and a suffix of the fetched history that fits 3000 tokens (or nothing) |
| GenerateAnswer.Answer | src/services/rag/service/generate_answer.py:131-137 | the AI message has role "ai" and the backend's content and traceback; each slot is set exactly when its step failed |
| GenerateAnswer.FetchVaultAndHistory | src/services/rag/service/generate_answer.py:39-46 | the vault through the vaults service's cache-aside read, then the history fetch, both with their exceptions kept |
| GenerateAnswer.BuildCredentials | src/services/rag/service/generate_answer.py:67-76 | builds the credentials the backend is specified to receive |
| GenerateAnswer.AskBackend | src/services/rag/service/generate_answer.py:48-98 | the user message, then exactly one backend call: the backend the vault selects, sent the specified credentials |
| GenerateAnswer.Respond | src/services/rag/service/generate_answer.py:48-137 | the user message, one backend call, the AI message, then the conditional cache drop; only the backend's failure is raised |
| GenerateAnswer.GenerateAnswer | src/services/rag/service/generate_answer.py:25-137 | the whole request sequence; succeeds exactly when the backend answered; the answer's four slots; the chat's cache entry dropped exactly when the answer arrived and the history error is falsy |
| LegacyGenerateAnswer.LegacyAnswersOnlyGraphVaults | main_service/src/rag/service/generate_answer.py:58-79 | the older revision answers only when every step succeeded and the vault is a graph vault, and then returns the backend's answer |
| LegacyGenerateAnswer.AbsentVaultLosesAnswer | main_service/src/rag/service/generate_answer.py:58-66 | with an absent vault the graph backend is asked and answers, yet the request fails with an AttributeError and no AI message is stored |
| LegacyGenerateAnswer.GenerateAnswer | main_service/src/rag/service/generate_answer.py:21-79 | the user message first, then the direct vault and history fetches, the untruncated history, graph only, and the AI message |
| ServiceReplies.Classify | main_service/src/vault_service/utils/requests_to_service.py:24-42 | every raised error is an HTTP error; no connection is a 503, a non-JSON body a 502 whatever the status, an error status is passed on with the body's detail |
| ServiceReplies.VaultReply | main_service/src/vault_service/utils/requests_to_service.py:24-45 | success exactly for a parsed 200 reply; every other status is raised with its detail |
| ServiceReplies.AuthReply | main_service/src/auth_service/utils/requests_to_service.py:13-34 | success exactly for a parsed reply below 400; 400 and above are raised with their detail |
| ServiceReplies.ThresholdsDiffer | main_service/src/auth_service/utils/requests_to_service.py:18-21 | the two helpers disagree exactly on parsed statuses below 400 other than 200 |
| ServiceReplies.CreatedIsVaultError | main_service/src/vault_service/utils/requests_to_service.py:27-30 | a 201 reply is an error to the vault helper and a success to the authorization helper |
| ServiceReplies.RaisedErrorsPassThrough | main_service/src/vault_service/utils/requests_to_service.py:27-42 | the helpers' errors pass through the services' error mapping unchanged |
| ServiceReplies.BuildCreateVaultForm | main_service/src/vault_service/utils/requests_to_service.py:16-22 | the request field, then one file field per file, in order |
| ServiceReplies.FileFieldsCarryFiles | main_service/src/vault_service/utils/requests_to_service.py:18-22 | reading the files back out of their fields gives the files, in order |
| ServiceReplies.FormCarriesFiles | main_service/src/vault_service/utils/requests_to_service.py:16-22 | a built form carries exactly the files it was built from |
| ServiceReplies.CreateVaultRequest | main_service/src/vault_service/utils/requests_to_service.py:7-45 | posts the form for the vault and the files and classifies the reply |

## Left out

- The error decorator `aiohttp_error_handler` is not part of this model. The request wrappers it decorates are abstract requests that take their outcome as a parameter.
- Concurrency is not modelled. The vault fetch and the history fetch run one after the other. The vault's delete tasks run in list order and stop at the first failure, so the tasks after it never run. Interleaving and cancellation timing are not modelled. Neither is the `task.exception()` call on tasks still pending (src/services/vaults/service/vaults.py:103).
- `delete_by_pattern`, which the messaging cache calls, is not defined in src/repositories/redis.py. It is modelled as deleting every key that starts with the text in front of the pattern's trailing `*`.
- Cache entry expiry (TTL) and Redis transactions are not modelled. A cache write always succeeds.
- JSON decoding, a missing `detail` or `history` field (KeyError) and pydantic validation errors are not modelled. A reply is either a transport error or a decoded record.
- `None` elements in a history list are not modelled; every entry has content.
- Logging is not modelled.
- MessagingService.MessagingService.GetChatByUserId: the chat and history requests are gathered concurrently, and when both fail the source raises whichever failure comes first in time. The model fixes a schedule in which the chat's failure is raised.
- src/services/rag/utils.py, which the newer answer generation imports `truncate_history` from (src/services/rag/service/generate_answer.py:17), is not part of this model. GenerateAnswer.BuildCredentials uses the truncation of main_service/src/rag/utils.py:5-15 in its place.
- The tokenizer is a parameter `tokens: string -> nat` that stands for `len(tokenizer(content).input_ids)`.
- The route layer, authentication, JWT handling, configuration and the front end are not part of this model.
- Vault types are the two values "graph" and "vector". A vault of any other type, which would leave `answer` as None in the newer answer generation, is not modelled.
- The legacy vault deletion calls a chat-delete saga from module src/messaging/service, which is not part of this model. It is taken to be the saga of main_service/src/messaging/service/delete_chat.py.
- LegacyCreateChat.CreateChat: reads the chat's id from `chat_payload.chat_id`. The model does not separate that from the `id` field used elsewhere.
- The trivial single-call services of main_service/src/messaging/service and src/messaging/service have their own methods in this model only through `MessagingService`, whose methods do the same single call.
- Request helpers not named above (the thin `requests/**` wrappers) are abstract requests whose outcome is a parameter.

## Findings

| source | as written | input that shows it | evidently intended | confidence | as-written member | corrected member |
|---|---|---|---|---|---|---|
| src/vaults/service/delete_vault.py:51-53 | the vault delete is issued only in the branch with no chats | a vault with one chat whose delete succeeds: the call reports success, the chat is gone, the vault remains | delete the vault once every chat is deleted, as the later revision does (src/services/vaults/service/vaults.py:118) | high; not executed | LegacyDeleteVault.AllChatsDeletedVaultKept | VaultsService.VaultsService.DeleteVaultAndChats |
| main_service/src/rag/service/generate_answer.py:58-64 | after the branch for an absent vault, `vault_payload.type` is read without an `else` | the vault fetch fails and the graph backend answers: AttributeError on None, the answer is lost and never stored | only read the type of a vault that was fetched, as the later revision does (src/services/rag/service/generate_answer.py:79-98) | high; not executed | LegacyGenerateAnswer.AbsentVaultLosesAnswer | GenerateAnswer.GenerateAnswer |
