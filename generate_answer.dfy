/** Answer generation, best-effort: the vault and the history are fetched, the user's message is
    stored, the history is cut to the backend's budget, one backend is asked for the answer, the
    answer is stored, and every failure except the backend's is reported in the result instead
    of being raised. */
module GenerateAnswer {
  import opened Common
  import opened Schemas
  import opened Downstream
  import opened HistoryTruncation
  import HistoryGet
  import MessagingCache
  import VaultsCache
  import MessagingService
  import VaultsService

  /** The budget the history sent to the backend is cut to. */
  const AnswerMaxTokens: int := 3000

  /** One of the four error slots of the answer: `{True: message}` after a failure, otherwise
      `{False: ""}`. */
  datatype ErrorSlot = ErrorSlot(failed: bool, message: string)

  datatype ModelAnswer = ModelAnswer(
    aiMessage: Message,
    historyException: ErrorSlot,
    vaultException: ErrorSlot,
    addAiMessageException: ErrorSlot,
    addUserMessageException: ErrorSlot)

  /** The text of a step's exception, as `str(e)` renders it, or None when the step succeeded. */
  function ErrorText<T>(o: Outcome<T>): (t: Option<string>)
    ensures t.Some? <==> o.Err?
    ensures o.Err? && o.failure.HttpException? ==> t.value != []
    ensures o.Err? && o.failure.OtherException? ==> t.value == o.failure.message
  {
    if o.Err? then Some(ExceptionText(o.failure)) else None
  }

  function Slot(error: Option<string>): ErrorSlot {
    if error.Some? then ErrorSlot(true, error.value) else ErrorSlot(false, "")
  }

  /** The graph backend answers when the vault is absent or a graph vault, the vector backend
      when it is a vector vault. */
  function SelectBackend(vault: Option<VaultPayload>): (e: AnswerEndpoint)
    ensures e.VectorAnswer? <==> vault.Some? && vault.value.kind.Vector?
    ensures e.GraphAnswer? <==> vault.None? || vault.value.kind.Graph?
  {
    match vault
    case None => GraphAnswer
    case Some(v) => if v.kind.Vector? then VectorAnswer else GraphAnswer
  }

  /** The chat's cache entry is dropped when the history error is falsy: absent or empty. */
  predicate ShouldInvalidate(historyError: Option<string>) {
    historyError.None? || historyError.value == ""
  }

  /** The cached chat survives exactly when the history fetch failed with a non-empty error
      text: always after an HTTP error, never after an exception whose message is empty. */
  lemma InvalidationFollowsHistoryFetch(history: Outcome<HistoryPayload>)
    ensures !ShouldInvalidate(ErrorText(history)) <==>
      history.Err? && (history.failure.HttpException? || history.failure.message != "")
  {
  }

  /** The vault as `get_vault` of the vaults service yields it: the cached one on a hit,
      otherwise the fetch outcome. */
  function CachedOrFetchedVault(data: map<string, CacheText>, vaultId: Uuid, fetched: Outcome<VaultPayload>): Outcome<VaultPayload> {
    var cached := VaultsCache.ReadVault(data, vaultId);
    if cached.Some? then Ok(cached.value) else fetched
  }

  /** What the backend is sent: the fetched vault's id (or None), the query, and the fetched
      history cut to the budget (or nothing). */
  function SentCredentials(query: string, vault: Outcome<VaultPayload>, history: Outcome<HistoryPayload>,
                           tokens: string -> nat): AnswerGenerationCredentials {
    AnswerGenerationCredentials(
      if vault.Ok? then Some(vault.value.id) else None,
      query,
      if history.Ok? then Truncated(history.value.history, AnswerMaxTokens, tokens) else [])
  }

  /** The history sent is always a suffix of the fetched one that fits the budget, or empty;
      the vault id sent is the fetched vault's. */
  lemma SentCredentialsFit(query: string, vault: Outcome<VaultPayload>, history: Outcome<HistoryPayload>,
                           tokens: string -> nat)
    ensures var sent := SentCredentials(query, vault, history, tokens);
      && sent.query == query
      && (sent.vaultId.Some? <==> vault.Ok?)
      && (vault.Ok? ==> sent.vaultId.value == vault.value.id)
      && (history.Err? ==> sent.history == [])
      && (history.Ok? ==>
            && |sent.history| <= |history.value.history|
            && sent.history == history.value.history[|history.value.history| - |sent.history|..])
      && (sent.history == [] || Total(sent.history, tokens) < AnswerMaxTokens)
  {
    if history.Ok? {
      TruncatedFits(history.value.history, AnswerMaxTokens, tokens);
    }
  }

  /** The requests of the gather: the vault-service request `get_vault` makes (none on a cache
      hit), then the history fetch. */
  function FetchCalls(data: map<string, CacheText>, credentials: GenerationCredentials): seq<Call> {
    (if VaultsCache.ReadVault(data, credentials.vaultId).Some? then [] else [GetVaultRequest(credentials.vaultId)])
    + [Call.GetHistoryRequest(credentials.chatId)]
  }

  /** The requests after the gather, in order: the user message, the one backend call, and the
      AI message when the backend answered. */
  function AnswerCalls(credentials: GenerationCredentials, vault: Outcome<VaultPayload>, history: Outcome<HistoryPayload>,
                       answerOutcome: Outcome<AIMessage>, tokens: string -> nat): seq<Call> {
    [AddUserMessageRequest(credentials.chatId, credentials.query),
     AnswerRequest(SelectBackend(if vault.Ok? then Some(vault.value) else None),
                   SentCredentials(credentials.query, vault, history, tokens))]
    + (if answerOutcome.Ok? then [AddAiMessageRequest(credentials.chatId, answerOutcome.value)] else [])
  }

  /** The answer built from a backend reply and the four step outcomes. */
  function Answer(message: AIMessage, history: Outcome<HistoryPayload>, vault: Outcome<VaultPayload>,
                  aiMessageAdded: Outcome<()>, userMessageAdded: Outcome<()>): (a: ModelAnswer)
    ensures a.aiMessage.AIMessageResponse? && a.aiMessage.role == "ai"
    ensures a.aiMessage.content == message.content && a.aiMessage.traceback == message.traceback
    ensures a.historyException.failed <==> history.Err?
    ensures a.vaultException.failed <==> vault.Err?
    ensures a.addAiMessageException.failed <==> aiMessageAdded.Err?
    ensures a.addUserMessageException.failed <==> userMessageAdded.Err?
  {
    ModelAnswer(AIMessageResponse(message.content, "ai", message.traceback),
                Slot(ErrorText(history)), Slot(ErrorText(vault)), Slot(ErrorText(aiMessageAdded)), Slot(ErrorText(userMessageAdded)))
  }

  /** The vault read through the vaults service and the history fetch, gathered with their
      exceptions returned instead of raised. */
  method FetchVaultAndHistory(session: Session, vaults: VaultsService.VaultsService, credentials: GenerationCredentials,
                              vaultFetched: Outcome<VaultPayload>, historyReply: Outcome<HistoryGet.HistoryReply>)
    returns (vaultPayload: Outcome<VaultPayload>, chatHistory: Outcome<HistoryPayload>)
    modifies vaults.cache.store, session
    ensures session.chats == old(session.chats) && session.histories == old(session.histories)
    ensures session.log == old(session.log) + FetchCalls(old(vaults.cache.store.data), credentials)
    ensures vaultPayload == CachedOrFetchedVault(old(vaults.cache.store.data), credentials.vaultId, vaultFetched)
    ensures chatHistory == HistoryGet.ReadHistory(historyReply)
    ensures vaults.cache.store.data == FetchedData(old(vaults.cache.store.data), credentials.vaultId, vaultFetched)
  {
    vaultPayload := vaults.GetVault(session, credentials.vaultId, vaultFetched);
    chatHistory := HistoryGet.GetHistoryRequest(session, credentials.chatId, historyReply);
  }

  /** The store after `get_vault`: a fetched vault is cached on a miss. */
  function FetchedData(data: map<string, CacheText>, vaultId: Uuid, fetched: Outcome<VaultPayload>): map<string, CacheText> {
    if VaultsCache.ReadVault(data, vaultId).None? && fetched.Ok?
    then data[VaultsCache.Key(VaultsCache.VaultFamily, vaultId) := VaultText(fetched.value)]
    else data
  }

  /** The backend's credentials, with the history cut by the accumulation loop. */
  method BuildCredentials(query: string, vaultPayload: Outcome<VaultPayload>, chatHistory: Outcome<HistoryPayload>,
                          tokens: string -> nat) returns (sent: AnswerGenerationCredentials)
    ensures sent == SentCredentials(query, vaultPayload, chatHistory, tokens)
  {
    var history := [];
    if chatHistory.Ok? {
      history := TruncateHistory(chatHistory.value.history, AnswerMaxTokens, tokens);
    }
    sent := AnswerGenerationCredentials(if vaultPayload.Ok? then Some(vaultPayload.value.id) else None, query, history);
  }

  /** Store the user message, then ask the backend the vault's type selects, with the history
      cut to the budget. */
  method AskBackend(session: Session, credentials: GenerationCredentials, vaultPayload: Outcome<VaultPayload>,
                    chatHistory: Outcome<HistoryPayload>, userMessageAdded: Outcome<()>,
                    answerOutcome: Outcome<AIMessage>, tokens: string -> nat)
    returns (userMessage: Outcome<()>, answer: Outcome<AIMessage>)
    modifies session
    ensures session.chats == old(session.chats) && session.histories == old(session.histories)
    ensures session.log == old(session.log) + [AddUserMessageRequest(credentials.chatId, credentials.query),
      AnswerRequest(SelectBackend(if vaultPayload.Ok? then Some(vaultPayload.value) else None),
                    SentCredentials(credentials.query, vaultPayload, chatHistory, tokens))]
    ensures userMessage == userMessageAdded && answer == answerOutcome
  {
    userMessage := session.Issue(AddUserMessageRequest(credentials.chatId, credentials.query), userMessageAdded);
    var vault := if vaultPayload.Ok? then Some(vaultPayload.value) else None;
    var sent := BuildCredentials(credentials.query, vaultPayload, chatHistory, tokens);
    answer := session.Issue(AnswerRequest(SelectBackend(vault), sent), answerOutcome);
  }

  /** Everything after the gather: store the user message, cut the history, ask the backend
      the vault's type selects, store its answer and drop the chat's cache entry. */
  method Respond(session: Session, messaging: MessagingService.MessagingService, credentials: GenerationCredentials,
                 vaultPayload: Outcome<VaultPayload>, chatHistory: Outcome<HistoryPayload>, userMessageAdded: Outcome<()>,
                 answerOutcome: Outcome<AIMessage>, aiMessageAdded: Outcome<()>, tokens: string -> nat)
    returns (r: Outcome<ModelAnswer>)
    modifies messaging.cache.store, session
    ensures session.chats == old(session.chats) && session.histories == old(session.histories)
    ensures session.log == old(session.log) + AnswerCalls(credentials, vaultPayload, chatHistory, answerOutcome, tokens)
    ensures r == if answerOutcome.Err? then Err(answerOutcome.failure)
      else Ok(Answer(answerOutcome.value, chatHistory, vaultPayload, aiMessageAdded, userMessageAdded))
    ensures messaging.cache.store.data ==
      if answerOutcome.Ok? && ShouldInvalidate(ErrorText(chatHistory))
      then old(messaging.cache.store.data) - {MessagingCache.ChatKey(credentials.chatId)}
      else old(messaging.cache.store.data)
  {
    var userMessage, answer := AskBackend(session, credentials, vaultPayload, chatHistory, userMessageAdded, answerOutcome, tokens);
    if answer.Err? {
      return Err(answer.failure);
    }
    var aiMessage := session.Issue(AddAiMessageRequest(credentials.chatId, answer.value), aiMessageAdded);
    if ShouldInvalidate(ErrorText(chatHistory)) {
      var _ := messaging.cache.DeleteChat(credentials.chatId);
    }
    r := Ok(Answer(answer.value, chatHistory, vaultPayload, aiMessage, userMessage));
  }

  method GenerateAnswer(session: Session, messaging: MessagingService.MessagingService, vaults: VaultsService.VaultsService,
                        credentials: GenerationCredentials, vaultFetched: Outcome<VaultPayload>,
                        historyReply: Outcome<HistoryGet.HistoryReply>, userMessageAdded: Outcome<()>,
                        answerOutcome: Outcome<AIMessage>, aiMessageAdded: Outcome<()>, tokens: string -> nat)
    returns (r: Outcome<ModelAnswer>)
    requires messaging.cache.store == vaults.cache.store
    modifies vaults.cache.store, session
    ensures session.chats == old(session.chats) && session.histories == old(session.histories)
    ensures var vault := CachedOrFetchedVault(old(vaults.cache.store.data), credentials.vaultId, vaultFetched);
      session.log == old(session.log) + FetchCalls(old(vaults.cache.store.data), credentials)
        + AnswerCalls(credentials, vault, HistoryGet.ReadHistory(historyReply), answerOutcome, tokens)
    // Only the backend's failure is raised.
    ensures r.Ok? <==> answerOutcome.Ok?
    ensures answerOutcome.Err? ==> r == Err(answerOutcome.failure)
    ensures answerOutcome.Ok? ==>
      r.value == Answer(answerOutcome.value, HistoryGet.ReadHistory(historyReply),
                        CachedOrFetchedVault(old(vaults.cache.store.data), credentials.vaultId, vaultFetched),
                        aiMessageAdded, userMessageAdded)
    ensures var fetchedData := FetchedData(old(vaults.cache.store.data), credentials.vaultId, vaultFetched);
      vaults.cache.store.data ==
        if answerOutcome.Ok? && ShouldInvalidate(ErrorText(HistoryGet.ReadHistory(historyReply)))
        then fetchedData - {MessagingCache.ChatKey(credentials.chatId)}
        else fetchedData
  {
    var vaultPayload, chatHistory := FetchVaultAndHistory(session, vaults, credentials, vaultFetched, historyReply);
    r := Respond(session, messaging, credentials, vaultPayload, chatHistory, userMessageAdded, answerOutcome, aiMessageAdded, tokens);
  }
}
