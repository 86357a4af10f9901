/** The earlier revision of answer generation: the user message is stored first and its failure
    is raised; the vault and the history are fetched straight from their services with failures
    downgraded to None; the history is sent whole; only the graph backend exists; the AI message
    is stored and its failure is raised; only the AI message is returned. */
module LegacyGenerateAnswer {
  import opened Common
  import opened Schemas
  import opened Downstream

  /** What reading `.type` of an absent vault raises. */
  const NoneVaultError: Failure := OtherException("AttributeError", "'NoneType' object has no attribute 'type'")
  /** What a vector vault raises: a bare NotImplementedError, whose text is empty. */
  const VectorNotImplemented: Failure := OtherException("NotImplementedError", "")

  /** What the graph backend is sent: the vault's id (or None), the query and the whole history
      (or nothing). */
  function LegacyCredentials(query: string, vault: Outcome<VaultPayload>, history: Outcome<HistoryPayload>): AnswerGenerationCredentials {
    AnswerGenerationCredentials(if vault.Ok? then Some(vault.value.id) else None, query,
                                if history.Ok? then history.value.history else [])
  }

  /** The requests issued, in order. The graph backend is asked when the vault is absent or a
      graph vault; the AI message is stored only for a graph vault whose answer arrived. */
  function LegacyCalls(credentials: GenerationCredentials, userMessageAdded: Outcome<()>, vault: Outcome<VaultPayload>,
                       history: Outcome<HistoryPayload>, answerOutcome: Outcome<AIMessage>): seq<Call> {
    var user := [AddUserMessageRequest(credentials.chatId, credentials.query)];
    var fetches := [GetVaultRequest(credentials.vaultId), Call.GetHistoryRequest(credentials.chatId)];
    var ask := [AnswerRequest(GraphAnswer, LegacyCredentials(credentials.query, vault, history))];
    if userMessageAdded.Err? then user
    else if vault.Ok? && vault.value.kind.Vector? then user + fetches
    else if vault.Err? || answerOutcome.Err? then user + fetches + ask
    else user + fetches + ask + [AddAiMessageRequest(credentials.chatId, answerOutcome.value)]
  }

  /** What the revision returns or raises. */
  function LegacyResult(userMessageAdded: Outcome<()>, vault: Outcome<VaultPayload>, answerOutcome: Outcome<AIMessage>,
                        aiMessageAdded: Outcome<()>): Outcome<AIMessage> {
    if userMessageAdded.Err? then Err(userMessageAdded.failure)
    else if vault.Err? then (if answerOutcome.Err? then Err(answerOutcome.failure) else Err(NoneVaultError))
    else if vault.value.kind.Vector? then Err(VectorNotImplemented)
    else if answerOutcome.Err? then Err(answerOutcome.failure)
    else if aiMessageAdded.Err? then Err(aiMessageAdded.failure)
    else answerOutcome
  }

  /** An answer comes back only when every step succeeded and the vault is a graph vault; the
      answer is the backend's. */
  lemma LegacyAnswersOnlyGraphVaults(userMessageAdded: Outcome<()>, vault: Outcome<VaultPayload>,
                                     answerOutcome: Outcome<AIMessage>, aiMessageAdded: Outcome<()>)
    ensures var r := LegacyResult(userMessageAdded, vault, answerOutcome, aiMessageAdded);
      && (r.Ok? <==> userMessageAdded.Ok? && vault.Ok? && vault.value.kind.Graph? && answerOutcome.Ok? && aiMessageAdded.Ok?)
      && (r.Ok? ==> r == answerOutcome)
  {
  }

  /** The defect: when the vault cannot be fetched, the graph backend is asked and answers, and
      the answer is then lost: the request fails with an AttributeError and the AI message is
      never stored. The newer revision returns that answer. */
  lemma AbsentVaultLosesAnswer(credentials: GenerationCredentials, vault: Outcome<VaultPayload>,
                               history: Outcome<HistoryPayload>, answerOutcome: Outcome<AIMessage>, aiMessageAdded: Outcome<()>)
    requires vault.Err? && answerOutcome.Ok?
    ensures LegacyResult(Ok(()), vault, answerOutcome, aiMessageAdded) == Err(NoneVaultError)
    ensures var calls := LegacyCalls(credentials, Ok(()), vault, history, answerOutcome);
      && AnswerRequest(GraphAnswer, LegacyCredentials(credentials.query, vault, history)) in calls
      && forall k :: 0 <= k < |calls| ==> !calls[k].AddAiMessageRequest?
  {
    var calls := LegacyCalls(credentials, Ok(()), vault, history, answerOutcome);
    assert calls[3] == AnswerRequest(GraphAnswer, LegacyCredentials(credentials.query, vault, history));
  }

  method GenerateAnswer(session: Session, credentials: GenerationCredentials, userMessageAdded: Outcome<()>,
                        vaultFetched: Outcome<VaultPayload>, historyFetched: Outcome<HistoryPayload>,
                        answerOutcome: Outcome<AIMessage>, aiMessageAdded: Outcome<()>)
    returns (r: Outcome<AIMessage>)
    modifies session
    ensures session.chats == old(session.chats) && session.histories == old(session.histories)
    ensures session.log == old(session.log) + LegacyCalls(credentials, userMessageAdded, vaultFetched, historyFetched, answerOutcome)
    ensures r == LegacyResult(userMessageAdded, vaultFetched, answerOutcome, aiMessageAdded)
  {
    var userMessage := session.Issue(AddUserMessageRequest(credentials.chatId, credentials.query), userMessageAdded);
    if userMessage.Err? {
      return Err(userMessage.failure);
    }
    var vaultPayload := session.Issue(GetVaultRequest(credentials.vaultId), vaultFetched);
    var chatHistory := session.Issue(Call.GetHistoryRequest(credentials.chatId), historyFetched);
    ghost var fetched := old(session.log) + [AddUserMessageRequest(credentials.chatId, credentials.query),
      GetVaultRequest(credentials.vaultId), Call.GetHistoryRequest(credentials.chatId)];
    assert session.log == fetched;
    var vault: Option<VaultPayload> := if vaultPayload.Ok? then Some(vaultPayload.value) else None;
    var history: Option<HistoryPayload> := if chatHistory.Ok? then Some(chatHistory.value) else None;
    var sent := AnswerGenerationCredentials(if vault.Some? then Some(vault.value.id) else None, credentials.query,
                                            if history.Some? then history.value.history else []);

    var answer: Outcome<AIMessage> := Err(NoneVaultError);
    if vault.None? {
      answer := session.Issue(AnswerRequest(GraphAnswer, sent), answerOutcome);
      if answer.Err? {
        return Err(answer.failure);
      }
      // `vault_payload.type` on None
      return Err(NoneVaultError);
    }
    if vault.value.kind.Graph? {
      answer := session.Issue(AnswerRequest(GraphAnswer, sent), answerOutcome);
      if answer.Err? {
        return Err(answer.failure);
      }
    }
    if vault.value.kind.Vector? {
      return Err(VectorNotImplemented);
    }
    var aiMessage := session.Issue(AddAiMessageRequest(credentials.chatId, answer.value), aiMessageAdded);
    if aiMessage.Err? {
      return Err(aiMessage.failure);
    }
    r := answer;
  }
}
