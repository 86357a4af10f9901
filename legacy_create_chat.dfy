/** The earlier revision of the chat-creation saga: the same steps, but every failure is
    re-raised as it is instead of being mapped to an HTTP error. */
module LegacyCreateChat {
  import opened Common
  import opened Schemas
  import opened Downstream
  import CreateChatSaga

  function LegacyCreateChatResult(created: Outcome<ChatPayload>, historyCreated: Outcome<()>, rollback: Outcome<()>): Outcome<ChatPayload> {
    if created.Err? then created
    else if historyCreated.Ok? then created
    else if rollback.Err? then Err(rollback.failure)
    else Err(historyCreated.failure)
  }

  /** The two revisions issue the same requests and agree on success and on failure; they
      differ only in the exception raised, and only where the later one maps a non-HTTP error
      to a 503. */
  lemma RevisionsAgree(created: Outcome<ChatPayload>, historyCreated: Outcome<()>, rollback: Outcome<()>)
    ensures var legacy := LegacyCreateChatResult(created, historyCreated, rollback);
      var current := CreateChatSaga.CreateChatResult(created, historyCreated, rollback);
      && (legacy.Ok? <==> current.Ok?)
      && (legacy.Ok? ==> legacy == current)
      && (legacy.Err? && legacy.failure.HttpException? ==> legacy == current)
      && (legacy.Err? && legacy != current ==>
            legacy.failure.OtherException? && current.failure.status == HTTP_503_SERVICE_UNAVAILABLE)
  {
  }

  method CreateChat(session: Session, request: CreateChat, created: Outcome<ChatPayload>,
                    historyCreated: Outcome<()>, rollback: Outcome<()>) returns (r: Outcome<ChatPayload>)
    modifies session
    ensures session.log == old(session.log) + CreateChatSaga.CreateChatCalls(request, created, historyCreated)
    ensures r == LegacyCreateChatResult(created, historyCreated, rollback)
    ensures session.histories ==
      if created.Ok? && historyCreated.Ok? then old(session.histories) + {created.value.id} else old(session.histories)
    ensures session.chats ==
      if created.Err? then old(session.chats)
      else if historyCreated.Ok? || rollback.Err? then old(session.chats) + {created.value.id}
      else old(session.chats) + {created.value.id} - {created.value.id}
  {
    var chat := session.CreateChat(request, created);
    if chat.Err? {
      return chat;
    }
    var chatId := chat.value.id;
    var history := session.CreateHistory(chatId, historyCreated);
    if history.Err? {
      var undo := session.DeleteChat(chatId, rollback);
      if undo.Err? {
        return Err(undo.failure);
      }
      return Err(history.failure);
    }
    r := chat;
  }
}
