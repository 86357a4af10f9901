/** The chat-creation saga: create the chat record, then its history record; if the history
    cannot be created, delete the chat again. */
module CreateChatSaga {
  import opened Common
  import opened Schemas
  import opened Downstream

  const FailedToCreateChat: string := "Failed to create chat"
  const FailedToCreateHistory: string := "Failed to create history, for this reason chat was deleted"

  /** The requests the saga issues, in order, given the outcomes of its first two steps. */
  function CreateChatCalls(request: CreateChat, created: Outcome<ChatPayload>, historyCreated: Outcome<()>): seq<Call> {
    if created.Err? then [CreateChatRequest(request)]
    else if historyCreated.Ok? then [CreateChatRequest(request), CreateHistoryRequest(created.value.id)]
    else [CreateChatRequest(request), CreateHistoryRequest(created.value.id), DeleteChatRequest(created.value.id)]
  }

  /** What the saga returns or raises. The rollback delete is not guarded: when it fails, its
      own exception escapes instead of the history failure. */
  function CreateChatResult(created: Outcome<ChatPayload>, historyCreated: Outcome<()>, rollback: Outcome<()>): Outcome<ChatPayload> {
    if created.Err? then Err(PassThroughOr503(created.failure, FailedToCreateChat))
    else if historyCreated.Ok? then created
    else if rollback.Err? then Err(rollback.failure)
    else Err(PassThroughOr503(historyCreated.failure, FailedToCreateHistory))
  }

  /** The order of the saga, the id it passes on, and the errors it raises. */
  lemma CreateChatSagaSteps(request: CreateChat, created: Outcome<ChatPayload>, historyCreated: Outcome<()>, rollback: Outcome<()>)
    ensures var calls := CreateChatCalls(request, created, historyCreated);
      && calls[0] == CreateChatRequest(request)
      && (forall i :: 1 <= i < |calls| ==> created.Ok? && calls[i].chatId == created.value.id)
      && (created.Err? ==> |calls| == 1)
      && (created.Ok? ==> calls[1] == CreateHistoryRequest(created.value.id))
      && (created.Ok? ==> (historyCreated.Err? <==> DeleteChatRequest(created.value.id) in calls))
    ensures var r := CreateChatResult(created, historyCreated, rollback);
      && (r.Ok? <==> created.Ok? && historyCreated.Ok?)
      && (r.Ok? ==> r == created)
      && (created.Err? ==> r.failure.HttpException?)
      && (created.Err? && created.failure.HttpException? ==> r.failure == created.failure)
      && (created.Err? && created.failure.OtherException? ==>
            r.failure == HttpException(HTTP_503_SERVICE_UNAVAILABLE, FailedToCreateChat))
      && (created.Ok? && historyCreated.Err? && rollback.Ok? && historyCreated.failure.HttpException? ==>
            r.failure == historyCreated.failure)
      && (created.Ok? && historyCreated.Err? && rollback.Ok? && historyCreated.failure.OtherException? ==>
            r.failure == HttpException(HTTP_503_SERVICE_UNAVAILABLE, FailedToCreateHistory))
  {
  }

  method CreateChat(session: Session, request: CreateChat, created: Outcome<ChatPayload>,
                    historyCreated: Outcome<()>, rollback: Outcome<()>) returns (r: Outcome<ChatPayload>)
    modifies session
    ensures session.log == old(session.log) + CreateChatCalls(request, created, historyCreated)
    ensures r == CreateChatResult(created, historyCreated, rollback)
    ensures session.histories ==
      if created.Ok? && historyCreated.Ok? then old(session.histories) + {created.value.id} else old(session.histories)
    ensures session.chats ==
      if created.Err? then old(session.chats)
      else if historyCreated.Ok? || rollback.Err? then old(session.chats) + {created.value.id}
      else old(session.chats) + {created.value.id} - {created.value.id}
    // When the chat service hands out a fresh id and the rollback (if needed) succeeds, chats
    // and histories stay paired.
    ensures old(session.Paired()) && (created.Ok? ==> created.value.id !in old(session.chats))
            && (created.Ok? && historyCreated.Err? ==> rollback.Ok?)
            ==> session.Paired()
  {
    var chat := session.CreateChat(request, created);
    if chat.Err? {
      return Err(PassThroughOr503(chat.failure, FailedToCreateChat));
    }
    var chatId := chat.value.id;
    var history := session.CreateHistory(chatId, historyCreated);
    if history.Err? {
      var undo := session.DeleteChat(chatId, rollback);
      if undo.Err? {
        return Err(undo.failure);
      }
      return Err(PassThroughOr503(history.failure, FailedToCreateHistory));
    }
    r := chat;
  }
}
