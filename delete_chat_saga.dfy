/** The chat-deletion saga: delete the chat's history, then the chat; if the chat cannot be
    deleted, create an (empty) history for it again. */
module DeleteChatSaga {
  import opened Common
  import opened Schemas
  import opened Downstream

  const FailedToDeleteHistory: string := "Failed to delete chat history"
  const FailedToDeleteChat: string := "Failed to delete chat, for this reason chat history restored"

  /** The outcomes of the saga's three possible requests: the history delete, the chat delete
      and the compensating history create. */
  datatype DeleteChatOutcomes = DeleteChatOutcomes(historyDeleted: Outcome<()>, chatDeleted: Outcome<()>, restored: Outcome<()>)

  /** The requests the saga issues, in order. */
  function DeleteChatCalls(chatId: Uuid, o: DeleteChatOutcomes): seq<Call> {
    if o.historyDeleted.Err? then [DeleteHistoryRequest(chatId)]
    else if o.chatDeleted.Ok? then [DeleteHistoryRequest(chatId), DeleteChatRequest(chatId)]
    else [DeleteHistoryRequest(chatId), DeleteChatRequest(chatId), CreateHistoryRequest(chatId)]
  }

  /** What the saga returns or raises. The compensation is not guarded: when it fails, its own
      exception escapes instead of the chat-delete failure. */
  function DeleteChatResult(o: DeleteChatOutcomes): Outcome<()> {
    if o.historyDeleted.Err? then Err(PassThroughOr503(o.historyDeleted.failure, FailedToDeleteHistory))
    else if o.chatDeleted.Ok? then Ok(())
    else if o.restored.Err? then Err(o.restored.failure)
    else Err(PassThroughOr503(o.chatDeleted.failure, FailedToDeleteChat))
  }

  /** The history records after the saga: the history is gone once its delete succeeded,
      unless the chat delete then failed and the history was created again. */
  function HistoriesAfterDelete(histories: set<Uuid>, chatId: Uuid, o: DeleteChatOutcomes): set<Uuid> {
    if o.historyDeleted.Err? then histories
    else if o.chatDeleted.Err? && o.restored.Ok? then histories - {chatId} + {chatId}
    else histories - {chatId}
  }

  /** The order of the saga and the errors it raises. */
  lemma DeleteChatSagaSteps(chatId: Uuid, o: DeleteChatOutcomes)
    ensures var calls := DeleteChatCalls(chatId, o);
      && calls[0] == DeleteHistoryRequest(chatId)
      && (forall i :: 0 <= i < |calls| ==> calls[i].chatId == chatId)
      && (DeleteChatRequest(chatId) in calls <==> o.historyDeleted.Ok?)
      && (CreateHistoryRequest(chatId) in calls <==> o.historyDeleted.Ok? && o.chatDeleted.Err?)
    ensures var r := DeleteChatResult(o);
      && (r.Ok? <==> o.historyDeleted.Ok? && o.chatDeleted.Ok?)
      && (o.historyDeleted.Err? ==> r.failure.HttpException?)
      && (o.historyDeleted.Err? && o.historyDeleted.failure.HttpException? ==> r == Err(o.historyDeleted.failure))
      && (o.historyDeleted.Err? && o.historyDeleted.failure.OtherException? ==>
            r.failure == HttpException(HTTP_503_SERVICE_UNAVAILABLE, FailedToDeleteHistory))
      && (o.historyDeleted.Ok? && o.chatDeleted.Err? && o.restored.Err? ==> r == Err(o.restored.failure))
      && (o.historyDeleted.Ok? && o.chatDeleted.Err? && o.restored.Ok? ==> r.failure.HttpException?)
      && (o.historyDeleted.Ok? && o.chatDeleted.Err? && o.restored.Ok? && o.chatDeleted.failure.HttpException? ==>
            r.failure == o.chatDeleted.failure)
      && (o.historyDeleted.Ok? && o.chatDeleted.Err? && o.restored.Ok? && o.chatDeleted.failure.OtherException? ==>
            r.failure == HttpException(HTTP_503_SERVICE_UNAVAILABLE, FailedToDeleteChat))
  {
  }

  method DeleteChat(session: Session, chatId: Uuid, o: DeleteChatOutcomes) returns (r: Outcome<()>)
    modifies session
    ensures session.log == old(session.log) + DeleteChatCalls(chatId, o)
    ensures r == DeleteChatResult(o)
    ensures session.chats == if r.Ok? then old(session.chats) - {chatId} else old(session.chats)
    ensures session.histories == HistoriesAfterDelete(old(session.histories), chatId, o)
    // A chat that has a history keeps its pairing unless the compensation itself fails.
    ensures old(session.Paired()) && chatId in old(session.histories)
            && (o.historyDeleted.Ok? && o.chatDeleted.Err? ==> o.restored.Ok?)
            ==> session.Paired()
  {
    var history := session.DeleteHistory(chatId, o.historyDeleted);
    if history.Err? {
      return Err(PassThroughOr503(history.failure, FailedToDeleteHistory));
    }
    var chat := session.DeleteChat(chatId, o.chatDeleted);
    if chat.Err? {
      var redo := session.CreateHistory(chatId, o.restored);
      if redo.Err? {
        return Err(redo.failure);
      }
      return Err(PassThroughOr503(chat.failure, FailedToDeleteChat));
    }
    r := Ok(());
  }
}
