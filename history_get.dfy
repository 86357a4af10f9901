/** The history-service read: the status check on the reply and the role-based decoding of its
    history list. */
module HistoryGet {
  import opened Common
  import opened Schemas
  import opened Downstream

  /** One element of the reply's "history" list. `traceback` is the entry's traceback field,
      ignored for user entries. */
  datatype RawEntry = RawEntry(role: string, content: string, traceback: Traceback)

  /** The decoded JSON reply: its status, its "detail" field and its "history" list. */
  datatype HistoryReply = HistoryReply(status: int, detail: string, history: seq<RawEntry>)

  /** An entry whose role is "user" becomes a user message; every other role becomes an AI
      message. Both keep the entry's content and role. */
  function DecodeEntry(e: RawEntry): (m: Message)
    ensures m.UserMessageResponse? <==> e.role == "user"
    ensures m.content == e.content && m.role == e.role
    ensures m.AIMessageResponse? ==> m.traceback == e.traceback
  {
    if e.role == "user" then UserMessageResponse(e.content, e.role)
    else AIMessageResponse(e.content, e.role, e.traceback)
  }

  /** The decoding loop: one message per entry, in the same order. */
  method DecodeHistory(entries: seq<RawEntry>) returns (processed: seq<Message>)
    ensures |processed| == |entries|
    ensures forall i :: 0 <= i < |entries| ==> processed[i] == DecodeEntry(entries[i])
  {
    processed := [];
    for i := 0 to |entries|
      invariant |processed| == i
      invariant forall j :: 0 <= j < i ==> processed[j] == DecodeEntry(entries[j])
    {
      processed := processed + [DecodeEntry(entries[i])];
    }
  }

  /** What the request yields for `reply`, the decoded reply or the exception raised while
      sending the request or decoding its body (which escapes unchanged). */
  function ReadHistory(reply: Outcome<HistoryReply>): (r: Outcome<HistoryPayload>)
    ensures reply.Err? ==> r == Err(reply.failure)
    ensures reply.Ok? ==> (r.Err? <==> reply.value.status >= 400)
    ensures reply.Ok? && r.Err? ==> r.failure == HttpException(reply.value.status, reply.value.detail)
    ensures r.Ok? ==> |r.value.history| == |reply.value.history|
    ensures r.Ok? ==> forall i :: 0 <= i < |r.value.history| ==>
      r.value.history[i] == DecodeEntry(reply.value.history[i])
  {
    if reply.Err? then Err(reply.failure)
    else if reply.value.status >= 400 then Err(HttpException(reply.value.status, reply.value.detail))
    else
      var entries := reply.value.history;
      Ok(HistoryPayload(seq(|entries|, i requires 0 <= i < |entries| => DecodeEntry(entries[i]))))
  }

  method GetHistoryRequest(session: Session, chatId: Uuid, reply: Outcome<HistoryReply>)
    returns (r: Outcome<HistoryPayload>)
    modifies session
    ensures session.log == old(session.log) + [Call.GetHistoryRequest(chatId)]
    ensures session.chats == old(session.chats) && session.histories == old(session.histories)
    ensures r == ReadHistory(reply)
  {
    var result := session.Issue(Call.GetHistoryRequest(chatId), reply);
    if result.Err? {
      return Err(result.failure);
    }
    if result.value.status >= 400 {
      return Err(HttpException(result.value.status, result.value.detail));
    }
    var processed := DecodeHistory(result.value.history);
    assert processed == ReadHistory(reply).value.history;
    r := Ok(HistoryPayload(processed));
  }
}
