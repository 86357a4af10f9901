/** The earlier revision of vault deletion: the chats are listed straight from the chat
    service, each is deleted by the chat-delete saga, and the vault itself is deleted only in
    the branch where the vault has no chats. */
module LegacyDeleteVault {
  import opened Common
  import opened Schemas
  import opened Downstream
  import opened ChatFanOut
  import DeleteChatSaga
  import VaultsService

  /** The defect shown on the join alone: when the vault has chats and every chat delete
      succeeds, all of them are gone and the join succeeds, so the method reports success, and
      yet no vault delete was requested. */
  lemma {:induction false} AllChatsDeletedVaultKept(w: Remote, chats: seq<ChatPayload>,
                                                   outcomes: nat -> DeleteChatSaga.DeleteChatOutcomes)
    requires chats != []
    requires forall j :: 0 <= j < |chats| ==> DeleteChatSaga.DeleteChatResult(outcomes(j)).Ok?
    ensures var join := RunDeletes(w, ChatIds(chats), outcomes, 0);
      && join.failure.None?
      && (forall j :: 0 <= j < |chats| ==> chats[j].id !in join.remote.chats)
      && !VaultsService.VaultDeleteRequested(join.remote.log, |w.log|)
  {
    var ids := ChatIds(chats);
    JoinFailsIffSomeTaskFails(w, ids, outcomes, 0);
    JoinAllSucceed(w, ids, outcomes, 0);
    JoinNeverDeletesVault(w, ids, outcomes, 0);
    var join := RunDeletes(w, ids, outcomes, 0);
    forall j | 0 <= j < |chats|
      ensures chats[j].id !in join.remote.chats
    {
      assert ids[j] == chats[j].id;
      InIdsFrom(ids, 0, j);
    }
  }

  method DeleteVaultAndChats(session: Session, vaultId: Uuid, chatsFetched: Outcome<seq<ChatPayload>>,
                             outcomes: nat -> DeleteChatSaga.DeleteChatOutcomes, vaultDeleted: Outcome<()>)
    returns (r: Outcome<()>)
    modifies session
    ensures chatsFetched.Err? ==>
      && r == Err(chatsFetched.failure)
      && Remote(session.log, session.chats, session.histories)
         == Remote(old(session.log) + [GetVaultChatsRequest(vaultId)], old(session.chats), old(session.histories))
    ensures chatsFetched.Ok? && chatsFetched.value == [] ==>
      && r == vaultDeleted
      && Remote(session.log, session.chats, session.histories)
         == Remote(old(session.log) + [GetVaultChatsRequest(vaultId), DeleteVaultRequest(vaultId)], old(session.chats), old(session.histories))
    ensures chatsFetched.Ok? && chatsFetched.value != [] ==>
      var join := RunDeletes(Remote(old(session.log) + [GetVaultChatsRequest(vaultId)], old(session.chats), old(session.histories)),
                             ChatIds(chatsFetched.value), outcomes, 0);
      && Remote(session.log, session.chats, session.histories) == join.remote
      && r == if join.failure.None? then Ok(())
              else if join.failure.value.HttpException? then Err(HttpException(HTTP_500_INTERNAL_SERVER_ERROR, FailedToDeleteChats))
              else Err(join.failure.value)
    // The defect: a vault with at least one chat is never deleted, even when every chat is.
    ensures chatsFetched.Ok? && chatsFetched.value != [] ==> !VaultsService.VaultDeleteRequested(session.log, |old(session.log)|)
  {
    var listed := session.Issue(GetVaultChatsRequest(vaultId), chatsFetched);
    if listed.Err? {
      return Err(listed.failure);
    }
    var tasks := BuildDeleteTasks(listed.value);
    assert tasks == ChatIds(listed.value);
    ghost var start := Remote(session.log, session.chats, session.histories);
    JoinNeverDeletesVault(start, tasks, outcomes, 0);
    if |tasks| > 0 {
      var i := 0;
      var failure: Option<Failure> := None;
      while i < |tasks| && failure.None?
        invariant 0 <= i <= |tasks|
        invariant failure.None? ==>
          RunDeletes(start, tasks, outcomes, 0) == RunDeletes(Remote(session.log, session.chats, session.histories), tasks, outcomes, i)
        invariant failure.Some? ==>
          RunDeletes(start, tasks, outcomes, 0) == Join(Remote(session.log, session.chats, session.histories), failure)
        decreases |tasks| - i
      {
        var deleted := DeleteChatSaga.DeleteChat(session, tasks[i], outcomes(i));
        if deleted.Err? {
          failure := Some(deleted.failure);
        }
        i := i + 1;
      }
      if failure.Some? {
        if failure.value.HttpException? {
          return Err(HttpException(HTTP_500_INTERNAL_SERVER_ERROR, FailedToDeleteChats));
        }
        return Err(failure.value);
      }
      r := Ok(());
    } else {
      r := session.Issue(DeleteVaultRequest(vaultId), vaultDeleted);
    }
  }
}
