/** Deleting every chat of a vault: one delete task per chat, joined until the first task that
    fails. The join is modelled as the tasks running one after another in list order; the first
    failure ends it, and the tasks after it are not run. */
module ChatFanOut {
  import opened Common
  import opened Schemas
  import opened Downstream
  import opened DeleteChatSaga
  import MessagingCache
  import MessagingService

  const FailedToDeleteChats: string := "Failed to delete chats, several chats have been not deleted. Vault not deleted too"

  /** The delete tasks built for a chat list: one for each chat, for its id, in list order. */
  method BuildDeleteTasks(chats: seq<ChatPayload>) returns (tasks: seq<Uuid>)
    ensures |tasks| == |chats|
    ensures forall i :: 0 <= i < |chats| ==> tasks[i] == chats[i].id
  {
    tasks := [];
    for i := 0 to |chats|
      invariant |tasks| == i
      invariant forall j :: 0 <= j < i ==> tasks[j] == chats[j].id
    {
      tasks := tasks + [chats[i].id];
    }
  }

  /** The ids of a chat list, in order. */
  function ChatIds(chats: seq<ChatPayload>): seq<Uuid> {
    seq(|chats|, i requires 0 <= i < |chats| => chats[i].id)
  }

  /** The downstream state the delete tasks change. */
  datatype Remote = Remote(log: seq<Call>, chats: set<Uuid>, histories: set<Uuid>)

  /** The downstream state after one chat-delete saga. */
  function AfterDeleteChat(w: Remote, chatId: Uuid, o: DeleteChatOutcomes): Remote {
    Remote(w.log + DeleteChatCalls(chatId, o),
           if DeleteChatResult(o).Ok? then w.chats - {chatId} else w.chats,
           HistoriesAfterDelete(w.histories, chatId, o))
  }

  /** The end of the join: the downstream state, and the failure of the task that ended it. */
  datatype Join = Join(remote: Remote, failure: Option<Failure>)

  /** Running the tasks from `ids[i]` on, where `outcomes(j)` are task j's outcomes. */
  function RunDeletes(w: Remote, ids: seq<Uuid>, outcomes: nat -> DeleteChatOutcomes, i: nat): Join
    decreases |ids| - i
  {
    if i >= |ids| then Join(w, None)
    else
      var next := AfterDeleteChat(w, ids[i], outcomes(i));
      var r := DeleteChatResult(outcomes(i));
      if r.Err? then Join(next, Some(r.failure))
      else RunDeletes(next, ids, outcomes, i + 1)
  }

  /** The store after the tasks from `ids[i]` on: each successful task drops the user's chat
      lists and its chat's entry; the failed task changes nothing. */
  function StoreAfterDeletes(data: map<string, CacheText>, userId: Uuid, ids: seq<Uuid>,
                             outcomes: nat -> DeleteChatOutcomes, i: nat): map<string, CacheText>
    decreases |ids| - i
  {
    if i >= |ids| || DeleteChatResult(outcomes(i)).Err? then data
    else StoreAfterDeletes(MessagingService.AfterDelete(data, ids[i], userId), userId, ids, outcomes, i + 1)
  }

  /** Runs the delete tasks through the messaging service until the first one fails, and
      answers that failure, if any. */
  method RunDeleteTasks(session: Session, messaging: MessagingService.MessagingService, userId: Uuid,
                        tasks: seq<Uuid>, outcomes: nat -> DeleteChatOutcomes) returns (failure: Option<Failure>)
    modifies messaging.cache.store, session
    ensures var join := RunDeletes(Remote(old(session.log), old(session.chats), old(session.histories)), tasks, outcomes, 0);
      && Remote(session.log, session.chats, session.histories) == join.remote
      && failure == join.failure
    ensures messaging.cache.store.data == StoreAfterDeletes(old(messaging.cache.store.data), userId, tasks, outcomes, 0)
  {
    ghost var start := Remote(session.log, session.chats, session.histories);
    ghost var startData := messaging.cache.store.data;
    var i := 0;
    failure := None;
    while i < |tasks| && failure.None?
      invariant 0 <= i <= |tasks|
      invariant failure.None? ==>
        RunDeletes(start, tasks, outcomes, 0) == RunDeletes(Remote(session.log, session.chats, session.histories), tasks, outcomes, i)
      invariant failure.None? ==>
        StoreAfterDeletes(startData, userId, tasks, outcomes, 0) == StoreAfterDeletes(messaging.cache.store.data, userId, tasks, outcomes, i)
      invariant failure.Some? ==>
        RunDeletes(start, tasks, outcomes, 0) == Join(Remote(session.log, session.chats, session.histories), failure)
      invariant failure.Some? ==> StoreAfterDeletes(startData, userId, tasks, outcomes, 0) == messaging.cache.store.data
      decreases |tasks| - i
    {
      var deleted := messaging.DeleteChat(session, userId, tasks[i], outcomes(i));
      if deleted.Err? {
        failure := Some(deleted.failure);
      }
      i := i + 1;
    }
  }

  /** The join fails exactly when some task fails. */
  lemma {:induction false} JoinFailsIffSomeTaskFails(w: Remote, ids: seq<Uuid>, outcomes: nat -> DeleteChatOutcomes, i: nat)
    ensures RunDeletes(w, ids, outcomes, i).failure.None? <==>
      forall j :: i <= j < |ids| ==> DeleteChatResult(outcomes(j)).Ok?
    decreases |ids| - i
  {
    if i < |ids| && DeleteChatResult(outcomes(i)).Ok? {
      JoinFailsIffSomeTaskFails(AfterDeleteChat(w, ids[i], outcomes(i)), ids, outcomes, i + 1);
    }
  }

  /** The failure the join reports is that of the first failing task. */
  lemma {:induction false} JoinReportsFirstFailure(w: Remote, ids: seq<Uuid>, outcomes: nat -> DeleteChatOutcomes, i: nat)
    ensures RunDeletes(w, ids, outcomes, i).failure.Some? ==>
      exists k :: i <= k < |ids| && (forall j :: i <= j < k ==> DeleteChatResult(outcomes(j)).Ok?)
        && DeleteChatResult(outcomes(k)).Err?
        && RunDeletes(w, ids, outcomes, i).failure == Some(DeleteChatResult(outcomes(k)).failure)
    decreases |ids| - i
  {
    if i < |ids| {
      if DeleteChatResult(outcomes(i)).Ok? {
        JoinReportsFirstFailure(AfterDeleteChat(w, ids[i], outcomes(i)), ids, outcomes, i + 1);
        if RunDeletes(w, ids, outcomes, i).failure.Some? {
          var k :| i + 1 <= k < |ids| && (forall j :: i + 1 <= j < k ==> DeleteChatResult(outcomes(j)).Ok?)
            && DeleteChatResult(outcomes(k)).Err?
            && RunDeletes(w, ids, outcomes, i).failure == Some(DeleteChatResult(outcomes(k)).failure);
          assert forall j :: i <= j < k ==> DeleteChatResult(outcomes(j)).Ok?;
        }
      }
    }
  }

  /** The join only appends to the log, never asks for a vault delete, and never creates a chat. */
  lemma {:induction false} JoinNeverDeletesVault(w: Remote, ids: seq<Uuid>, outcomes: nat -> DeleteChatOutcomes, i: nat)
    ensures var end := RunDeletes(w, ids, outcomes, i).remote;
      && w.log <= end.log
      && (forall k :: |w.log| <= k < |end.log| ==> !end.log[k].DeleteVaultRequest?)
      && end.chats <= w.chats
    decreases |ids| - i
  {
    if i < |ids| {
      var next := AfterDeleteChat(w, ids[i], outcomes(i));
      assert forall k :: |w.log| <= k < |next.log| ==> next.log[k] in DeleteChatCalls(ids[i], outcomes(i));
      if DeleteChatResult(outcomes(i)).Ok? {
        JoinNeverDeletesVault(next, ids, outcomes, i + 1);
      }
    }
  }

  /** A successful saga deletes the chat and its history and issues exactly the two deletes. */
  lemma SuccessfulDelete(w: Remote, chatId: Uuid, o: DeleteChatOutcomes)
    requires DeleteChatResult(o).Ok?
    ensures AfterDeleteChat(w, chatId, o)
      == Remote(w.log + [DeleteHistoryRequest(chatId), DeleteChatRequest(chatId)], w.chats - {chatId}, w.histories - {chatId})
  {
  }

  /** The ids of `ids[i..]`, as a set. */
  function IdsFrom(ids: seq<Uuid>, i: nat): set<Uuid>
    decreases |ids| - i
  {
    if i >= |ids| then {} else {ids[i]} + IdsFrom(ids, i + 1)
  }

  lemma {:induction false} InIdsFrom(ids: seq<Uuid>, i: nat, j: nat)
    requires i <= j < |ids|
    ensures ids[j] in IdsFrom(ids, i)
    decreases j - i
  {
    if i < j {
      InIdsFrom(ids, i + 1, j);
    }
  }

  /** When every task succeeds, every chat and every history of the list is gone, and the log
      holds exactly a history delete and a chat delete per chat, with no compensation. */
  lemma {:induction false} JoinAllSucceed(w: Remote, ids: seq<Uuid>, outcomes: nat -> DeleteChatOutcomes, i: nat)
    requires i <= |ids|
    requires forall j :: i <= j < |ids| ==> DeleteChatResult(outcomes(j)).Ok?
    ensures var end := RunDeletes(w, ids, outcomes, i);
      && end.failure.None?
      && end.remote.chats == w.chats - IdsFrom(ids, i)
      && end.remote.histories == w.histories - IdsFrom(ids, i)
      && end.remote.log == w.log + DeletePairs(ids, i)
    decreases |ids| - i
  {
    if i < |ids| {
      var next := AfterDeleteChat(w, ids[i], outcomes(i));
      SuccessfulDelete(w, ids[i], outcomes(i));
      assert RunDeletes(w, ids, outcomes, i) == RunDeletes(next, ids, outcomes, i + 1);
      JoinAllSucceed(next, ids, outcomes, i + 1);
      assert w.chats - {ids[i]} - IdsFrom(ids, i + 1) == w.chats - IdsFrom(ids, i);
      assert w.histories - {ids[i]} - IdsFrom(ids, i + 1) == w.histories - IdsFrom(ids, i);
      assert w.log + [DeleteHistoryRequest(ids[i]), DeleteChatRequest(ids[i])] + DeletePairs(ids, i + 1)
        == w.log + DeletePairs(ids, i);
    }
  }

  /** A history delete followed by a chat delete for each of `ids[i..]`, in order. */
  function DeletePairs(ids: seq<Uuid>, i: nat): seq<Call>
    decreases |ids| - i
  {
    if i >= |ids| then [] else [DeleteHistoryRequest(ids[i]), DeleteChatRequest(ids[i])] + DeletePairs(ids, i + 1)
  }

  /** Every entry of `a` is an entry of `b` with the same value: `a` is `b` with some entries
      removed. */
  predicate Within(a: map<string, CacheText>, b: map<string, CacheText>) {
    forall k :: k in a ==> k in b && a[k] == b[k]
  }

  /** Removing entries keeps a chat or a chat list absent. */
  lemma AbsentStaysAbsent(a: map<string, CacheText>, b: map<string, CacheText>, chatId: Uuid, id: Uuid, f: bool)
    requires Within(a, b)
    ensures MessagingCache.ReadChat(b, chatId) == None ==> MessagingCache.ReadChat(a, chatId) == None
    ensures MessagingCache.ReadChats(b, id, f) == None ==> MessagingCache.ReadChats(a, id, f) == None
  {
    var ck, lk := MessagingCache.ChatKey(chatId), MessagingCache.ChatsKey(id, f);
    assert ck in a ==> ck in b && a[ck] == b[ck];
    assert lk in a ==> lk in b && a[lk] == b[lk];
  }

  /** The tasks only delete cache entries: the store after them is the store before with some
      entries removed. */
  lemma {:induction false} StoreAfterDeletesWithin(data: map<string, CacheText>, userId: Uuid, ids: seq<Uuid>,
                                                  outcomes: nat -> DeleteChatOutcomes, i: nat)
    ensures Within(StoreAfterDeletes(data, userId, ids, outcomes, i), data)
    decreases |ids| - i
  {
    if i < |ids| && DeleteChatResult(outcomes(i)).Ok? {
      var next := MessagingService.AfterDelete(data, ids[i], userId);
      assert Within(next, data);
      StoreAfterDeletesWithin(next, userId, ids, outcomes, i + 1);
    }
  }

  /** The store after the tasks from `ids[i]` on, when task i succeeds, is within the store
      after task i's own cache drops. */
  lemma AfterFirstDelete(data: map<string, CacheText>, userId: Uuid, ids: seq<Uuid>,
                         outcomes: nat -> DeleteChatOutcomes, i: nat, f: bool)
    requires i < |ids| && DeleteChatResult(outcomes(i)).Ok?
    ensures var end := StoreAfterDeletes(data, userId, ids, outcomes, i);
      && MessagingCache.ReadChat(end, ids[i]) == None
      && MessagingCache.ReadChats(end, userId, f) == None
  {
    var next := MessagingService.AfterDelete(data, ids[i], userId);
    assert StoreAfterDeletes(data, userId, ids, outcomes, i) == StoreAfterDeletes(next, userId, ids, outcomes, i + 1);
    MessagingService.ChangedChatIsNotCached(data, ids[i], userId, f);
    StoreAfterDeletesWithin(next, userId, ids, outcomes, i + 1);
    AbsentStaysAbsent(StoreAfterDeletes(next, userId, ids, outcomes, i + 1), next, ids[i], userId, f);
  }

  /** When every task succeeds, no deleted chat and neither of the user's chat lists is read
      from the cache afterwards. */
  lemma {:induction false} StoreAfterDeletesDropsChats(data: map<string, CacheText>, userId: Uuid, ids: seq<Uuid>,
                                                      outcomes: nat -> DeleteChatOutcomes, i: nat, f: bool)
    requires forall j :: i <= j < |ids| ==> DeleteChatResult(outcomes(j)).Ok?
    ensures var end := StoreAfterDeletes(data, userId, ids, outcomes, i);
      && (forall j :: i <= j < |ids| ==> MessagingCache.ReadChat(end, ids[j]) == None)
      && (i < |ids| ==> MessagingCache.ReadChats(end, userId, f) == None)
    decreases |ids| - i
  {
    if i < |ids| {
      AfterFirstDelete(data, userId, ids, outcomes, i, f);
      var next := MessagingService.AfterDelete(data, ids[i], userId);
      assert StoreAfterDeletes(data, userId, ids, outcomes, i) == StoreAfterDeletes(next, userId, ids, outcomes, i + 1);
      StoreAfterDeletesDropsChats(next, userId, ids, outcomes, i + 1, f);
    }
  }
}
