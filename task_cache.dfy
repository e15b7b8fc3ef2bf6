/** The shared query cache as the task mutations use it: one cached list per
    `["tasks", user?.id]` key, and the set of those keys that have been
    invalidated. Each mutation runs `onMutate` (snapshot, then apply the
    optimistic updater), then its mutation function, then `onError` on
    failure (restore that mutation's own snapshot) and `onSettled` in every
    case (invalidate every `["tasks", …]` query). Every `setQueryData`
    write makes the written key fresh again. */
module TaskCache {
  import opened Wrappers
  import opened Tasks
  import opened TaskUpdaters

  /** The second part of the key `["tasks", user?.id]`; `None` is `undefined`. */
  type Scope = Option<UserId>

  /** What `onMutate` hands to `onError`: either it threw before returning
      (the library then passes an undefined context), or it returned
      `{ previousTasks }`, where `previousTasks` is undefined when the key
      held no list. */
  datatype MutateContext = Threw | Returned(previousTasks: Option<seq<Task>>)

  /** The error `onMutate` throws when an updater dereferences a missing list
      or the create reads `user.id` with no user. */
  const OnMutateTypeError: Error := Error("TypeError")

  /** What the backend answers to a request, supplied from outside. */
  datatype Answer = Ok | Rejected(error: Error)

  /** The outcome of one mutation as its caller sees it. */
  datatype Outcome = Settled | Failed(error: Error)

  class QueryCache {
    var lists: map<Scope, seq<Task>>
    var stale: set<Scope>

    /** Only cached lists can be stale, and no list is ever cached under
        the undefined id: the read is disabled without a user id, and every
        write under that key throws before it happens. */
    ghost predicate Valid()
      reads this
    {
      stale <= lists.Keys && None !in lists
    }

    constructor ()
      ensures Valid() && lists == map[] && stale == {}
    {
      lists := map[];
      stale := {};
    }

    /** `getQueryData(["tasks", user?.id])`. */
    function Cached(user: Scope): (r: Option<seq<Task>>)
      reads this
      ensures r.Some? <==> user in lists
      ensures r.Some? ==> r.value == lists[user]
    {
      if user in lists then Some(lists[user]) else None
    }

    /** The list `useTasks` shows for the user: `data: tasks = []`. */
    function Tasks(user: Scope): (r: seq<Task>)
      reads this
      ensures user in lists ==> r == lists[user]
      ensures user !in lists ==> r == []
    {
      VisibleTasks(Cached(user))
    }

    /** `onMutate` of the update: snapshot, then merge the patch into the
        matching tasks. With no cached list, `old.map` throws. */
    method BeginUpdate(user: Scope, taskId: TaskId, p: Patch) returns (ctx: MutateContext)
      requires Valid()
      modifies this
      ensures Valid()
      ensures user !in old(lists) ==> ctx == Threw && lists == old(lists) && stale == old(stale)
      ensures user in old(lists) ==>
                ctx == Returned(Some(old(lists)[user]))
                && lists == old(lists)[user := UpdateTasks(old(lists)[user], taskId, p)]
                && stale == old(stale) - {user}
    {
      if user in lists {
        ctx := Returned(Some(lists[user]));
        lists := lists[user := UpdateTasks(lists[user], taskId, p)];
        stale := stale - {user};
      } else {
        ctx := Threw;
      }
    }

    /** `onMutate` of the delete: snapshot, then filter the id out. With no
        cached list, `old.filter` throws. */
    method BeginDelete(user: Scope, taskId: TaskId) returns (ctx: MutateContext)
      requires Valid()
      modifies this
      ensures Valid()
      ensures user !in old(lists) ==> ctx == Threw && lists == old(lists) && stale == old(stale)
      ensures user in old(lists) ==>
                ctx == Returned(Some(old(lists)[user]))
                && lists == old(lists)[user := RemoveTask(old(lists)[user], taskId)]
                && stale == old(stale) - {user}
    {
      if user in lists {
        ctx := Returned(Some(lists[user]));
        lists := lists[user := RemoveTask(lists[user], taskId)];
        stale := stale - {user};
      } else {
        ctx := Threw;
      }
    }

    /** `onMutate` of the create: snapshot, then append a provisional task
        owned by the user. With no user object, `user.id` throws. */
    method BeginCreate(user: Scope, input: TaskInput, stamp: string, created: Millis, updated: Millis)
      returns (ctx: MutateContext)
      requires Valid()
      modifies this
      ensures Valid()
      ensures user.None? ==> ctx == Threw && lists == old(lists) && stale == old(stale)
      ensures user.Some? ==>
                ctx == Returned(if user in old(lists) then Some(old(lists)[user]) else None)
                && lists == old(lists)[user := AppendTask(ctx.previousTasks,
                                                          TempTask(input, user.value, stamp, created, updated))]
                && stale == old(stale) - {user}
    {
      if user.None? {
        ctx := Threw;
      } else {
        var previous := Cached(user);
        ctx := Returned(previous);
        lists := lists[user := AppendTask(previous, TempTask(input, user.value, stamp, created, updated))];
        stale := stale - {user};
      }
    }

    /** `onError`: put back this mutation's own snapshot when there is one
        (an empty list counts, since every array is truthy); later
        optimistic edits under the key are discarded, not merged. The
        context comes from this user's `onMutate`, which returns a snapshot
        only for a key that held a list, so never for the undefined id. */
    method Fail(user: Scope, ctx: MutateContext)
      requires Valid()
      requires ctx.Returned? && ctx.previousTasks.Some? ==> user.Some?
      modifies this
      ensures Valid()
      ensures ctx.Returned? && ctx.previousTasks.Some? ==>
                lists == old(lists)[user := ctx.previousTasks.value]
                && stale == old(stale) - {user}
      ensures !(ctx.Returned? && ctx.previousTasks.Some?) ==>
                lists == old(lists) && stale == old(stale)
    {
      if ctx.Returned? && ctx.previousTasks.Some? {
        lists := lists[user := ctx.previousTasks.value];
        stale := stale - {user};
      }
    }

    /** `onSettled`: `invalidateQueries({ queryKey: ["tasks"] })` marks every
        tasks list stale, whatever the outcome. */
    method Settle()
      requires Valid()
      modifies this
      ensures Valid() && lists == old(lists)
      ensures stale == lists.Keys
    {
      stale := lists.Keys;
    }

    /** A fetch of the tasks query. Disabled without a user id; on success
        the list replaces the cached one and the key is fresh again; on
        failure the last good list stays. */
    method Refetch(user: Scope, answer: Result<seq<Task>, Error>)
      requires Valid()
      modifies this
      ensures Valid()
      ensures TasksQueryEnabled(user) && answer.Success? ==>
                lists == old(lists)[user := answer.value] && stale == old(stale) - {user}
      ensures !(TasksQueryEnabled(user) && answer.Success?) ==>
                lists == old(lists) && stale == old(stale)
    {
      if TasksQueryEnabled(user) {
        var r := FetchTasks(user, answer);
        if r.Success? {
          lists := lists[user := r.value];
          stale := stale - {user};
        }
      }
    }

    /** One update from start to finish, on its own. Without a user the key
        holds no list, so `onMutate` throws and the guard's "No user logged
        in" is never reached; the guard answers only under a cached key with
        an empty id. */
    method Update(user: Scope, taskId: TaskId, p: Patch, answer: Answer)
      returns (sent: Option<RemoteCall>, outcome: Outcome)
      requires Valid()
      modifies this
      ensures Valid() && stale == lists.Keys
      ensures sent.Some? <==> user in old(lists) && Present(user)
      ensures sent.Some? ==> sent.value == UpdateCall(taskId, p)
      ensures user !in old(lists) ==> sent.None? && outcome == Failed(OnMutateTypeError)
      ensures user.None? ==> outcome == Failed(OnMutateTypeError)
      ensures user in old(lists) && !Present(user) ==> outcome == Failed(NoUserLoggedIn)
      ensures sent.Some? ==> outcome == (if answer.Ok? then Settled else Failed(answer.error))
      ensures outcome.Failed? ==> lists == old(lists)
      ensures outcome.Settled? ==>
                user in old(lists)
                && lists == old(lists)[user := UpdateTasks(old(lists)[user], taskId, p)]
    {
      var ctx := BeginUpdate(user, taskId, p);
      sent := None;
      if ctx.Threw? {
        outcome := Failed(OnMutateTypeError);
      } else {
        var call := UpdateRequest(user, taskId, p);
        if call.Failure? {
          outcome := Failed(call.error);
        } else {
          sent := Some(call.value);
          outcome := if answer.Ok? then Settled else Failed(answer.error);
        }
      }
      if outcome.Failed? {
        Fail(user, ctx);
      }
      Settle();
    }

    /** One delete from start to finish, on its own. A provisional id is
        sent to the backend like any other. */
    method Delete(user: Scope, taskId: TaskId, answer: Answer)
      returns (sent: Option<RemoteCall>, outcome: Outcome)
      requires Valid()
      modifies this
      ensures Valid() && stale == lists.Keys
      ensures sent.Some? <==> user in old(lists) && Present(user)
      ensures sent.Some? ==> sent.value == DeleteCall(taskId)
      ensures user !in old(lists) ==> sent.None? && outcome == Failed(OnMutateTypeError)
      ensures user.None? ==> outcome == Failed(OnMutateTypeError)
      ensures user in old(lists) && !Present(user) ==> outcome == Failed(NoUserLoggedIn)
      ensures sent.Some? ==> outcome == (if answer.Ok? then Settled else Failed(answer.error))
      ensures outcome.Failed? ==> lists == old(lists)
      ensures outcome.Settled? ==>
                user in old(lists)
                && lists == old(lists)[user := RemoveTask(old(lists)[user], taskId)]
    {
      var ctx := BeginDelete(user, taskId);
      sent := None;
      if ctx.Threw? {
        outcome := Failed(OnMutateTypeError);
      } else {
        var call := DeleteRequest(user, taskId);
        if call.Failure? {
          outcome := Failed(call.error);
        } else {
          sent := Some(call.value);
          outcome := if answer.Ok? then Settled else Failed(answer.error);
        }
      }
      if outcome.Failed? {
        Fail(user, ctx);
      }
      Settle();
    }

    /** One create from start to finish, on its own. A failure rolls back
        only when the key held a list beforehand: with no snapshot the
        provisional task stays until the invalidated query is refetched. */
    method Create(
      user: Scope, input: TaskInput, stamp: string, created: Millis, updated: Millis, answer: Answer)
      returns (sent: Option<RemoteCall>, outcome: Outcome)
      requires Valid()
      modifies this
      ensures Valid() && stale == lists.Keys
      ensures sent.Some? <==> Present(user)
      ensures sent.Some? ==> sent.value == CreateCall(NewTask(input.description, input.completed, user.value))
      ensures user.None? ==> sent.None? && outcome == Failed(OnMutateTypeError)
      ensures user.Some? && !Present(user) ==> outcome == Failed(NoUserLoggedIn)
      ensures sent.Some? ==> outcome == (if answer.Ok? then Settled else Failed(answer.error))
      ensures user.None? ==> lists == old(lists)
      ensures outcome.Failed? && user in old(lists) ==> lists == old(lists)
      ensures outcome.Failed? && user.Some? && user !in old(lists) ==>
                lists == old(lists)[user := [TempTask(input, user.value, stamp, created, updated)]]
      ensures outcome.Settled? ==>
                user.Some?
                && lists == old(lists)[user := AppendTask(if user in old(lists) then Some(old(lists)[user]) else None,
                                                       TempTask(input, user.value, stamp, created, updated))]
    {
      var ctx := BeginCreate(user, input, stamp, created, updated);
      sent := None;
      if ctx.Threw? {
        outcome := Failed(OnMutateTypeError);
      } else {
        var call := CreateRequest(user, input);
        if call.Failure? {
          outcome := Failed(call.error);
        } else {
          sent := Some(call.value);
          outcome := if answer.Ok? then Settled else Failed(answer.error);
        }
      }
      if outcome.Failed? {
        Fail(user, ctx);
      }
      Settle();
    }
  }

  /** The first half of two overlapping mutations on one list: an update
      begins, then a delete begins before the update has settled. The
      update's snapshot is the original list; the delete's snapshot is the
      optimistically patched one. */
  method BeginUpdateThenDelete(
    c: QueryCache, user: Scope, taskId: TaskId, p: Patch, deletedId: TaskId)
    returns (updateCtx: MutateContext, deleteCtx: MutateContext)
    requires c.Valid() && user in c.lists
    modifies c
    ensures c.Valid() && user.Some?
    ensures updateCtx == Returned(Some(old(c.lists)[user]))
    ensures deleteCtx == Returned(Some(UpdateTasks(old(c.lists)[user], taskId, p)))
    ensures c.lists == old(c.lists)[user := RemoveTask(UpdateTasks(old(c.lists)[user], taskId, p), deletedId)]
  {
    updateCtx := c.BeginUpdate(user, taskId, p);
    deleteCtx := c.BeginDelete(user, deletedId);
  }

  /** Two overlapping mutations on one list: an update begins, a delete
      begins, then the update fails. The update's rollback restores the list
      as it was before the update, so the delete's optimistic removal is
      undone although the delete succeeds. */
  method UpdateRollbackUndoesLaterDelete(
    c: QueryCache, user: Scope, taskId: TaskId, p: Patch, deletedId: TaskId)
    requires c.Valid() && user in c.lists
    modifies c
    ensures c.Valid() && c.stale == c.lists.Keys
    ensures c.lists == old(c.lists)
  {
    ghost var before := c.lists;
    var updateCtx, deleteCtx := BeginUpdateThenDelete(c, user, taskId, p, deletedId);
    c.Fail(user, updateCtx);
    assert c.lists == before;
    c.Settle();
    c.Settle();
  }

  /** The same interleaving with both requests rejected: the delete's
      rollback, applied last, brings back its own snapshot, which is the
      optimistically patched list the update's rollback had discarded. */
  method BothRejectedLeavesPatchedList(
    c: QueryCache, user: Scope, taskId: TaskId, p: Patch, deletedId: TaskId)
    requires c.Valid() && user in c.lists
    modifies c
    ensures c.Valid() && c.stale == c.lists.Keys
    ensures c.lists == old(c.lists)[user := UpdateTasks(old(c.lists)[user], taskId, p)]
  {
    var updateCtx, deleteCtx := BeginUpdateThenDelete(c, user, taskId, p, deletedId);
    c.Fail(user, updateCtx);
    c.Settle();
    c.Fail(user, deleteCtx);
    c.Settle();
  }

  /** The list a failed earlier mutation restores is never the list a later
      delete produced when the deleted id was there: the later optimistic
      edit is discarded, not merged. */
  lemma RollbackDiscardsLaterDelete(tasks: seq<Task>, taskId: TaskId, p: Patch, deletedId: TaskId)
    requires exists i :: 0 <= i < |tasks| && tasks[i].id == deletedId
    ensures tasks != RemoveTask(UpdateTasks(tasks, taskId, p), deletedId)
  {
    var i :| 0 <= i < |tasks| && tasks[i].id == deletedId;
    UpdateTasksPointwise(tasks, taskId, p);
    var updated := UpdateTasks(tasks, taskId, p);
    assert updated[i].id == deletedId;
    RemoveTaskSpec(updated, deletedId);
    assert tasks[i] !in RemoveTask(updated, deletedId);
  }
}
