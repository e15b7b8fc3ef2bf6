/** The pure parts of the task hooks: the list transformations each
    mutation applies to the cached list before the server answers, the
    guards of the mutation functions, and the query function of the read. */
module TaskUpdaters {
  import opened Wrappers
  import opened Tasks

  // ---------------------------------------------------------------------
  // Update: `old.map(task => task.id === taskId ? { ...task, ...taskData } : task)`
  // ---------------------------------------------------------------------

  /** `{ ...task, ...taskData }`: the patch wins on every field it carries. */
  function Merge(t: Task, p: Patch): (r: Task)
    ensures r.id == t.id && r.owner == t.owner
    ensures r.created == t.created && r.updated == t.updated
    ensures p.description.Some? ==> r.description == p.description.value
    ensures p.description.None? ==> r.description == t.description
    ensures p.completed.Some? ==> r.completed == p.completed.value
    ensures p.completed.None? ==> r.completed == t.completed
  {
    t.(description := p.description.GetOr(t.description),
       completed := p.completed.GetOr(t.completed))
  }

  function UpdateTasks(tasks: seq<Task>, taskId: TaskId, p: Patch): seq<Task>
  {
    if tasks == [] then []
    else [if tasks[0].id == taskId then Merge(tasks[0], p) else tasks[0]]
         + UpdateTasks(tasks[1..], taskId, p)
  }

  /** The optimistic update keeps the length and the order of the list,
      merges the patch into every task whose id matches, and leaves every
      other task as it was. */
  lemma {:induction false} UpdateTasksPointwise(tasks: seq<Task>, taskId: TaskId, p: Patch)
    ensures |UpdateTasks(tasks, taskId, p)| == |tasks|
    ensures forall i :: 0 <= i < |tasks| ==>
              UpdateTasks(tasks, taskId, p)[i]
                == if tasks[i].id == taskId then Merge(tasks[i], p) else tasks[i]
  {
    if tasks != [] {
      UpdateTasksPointwise(tasks[1..], taskId, p);
    }
  }

  /** Patching a task that is not in the list changes nothing. */
  lemma {:induction false} UpdateAbsentIsIdentity(tasks: seq<Task>, taskId: TaskId, p: Patch)
    requires forall i :: 0 <= i < |tasks| ==> tasks[i].id != taskId
    ensures UpdateTasks(tasks, taskId, p) == tasks
  {
    if tasks != [] {
      UpdateAbsentIsIdentity(tasks[1..], taskId, p);
    }
  }

  // ---------------------------------------------------------------------
  // Delete: `old.filter(task => task.id !== taskId)`
  // ---------------------------------------------------------------------

  function RemoveTask(tasks: seq<Task>, taskId: TaskId): seq<Task>
  {
    if tasks == [] then []
    else (if tasks[0].id == taskId then [] else [tasks[0]]) + RemoveTask(tasks[1..], taskId)
  }

  /** How many tasks of the list carry the id. */
  function CountId(tasks: seq<Task>, taskId: TaskId): nat
  {
    if tasks == [] then 0
    else (if tasks[0].id == taskId then 1 else 0) + CountId(tasks[1..], taskId)
  }

  /** `xs` is `ys` with some elements left out and the rest kept in order. */
  predicate IsSubsequence<T(==)>(xs: seq<T>, ys: seq<T>)
    decreases |ys|
  {
    xs == [] ||
    (ys != [] &&
     ((xs[0] == ys[0] && IsSubsequence(xs[1..], ys[1..])) || IsSubsequence(xs, ys[1..])))
  }

  /** The optimistic delete leaves no task with the id, keeps every other
      task, keeps them in their original relative order, and drops exactly
      as many tasks as carried the id. */
  lemma {:induction false} RemoveTaskSpec(tasks: seq<Task>, taskId: TaskId)
    ensures forall t :: t in RemoveTask(tasks, taskId) <==> t in tasks && t.id != taskId
    ensures IsSubsequence(RemoveTask(tasks, taskId), tasks)
    ensures |RemoveTask(tasks, taskId)| == |tasks| - CountId(tasks, taskId)
  {
    if tasks != [] {
      RemoveTaskSpec(tasks[1..], taskId);
      assert tasks == [tasks[0]] + tasks[1..];
      var r := RemoveTask(tasks, taskId);
      if tasks[0].id != taskId {
        assert r == [tasks[0]] + RemoveTask(tasks[1..], taskId);
        assert r[0] == tasks[0] && r[1..] == RemoveTask(tasks[1..], taskId);
      } else {
        assert r == RemoveTask(tasks[1..], taskId);
      }
    }
  }

  /** Deleting an id that no task carries changes nothing. */
  lemma {:induction false} RemoveAbsentIsIdentity(tasks: seq<Task>, taskId: TaskId)
    requires forall i :: 0 <= i < |tasks| ==> tasks[i].id != taskId
    ensures RemoveTask(tasks, taskId) == tasks
  {
    if tasks != [] {
      RemoveAbsentIsIdentity(tasks[1..], taskId);
    }
  }

  // ---------------------------------------------------------------------
  // Create: a provisional `temp-…` task, appended with
  // `old ? [...old, tempTask] : [tempTask]`
  // ---------------------------------------------------------------------

  const TempPrefix: string := "temp-"

  /** `{ ...taskData, id: "temp-" + Date.now(), owner: user.id, created, updated }`.
      The clock is read three times: `stamp` is the decimal form of the
      reading in the id, `created` and `updated` the two later readings. */
  function TempTask(input: TaskInput, user: UserId, stamp: string, created: Millis, updated: Millis)
    : (t: Task)
    ensures |t.id| >= |TempPrefix| && t.id[..|TempPrefix|] == TempPrefix
    ensures t.id[|TempPrefix|..] == stamp
    ensures t.owner == user
    ensures t.description == input.description && t.completed == input.completed
    ensures t.created == created && t.updated == updated
  {
    Task(TempPrefix + stamp, user, input.description, input.completed, created, updated)
  }

  /** The create updater: with no cached list the result is the singleton. */
  function AppendTask(cached: Option<seq<Task>>, t: Task): (r: seq<Task>)
    ensures cached.None? ==> r == [t]
    ensures cached.Some? ==> |r| == |cached.value| + 1 && r[..|cached.value|] == cached.value
    ensures r[|r| - 1] == t
  {
    match cached
    case Some(list) => list + [t]
    case None => [t]
  }

  // ---------------------------------------------------------------------
  // The mutation functions: the request each one sends, after its guard
  // ---------------------------------------------------------------------

  /** The record body of a create request. */
  datatype NewTask = NewTask(description: string, completed: bool, owner: UserId)

  /** One request to the `tasks` collection of the backend. */
  datatype RemoteCall =
    | UpdateCall(taskId: TaskId, taskData: Patch)
    | CreateCall(data: NewTask)
    | DeleteCall(taskId: TaskId)

  const NoUserLoggedIn: Error := Error("No user logged in")

  /** The update mutation function: rejects without a user id, otherwise
      sends the patch for the id. */
  function UpdateRequest(user: Option<UserId>, taskId: TaskId, p: Patch): (r: Result<RemoteCall, Error>)
    ensures r.Failure? <==> !Present(user)
    ensures r.Failure? ==> r.error == NoUserLoggedIn
    ensures r.Success? ==> r.value == UpdateCall(taskId, p)
  {
    if !Present(user) then Failure(NoUserLoggedIn) else Success(UpdateCall(taskId, p))
  }

  /** The create mutation function: rejects without a user id, otherwise
      sends `{ ...taskData, owner: user.id }`, so the owner is always the
      current user whatever owner the input carried. */
  function CreateRequest(user: Option<UserId>, input: TaskInput): (r: Result<RemoteCall, Error>)
    ensures r.Failure? <==> !Present(user)
    ensures r.Failure? ==> r.error == NoUserLoggedIn
    ensures r.Success? ==> r.value.CreateCall? && r.value.data.owner == user.value
    ensures r.Success? ==> r.value.data.description == input.description
                           && r.value.data.completed == input.completed
  {
    if !Present(user) then Failure(NoUserLoggedIn)
    else Success(CreateCall(NewTask(input.description, input.completed, user.value)))
  }

  /** The delete mutation function: rejects without a user id, otherwise
      sends the delete for the id. Nothing exempts provisional ids. */
  function DeleteRequest(user: Option<UserId>, taskId: TaskId): (r: Result<RemoteCall, Error>)
    ensures r.Failure? <==> !Present(user)
    ensures r.Failure? ==> r.error == NoUserLoggedIn
    ensures r.Success? ==> r.value == DeleteCall(taskId)
  {
    if !Present(user) then Failure(NoUserLoggedIn) else Success(DeleteCall(taskId))
  }

  /** Deleting a provisional task still goes to the backend. */
  lemma TempDeleteIsSent(user: Option<UserId>, t: Task)
    requires Present(user)
    requires |t.id| >= |TempPrefix| && t.id[..|TempPrefix|] == TempPrefix
    ensures DeleteRequest(user, t.id) == Success(DeleteCall(t.id))
  {
  }

  // ---------------------------------------------------------------------
  // The read: `useTasks`
  // ---------------------------------------------------------------------

  /** The query is enabled only with a user id. */
  predicate TasksQueryEnabled(user: Option<UserId>) {
    Present(user)
  }

  /** The query function: `[]` without a user id and no request, otherwise
      what the owner-filtered list request answers. */
  function FetchTasks(user: Option<UserId>, answer: Result<seq<Task>, Error>): (r: Result<seq<Task>, Error>)
    ensures !TasksQueryEnabled(user) ==> r == Success([])
    ensures TasksQueryEnabled(user) ==> r == answer
  {
    if !Present(user) then Success([]) else answer
  }

  // ---------------------------------------------------------------------
  // The overall status of the three mutations
  // ---------------------------------------------------------------------

  /** What one mutation reports: whether it is in flight, and its last error. */
  datatype MutationStatus = MutationStatus(isPending: bool, error: Option<Error>)

  /** `isLoading` and `hasError` of the mutations hook. */
  datatype OverallStatus = OverallStatus(isLoading: bool, hasError: bool)

  /** Busy while any mutation is in flight; failed while any holds an error. */
  function Overall(create: MutationStatus, update: MutationStatus, delete: MutationStatus)
    : (s: OverallStatus)
    ensures s.isLoading <==> create.isPending || update.isPending || delete.isPending
    ensures s.hasError <==> create.error.Some? || update.error.Some? || delete.error.Some?
  {
    OverallStatus(create.isPending || update.isPending || delete.isPending,
                  create.error.Some? || update.error.Some? || delete.error.Some?)
  }

  /** `data: tasks = []`: a query without data reads as the empty list. */
  function VisibleTasks(data: Option<seq<Task>>): (r: seq<Task>)
    ensures data.None? ==> r == []
    ensures data.Some? ==> r == data.value
  {
    data.GetOr([])
  }
}
