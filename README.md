# BuddyTask: the task cache and the two task lists

BuddyTask lets two people share their to-do lists. Each user edits their own list.
They can also see their partner's list, but only read it. This project models the
client-side logic behind those two views. There are five parts:

- **The task hooks** (`src/hooks/useTasks.js`). The read is the `["tasks", user?.id]`
  query. It is enabled only with a user id and reads as `[]` while it has no data.
  Update, create and delete are each optimistic mutations:
  1. `onMutate` snapshots the cached list and applies an updater to it: a map with
     `{...task, ...taskData}`, an append of a provisional `temp-…` task, or a filter.
  2. The mutation function rejects with "No user logged in" when there is no user id.
     Otherwise it sends one request.
  3. `onError` restores that mutation's own snapshot when it has one.
  4. `onSettled` invalidates every `["tasks", …]` query, whatever the outcome.
- **The partner hook** (`src/hooks/usePartnerTasks.js`). The first query finds the
  partnership and picks the other member. The second fetches that member's tasks.
  Both query functions catch every failure and fall back to "no partner" or to `[]`.
  The hook combines their flags, and it exposes no operation that writes.
- **The own list** (`src/components/TaskList.jsx`). It covers the age badge
  (`getRelativeTime`), the handlers that build update and create requests, and the
  form state: the add form, the inline editor and the keyboard shortcuts. It also
  decides which blocks are rendered.
- **The partner list** (`src/components/PartnerTaskList.jsx`). It has its own copy of
  the age badge, the expanded row and its Escape key, the colour helpers, and which
  blocks are rendered.
- **`String.prototype.trim`**. Both forms validate their text with it. It is modelled
  with the ECMAScript whitespace and line-terminator sets.

## How the model is organised

| module | file | content |
|---|---|---|
| `Wrappers` | wrappers.dfy | `Option`, `Result`, `Present` |
| `Tasks` | tasks.dfy | the records: `Task`, `Patch`, `TaskInput`, `Partnership`, `Error` |
| `TaskUpdaters` | task_updaters.dfy | the three updaters, the request guards, the read's query function and the mutation status |
| `TaskCache` | task_cache.dfy | the `QueryCache` class and the mutation lifecycles |
| `PartnerTasks` | partner_tasks.dfy | the partner hook |
| `JsText` | js_text.dfy | `trim` |
| `TaskListView` | task_list.dfy | the own list: a `TaskListForm` class for the form state, plus functions |
| `PartnerTaskListView` | partner_task_list.dfy | the partner list: a `PartnerTaskListState` class, plus functions |

### Conventions

- **The cache.** The query cache is a class. `lists` maps the second element of the
  key, `user?.id` (`None` when undefined), to the cached list. `stale` is the set of
  invalidated keys. The `onMutate`, `onError` and `onSettled` steps are methods that
  change it. Writing a list with `setQueryData` makes its key fresh again, and
  invalidation makes every cached key stale. The invariant `Valid()` says that only
  cached keys are stale and that no list is ever cached under the undefined id: the
  read is disabled without a user id, and every write under that key throws first.
- **The user.** `Scope` is `user?.id`, so `None` means "no user object". The model
  assumes that a signed-in user object always carries an id, as an authentication
  record does. A user object without an id, which would not throw at
  src/hooks/useTasks.js:101, is therefore not represented.
- **Component state.** The `useState` variables of each component are the fields of
  a class. Each handler is a method on that class.
- **Truthiness.** A user id or task id is tested as JavaScript does: `Present(id)`
  holds only for a defined, non-empty string. An array is always truthy. So
  `context?.previousTasks` is present for an empty snapshot, and absent only when
  the key held no list.
- **A throwing `onMutate`.** `onMutate` throws when `old.map` or `old.filter` meets a
  missing list, or when `user.id` is read with no user. The query library then skips
  the mutation function and calls `onError` with an undefined context, so nothing is
  rolled back. It still calls `onSettled`. `MutateContext.Threw` stands for that
  undefined context.
- **Outside inputs.** Backend answers are parameters. This includes the first-match
  lookup, the list fetches, and the answer to each mutation. The clock is a
  parameter too: instants are milliseconds. A provisional task reads it three
  times, and each reading is its own parameter: the decimal `stamp` in its id, then
  `created`, then `updated`.

### Where the code and its documentation disagree

The model follows the code in each case.

- **Self-partnership.** A partnership whose two members are both the user resolves
  to the user. The code compares only with `partner1`. See `PartnerTasks.PartnerId`.
- **Provisional ids.** Deleting a task whose id still has the `temp-` prefix is sent
  to the backend like any other delete. Nothing filters it out. See
  `TaskUpdaters.TempDeleteIsSent` and `TaskCache.QueryCache.Delete`.
- **Invalidation.** It happens on failure too, not only on success.
- **A failed create.** With no cached list beforehand, the snapshot is undefined, so
  nothing is rolled back. The provisional task stays until the refetch.
- **Missing state in `onMutate`.** With no cached list (update, delete) or no user
  object (create), `onMutate` throws a `TypeError`. This happens before the
  mutation function's "No user logged in" guard can run.
- **Unused expansion.** `toggleTaskExpansion` (src/components/PartnerTaskList.jsx:47-49)
  is never called by the component's markup, and the markup never reads
  `expandedTaskId`. In the running program the expanded id therefore stays `null` and
  the Escape branch (lines 34-36) never fires. `PartnerTaskListState.ToggleTaskExpansion`
  and `PartnerTaskListState.KeyDown` model the handlers as written, not behaviour a
  user can reach.
- **Overlapping mutations.** Rollbacks restore whole snapshots. Overlapping
  mutations therefore discard each other's optimistic edits instead of merging them.
  See `TaskCache.UpdateRollbackUndoesLaterDelete` and
  `TaskCache.BothRejectedLeavesPatchedList`.

## Model

| member | source | states |
|---|---|---|
| TaskUpdaters.Merge | src/hooks/useTasks.js:59 | `{...task, ...taskData}` keeps id, owner and both timestamps; each field the patch carries is overwritten, each field it lacks is kept |
| TaskUpdaters.UpdateTasksPointwise | src/hooks/useTasks.js:57-61 | the update's updater keeps length and order, merges the patch into every task with the id and leaves every other task unchanged |
| TaskUpdaters.UpdateAbsentIsIdentity | src/hooks/useTasks.js:57-61 | patching an id no task carries leaves the list equal to the snapshot |
| TaskUpdaters.RemoveTaskSpec | src/hooks/useTasks.js:135-137 | the delete's filter keeps exactly the tasks whose id differs, keeps them in their original order (a subsequence), and shrinks the list by the number of tasks that carried the id |
| TaskUpdaters.RemoveAbsentIsIdentity | src/hooks/useTasks.js:135-137 | deleting an id no task carries leaves the list unchanged |
| TaskUpdaters.TempTask | src/hooks/useTasks.js:98-105 | the provisional task's id is `temp-` followed by the first clock reading, its owner is the user, description and completion come from the input, and `created` and `updated` are the two later clock readings, each taken separately |
| TaskUpdaters.AppendTask | src/hooks/useTasks.js:107-109 | with no cached list the result is the singleton; otherwise the old list is kept as a prefix and the new task is last |
| TaskUpdaters.UpdateRequest | src/hooks/useTasks.js:44-47 | rejects with "No user logged in" exactly when there is no user id; otherwise sends the patch for the id unchanged |
| TaskUpdaters.CreateRequest | src/hooks/useTasks.js:82-91 | rejects exactly when there is no user id; otherwise sends the input's description and completion with the owner forced to the current user |
| TaskUpdaters.DeleteRequest | src/hooks/useTasks.js:126-129 | rejects exactly when there is no user id; otherwise sends the delete for the id |
| TaskUpdaters.TempDeleteIsSent | src/hooks/useTasks.js:126-129 | a provisional `temp-` id is sent to the backend like any other id |
| TaskUpdaters.FetchTasks | src/hooks/useTasks.js:17-25 | without a user id the read yields `[]` and sends nothing; with one it yields what the owner-filtered request answers, failure included |
| TaskUpdaters.VisibleTasks | src/hooks/useTasks.js:10 | a query without data reads as the empty list, one with data as its data |
| TaskUpdaters.Overall | src/hooks/useTasks.js:169-176 | the hook is busy exactly when some mutation is pending and in error exactly when some mutation holds an error |
| TaskCache.QueryCache.constructor | src/main.jsx:10-18 | the cache starts with no list and nothing stale |
| TaskCache.QueryCache.Cached | src/hooks/useTasks.js:54 | the snapshot is defined exactly when the key holds a list, and is that list |
| TaskCache.QueryCache.Tasks | src/hooks/useTasks.js:6-35 | what `useTasks` shows for a user: the cached list, or `[]` when the key holds none |
| TaskCache.QueryCache.BeginUpdate | src/hooks/useTasks.js:49-65 | with a cached list: returns that list as the snapshot, replaces it with the patched list and makes that key fresh, nothing else changes; without one: throws and changes nothing |
| TaskCache.QueryCache.BeginDelete | src/hooks/useTasks.js:130-140 | with a cached list: snapshot, then the filtered list, and that key fresh; without one: throws and changes nothing |
| TaskCache.QueryCache.BeginCreate | src/hooks/useTasks.js:92-112 | with no user object: throws and changes nothing; otherwise returns the snapshot (undefined when the key held no list), appends the provisional task and makes that key fresh |
| TaskCache.QueryCache.Fail | src/hooks/useTasks.js:67-73 | restores the key to the mutation's own snapshot when the context carries one (an empty list included), which makes that key fresh; changes nothing otherwise |
| TaskCache.QueryCache.Settle | src/hooks/useTasks.js:75-77 | every cached tasks list becomes stale (prefix match on `["tasks"]`); no list changes |
| TaskCache.QueryCache.Refetch | src/hooks/useTasks.js:15-26 | an enabled, successful fetch stores the answer and makes that key fresh; a disabled or failed fetch keeps the last list and the staleness |
| TaskCache.QueryCache.Update | src/hooks/useTasks.js:43-78 | a request is sent exactly when the key holds a list and there is a user id; with no cached list, and so always without a user, the outcome is the TypeError of `onMutate` and nothing is sent; with a cached list under an empty id it is "No user logged in"; any failure leaves every list as before; success leaves the patched list; every key ends stale |
| TaskCache.QueryCache.Delete | src/hooks/useTasks.js:125-150 | as for the update, with the filtered list on success |
| TaskCache.QueryCache.Create | src/hooks/useTasks.js:81-122 | with no user object the outcome is the TypeError of `onMutate` and nothing changes or is sent; a request with the owner forced to the user is sent exactly when there is a user id; with an empty id the outcome is "No user logged in"; a failure restores a prior list, but with no prior list the provisional task stays; success leaves the list with the provisional task appended; every key ends stale |
| TaskCache.BeginUpdateThenDelete | src/hooks/useTasks.js:49-65 | an update begins, then a delete begins on the same list: the update's snapshot is the original list, the delete's is the patched list, and the cache holds the patched list with the id filtered out |
| TaskCache.UpdateRollbackUndoesLaterDelete | src/hooks/useTasks.js:49-73 | update begins, delete begins, update fails, delete succeeds: the list is back to the state before both, so the delete's removal is undone in the cache |
| TaskCache.BothRejectedLeavesPatchedList | src/hooks/useTasks.js:130-146 | the same interleaving with both rejected: the list ends patched by the update that failed |
| TaskCache.RollbackDiscardsLaterDelete | src/hooks/useTasks.js:67-73 | when the deleted id was in the list, the restored snapshot differs from the list the later delete produced |
| PartnerTasks.PartnerId | src/hooks/usePartnerTasks.js:31-34 | the result is `partner2` when `partner1` is the user and `partner1` otherwise, so always one of the two members; it is the other member whenever the user is one of two distinct members; a self-partnership yields the user |
| PartnerTasks.PartnerOfPartner | src/hooks/usePartnerTasks.js:31-34 | for a member of the partnership, the partner of the partner is that member again |
| PartnerTasks.PartnershipQuery | src/hooks/usePartnerTasks.js:19-46 | yields data exactly when there is a user id and the lookup succeeded, carrying the record and the other member; a failed lookup of any kind is "no partner" |
| PartnerTasks.PartnerIdOf | src/hooks/usePartnerTasks.js:56 | a partner id is known exactly when the partnership query has data, and it is that data's `partnerId` |
| PartnerTasks.PartnerTasksQuery | src/hooks/usePartnerTasks.js:57-74 | `[]` without a partner id or on any failure; otherwise the owner-filtered answer |
| PartnerTasks.ResolvedPartnerTasks | src/hooks/usePartnerTasks.js:19-75 | chained, the two queries yield `[]` whenever the user id is missing or either request fails; when there is a user id, both requests succeed and the partner id is non-empty, they yield exactly the fetched list, and `[]` when the partner id is empty |
| PartnerTasks.UsePartnerTasks | src/hooks/usePartnerTasks.js:77-94 | loading and error flags are the disjunction of the two queries', the error prefers the partnership's, tasks default to `[]`, the partnership record and the partner id are those of the partnership data, or absent without it |
| JsText.SkipLeading | src/components/TaskList.jsx:148 | the index reached skips only spaces and stops at the first non-space or the end |
| JsText.SkipTrailing | src/components/TaskList.jsx:148 | the end reached drops only trailing spaces and stops after the last non-space or at the start |
| JsText.TrimBlankIff | src/components/TaskList.jsx:148 | `!text.trim()` holds exactly when the text consists of whitespace only |
| JsText.TrimEnds | src/components/TaskList.jsx:151 | the trimmed text is empty or begins and ends with a non-space |
| JsText.TrimIdempotent | src/components/TaskList.jsx:174 | trimming a trimmed text changes nothing |
| TaskListView.BadgeForDays | src/components/TaskList.jsx:31-42 | no badge exactly under 7 days; from 7 to 29 days the weeks `w` satisfy `7w <= days < 7(w+1)` (so 1–4), from 30 to 364 the months `m` satisfy `30m <= days < 30(m+1)` (so 1–12), and from 365 the years `y` satisfy `365y <= days < 365(y+1)` |
| TaskListView.RelativeTimeNoBadgeIff | src/components/TaskList.jsx:25-43 | no badge exactly when the two instants are less than seven days apart |
| TaskListView.RelativeTimeIgnoresDirection | src/components/TaskList.jsx:28 | a creation date as far in the future gets the same badge as one in the past |
| TaskListView.RowBadge | src/components/TaskList.jsx:242 | a row shows a badge exactly when its task is incomplete and its age has one |
| TaskListView.ToggleRequest | src/components/TaskList.jsx:130-135 | the toggle sends, for the task's id, only `completed` and negated |
| TaskListView.ToggleFlipsOnlyThatTask | src/components/TaskList.jsx:130-135 | applied optimistically, a toggle flips that task's completion and leaves every task with another id unchanged |
| TaskListView.TaskListScreen | src/components/TaskList.jsx:182-198 | the "ready" message shows exactly when not loading, not in error, with no task and the form hidden; the task panel shows exactly when not loading, not in error and either tasks exist or the form is open; the two never show together; the spinner and the error block follow their flags |
| TaskListView.ErrorText | src/components/TaskList.jsx:192 | the error block shows the error's message, or the fallback when there is none or it is empty |
| TaskListView.AddDisabled | src/components/TaskList.jsx:331 | the submit button is disabled exactly while a create is pending or the text is whitespace only |
| TaskListView.TaskListForm.constructor | src/components/TaskList.jsx:17-20 | the form starts hidden and empty, nothing being edited |
| TaskListView.TaskListForm.KeyDown | src/components/TaskList.jsx:98-121 | `t`/`T` outside a text field, with the form hidden and nothing edited, shows the form; Escape hides and clears the form if shown and leaves edit mode if editing; any other key changes nothing |
| TaskListView.TaskListForm.ClickDescription | src/components/TaskList.jsx:142-145 | clicking an incomplete task's description starts editing it with its description; a completed task does nothing (guard at line 233) |
| TaskListView.TaskListForm.SaveEditedTask | src/components/TaskList.jsx:147-156 | a request is sent exactly when an id is being edited and the text is not blank; it carries the trimmed, non-empty text as the new description and edit mode ends; otherwise nothing changes |
| TaskListView.TaskListForm.EditKeyDown | src/components/TaskList.jsx:158-163 | Enter saves exactly when an id is being edited and the text is not blank, sending the trimmed text for that id and leaving edit mode; any other key, or a blank or absent edit, changes nothing |
| TaskListView.TaskListForm.AddTask | src/components/TaskList.jsx:165-177 | a create is requested exactly when the text is not blank; it carries the trimmed text (already trimmed, not empty) and not completed, and the form closes and clears; a blank text changes nothing |
| TaskListView.TaskListForm.MouseDownWithFormOpen | src/components/TaskList.jsx:53-72 | with the form shown and its input mounted (the task panel rendered, so neither loading nor in error), a press outside the input and not on a button hides the form and discards its text; with the input unmounted, or any other press, nothing changes |
| TaskListView.TaskListForm.OpenAddForm | src/components/TaskList.jsx:341 | the "Add Task" button shows the form and keeps everything else |
| TaskListView.TaskListForm.CancelAddForm | src/components/TaskList.jsx:322 | "Cancel" hides the form but keeps its text (unlike Escape) |
| TaskListView.TaskListForm.TypeNewTask | src/components/TaskList.jsx:314 | typing replaces the add text and nothing else |
| TaskListView.TaskListForm.TypeEditText | src/components/TaskList.jsx:225 | typing replaces the edit text and nothing else |
| PartnerTaskListView.SameBadgeAsTaskList | src/components/PartnerTaskList.jsx:10-28 | the partner list's copy of the badge agrees with the own list's on every pair of instants |
| PartnerTaskListView.ToggleExpansion | src/components/PartnerTaskList.jsx:47-49 | the expanded row collapses; any other row becomes the expanded one |
| PartnerTaskListView.ToggleTwice | src/components/PartnerTaskList.jsx:47-49 | toggling a row twice returns to the start exactly when nothing or that row was expanded, and otherwise ends collapsed |
| PartnerTaskListView.PartnerTaskListState.constructor | src/components/PartnerTaskList.jsx:7 | no row starts expanded |
| PartnerTaskListView.PartnerTaskListState.ToggleTaskExpansion | src/components/PartnerTaskList.jsx:47-49 | the expanded id becomes the toggle of the previous one |
| PartnerTaskListView.PartnerTaskListState.KeyDown | src/components/PartnerTaskList.jsx:32-37 | Escape with a row expanded collapses it; anything else changes nothing |
| PartnerTaskListView.CheckboxFillColor | src/components/PartnerTaskList.jsx:52-54 | amber fill exactly for the "amber" scheme, blue for every other |
| PartnerTaskListView.CheckboxColorClass | src/components/PartnerTaskList.jsx:57-59 | the amber class exactly for the "amber" scheme, blue for every other |
| PartnerTaskListView.PartnerListScreen | src/components/PartnerTaskList.jsx:64-91 | the empty message shows exactly when not loading, not in error and the list is empty; the list shows exactly when not loading, not in error and non-empty; so the two never show together and neither shows beside the spinner or the error |

## Left out

- Network and backend: every request's answer is a parameter. The filter strings,
  the `sort` options (`""`, `"-created"`) and the backend's ordering are not modelled.
- Time: `Date.now()` and `new Date()` are parameters (`now`, `stamp`, `created`, `updated`). Dates are
  integers of milliseconds. Parsing an ISO string, an invalid date (`NaN`) and the
  ISO form of `created`/`updated` are not modelled.
- Badge text: the badge is the datatype `AgeBadge`. Its rendering as `"3w old"` is
  not modelled.
- Query-library internals: `cancelQueries`, request deduplication, retries,
  `staleTime`, garbage collection and the actual refetch after invalidation. The
  refetch is the separate step `QueryCache.Refetch`.
- Concurrency: async interleavings are written as explicit sequences of steps in
  `UpdateRollbackUndoesLaterDelete` and `BothRejectedLeavesPatchedList`. Other orders
  are not enumerated.
- `QueryCache.Refetch`: a failed fetch's error state (`isError`, `error`) is not
  kept in the cache. The view takes those flags as parameters.
- Patch fields: a patch carries only `description` and `completed`, the only fields
  the views send. Arbitrary extra fields of `taskData` are not modelled.
- `refetch` of both hooks is not modelled. It re-runs the same query function, which
  is modelled.
- `handleDeleteTask` (src/components/TaskList.jsx:137-140) passes the id to the delete
  unchanged. It is modelled directly as the `taskId` of `QueryCache.Delete`.
- Logging: the `console.error` calls in the three `onError` callbacks
  (src/hooks/useTasks.js:72, 117, 145) and in the two partner-query `catch` blocks
  (src/hooks/usePartnerTasks.js:41, 70) are output only and are not modelled.
- DOM and focus: auto-focus, text selection, listener registration and `preventDefault`
  are not modelled.
- The edit field's click-outside handler (src/components/TaskList.jsx:75-94) is left
  out. It captures `saveEditedTask` from the render where editing began. What it
  saves, next to the field's `onBlur` save, depends on the browser's event order.
  The `onBlur` and Save-button paths (lines 227, 255) are `SaveEditedTask`.
- Rendering: markup, class names other than the checkbox colour, and which row shows
  the edit field are not modelled.
- Authentication, routing and the other pages: `Auth.jsx`, `UserHome.jsx` (including
  its fetch of the partner's name), `Navbar.jsx`, `App.jsx` and `ProtectedRoute.jsx`
  are not part of this model.
