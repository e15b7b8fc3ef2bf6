/** The rules of the partner's read-only task list: its own copy of the age
    badge, the expanded row, the colour scheme, and which blocks are shown. */
module PartnerTaskListView {
  import opened Tasks
  import opened Wrappers
  import TaskListView

  /** This component's own `getRelativeTime`. */
  function RelativeTime(now: Millis, created: Millis): TaskListView.AgeBadge {
    var diffDays := TaskListView.Abs(now - created) / TaskListView.MsPerDay;
    if diffDays < 7 then TaskListView.NoBadge
    else if diffDays < 30 then TaskListView.WeeksOld(diffDays / 7)
    else if diffDays < 365 then TaskListView.MonthsOld(diffDays / 30)
    else TaskListView.YearsOld(diffDays / 365)
  }

  /** The copy agrees with the own list's badge on every pair of instants. */
  lemma SameBadgeAsTaskList(now: Millis, created: Millis)
    ensures RelativeTime(now, created) == TaskListView.RelativeTime(now, created)
  {
  }

  /** `toggleTaskExpansion`: the expanded row collapses, any other row
      becomes the expanded one. */
  function ToggleExpansion(expanded: Option<TaskId>, taskId: TaskId): (r: Option<TaskId>)
    ensures expanded == Some(taskId) ==> r.None?
    ensures expanded != Some(taskId) ==> r == Some(taskId)
  {
    if expanded == Some(taskId) then None else Some(taskId)
  }

  /** Toggling the same row twice returns to the start exactly when nothing
      or that row was expanded; from another expanded row it ends collapsed. */
  lemma ToggleTwice(expanded: Option<TaskId>, taskId: TaskId)
    ensures ToggleExpansion(ToggleExpansion(expanded, taskId), taskId) == expanded
            <==> expanded.None? || expanded == Some(taskId)
    ensures ToggleExpansion(ToggleExpansion(expanded, taskId), taskId).None?
            <==> expanded != Some(taskId)
  {
  }

  class PartnerTaskListState {
    var expandedTaskId: Option<TaskId>

    constructor ()
      ensures expandedTaskId.None?
    {
      expandedTaskId := None;
    }

    method ToggleTaskExpansion(taskId: TaskId)
      modifies this
      ensures expandedTaskId == ToggleExpansion(old(expandedTaskId), taskId)
    {
      expandedTaskId := ToggleExpansion(expandedTaskId, taskId);
    }

    /** The window keydown handler: Escape collapses an expanded row. */
    method KeyDown(key: string)
      modifies this
      ensures key == "Escape" && Present(old(expandedTaskId)) ==> expandedTaskId.None?
      ensures !(key == "Escape" && Present(old(expandedTaskId))) ==> unchanged(this)
    {
      if key == "Escape" && Present(expandedTaskId) {
        expandedTaskId := None;
      }
    }
  }

  const AmberFill: string := "#F59E0B"
  const BlueFill: string := "#3B82F6"

  function CheckboxFillColor(colorScheme: string): (c: string)
    ensures c == AmberFill <==> colorScheme == "amber"
    ensures c == BlueFill <==> colorScheme != "amber"
  {
    if colorScheme == "amber" then AmberFill else BlueFill
  }

  function CheckboxColorClass(colorScheme: string): (c: string)
    ensures c == "text-amber-500" <==> colorScheme == "amber"
    ensures c == "text-blue-500" <==> colorScheme != "amber"
  {
    if colorScheme == "amber" then "text-amber-500" else "text-blue-500"
  }

  /** Which blocks of the partner list are rendered. */
  datatype Screen = Screen(emptyMessage: bool, spinner: bool, errorMessage: bool, taskList: bool)

  function PartnerListScreen(isLoading: bool, isError: bool, taskCount: nat): (s: Screen)
    ensures !(s.emptyMessage && s.taskList)
    ensures s.taskList <==> !isLoading && !isError && taskCount > 0
    ensures !isLoading && !isError ==> s.emptyMessage != s.taskList
    ensures s.spinner == isLoading && s.errorMessage == isError
    ensures s.emptyMessage <==> !isLoading && !isError && taskCount == 0
  {
    Screen(
      !isLoading && taskCount == 0 && !isError,
      isLoading,
      isError,
      !isLoading && !isError && taskCount > 0)
  }
}
