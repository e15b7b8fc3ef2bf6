/** The rules of the user's own task list: the age badge, which blocks are
    shown, the requests its handlers send, and the add/edit form state. */
module TaskListView {
  import opened Wrappers
  import opened Tasks
  import opened JsText
  import opened TaskUpdaters

  const MsPerDay: int := 1000 * 60 * 60 * 24

  /** The badge of `getRelativeTime`: `null`, `…w old`, `…m old` or `…y old`. */
  datatype AgeBadge = NoBadge | WeeksOld(weeks: nat) | MonthsOld(months: nat) | YearsOld(years: nat)

  function Abs(x: int): nat {
    if x < 0 then -x else x
  }

  /** The buckets of `getRelativeTime` on a whole number of days. */
  function BadgeForDays(days: nat): (b: AgeBadge)
    ensures b.NoBadge? <==> days < 7
    ensures 7 <= days < 30 ==> b.WeeksOld? && 1 <= b.weeks <= 4
    ensures 30 <= days < 365 ==> b.MonthsOld? && 1 <= b.months <= 12
    ensures 365 <= days ==> b.YearsOld? && b.years >= 1
    ensures b.WeeksOld? ==> 7 * b.weeks <= days < 7 * (b.weeks + 1)
    ensures b.MonthsOld? ==> 30 * b.months <= days < 30 * (b.months + 1)
    ensures b.YearsOld? ==> 365 * b.years <= days < 365 * (b.years + 1)
  {
    if days < 7 then NoBadge
    else if days < 30 then WeeksOld(days / 7)
    else if days < 365 then MonthsOld(days / 30)
    else YearsOld(days / 365)
  }

  /** `getRelativeTime`, with both instants as milliseconds: the absolute
      difference, floored to whole days, then bucketed. */
  function RelativeTime(now: Millis, created: Millis): AgeBadge {
    BadgeForDays(Abs(now - created) / MsPerDay)
  }

  /** No badge exactly when the two instants are less than a week apart. */
  lemma RelativeTimeNoBadgeIff(now: Millis, created: Millis)
    ensures RelativeTime(now, created).NoBadge? <==> Abs(now - created) < 7 * MsPerDay
  {
    var days := Abs(now - created) / MsPerDay;
    assert days * MsPerDay <= Abs(now - created) < (days + 1) * MsPerDay;
  }

  /** A date as far in the future gets the same badge as one in the past. */
  lemma RelativeTimeIgnoresDirection(now: Millis, distance: nat)
    ensures RelativeTime(now, now - distance) == RelativeTime(now, now + distance)
  {
  }

  /** The badge of a row: shown only for an incomplete task whose age has
      one. */
  function RowBadge(t: Task, now: Millis): (r: Option<AgeBadge>)
    ensures r.Some? <==> !t.completed && !RelativeTime(now, t.created).NoBadge?
    ensures r.Some? ==> r.value == RelativeTime(now, t.created)
  {
    var b := RelativeTime(now, t.created);
    if b.NoBadge? || t.completed then None else Some(b)
  }

  /** The `{ taskId, taskData }` an update is called with. */
  datatype UpdateVariables = UpdateVariables(taskId: TaskId, taskData: Patch)

  /** `handleToggleTask`: only `completed`, negated, for that task's id. */
  function ToggleRequest(t: Task): (r: UpdateVariables)
    ensures r.taskId == t.id
    ensures r.taskData.description.None?
    ensures r.taskData.completed == Some(!t.completed)
  {
    UpdateVariables(t.id, Patch(None, Some(!t.completed)))
  }

  /** Applied optimistically, a toggle flips the toggled task's `completed`
      and nothing else, and leaves every task with another id alone. */
  lemma ToggleFlipsOnlyThatTask(tasks: seq<Task>, i: nat)
    requires i < |tasks|
    ensures var r := ToggleRequest(tasks[i]);
            var after := UpdateTasks(tasks, r.taskId, r.taskData);
            |after| == |tasks|
            && after[i] == tasks[i].(completed := !tasks[i].completed)
            && forall j :: 0 <= j < |tasks| && tasks[j].id != tasks[i].id ==> after[j] == tasks[j]
  {
    var r := ToggleRequest(tasks[i]);
    UpdateTasksPointwise(tasks, r.taskId, r.taskData);
  }

  /** Which blocks of the list are rendered. */
  datatype Screen = Screen(readyMessage: bool, spinner: bool, errorMessage: bool, taskPanel: bool)

  function TaskListScreen(isLoading: bool, isError: bool, taskCount: nat, showAddForm: bool)
    : (s: Screen)
    ensures !(s.readyMessage && s.taskPanel)
    ensures !isLoading && !isError ==> s.readyMessage != s.taskPanel
    ensures s.readyMessage || s.taskPanel ==> !s.spinner && !s.errorMessage
    ensures s.spinner == isLoading && s.errorMessage == isError
    ensures s.readyMessage ==> taskCount == 0 && !showAddForm
    ensures s.readyMessage <==> !isLoading && !isError && taskCount == 0 && !showAddForm
    ensures s.taskPanel <==> !isLoading && !isError && (taskCount > 0 || showAddForm)
  {
    Screen(
      !isLoading && taskCount == 0 && !isError && !showAddForm,
      isLoading,
      isError,
      !isLoading && !isError && (taskCount > 0 || showAddForm))
  }

  /** The text of the error block: the error's message, or the fallback
      when there is no error or its message is empty. */
  function ErrorText(error: Option<Error>, fallback: string): (s: string)
    ensures error.Some? && error.value.message != "" ==> s == error.value.message
    ensures error.None? || error.value.message == "" ==> s == fallback
  {
    if error.Some? && error.value.message != "" then error.value.message else fallback
  }

  /** The submit button of the add form is disabled while a create is in
      flight or while the text is blank; enabled, a submit always creates. */
  function AddDisabled(isCreating: bool, text: string): (d: bool)
    ensures d <==> isCreating || AllSpace(text)
  {
    TrimBlankIff(text);
    isCreating || Trim(text) == ""
  }

  /** Whether the `t`/`T` shortcut opens the add form. */
  predicate OpensForm(key: string, targetTag: string, showAddForm: bool, editing: bool) {
    (key == "t" || key == "T")
    && !(targetTag == "INPUT" || targetTag == "TEXTAREA")
    && !showAddForm
    && !editing
  }

  /** The form state of the list component. */
  class TaskListForm {
    var showAddForm: bool
    var newTaskDescription: string
    var editingTaskId: Option<TaskId>
    var editingText: string

    constructor ()
      ensures !showAddForm && newTaskDescription == ""
      ensures editingTaskId.None? && editingText == ""
    {
      showAddForm := false;
      newTaskDescription := "";
      editingTaskId := None;
      editingText := "";
    }

    /** A task is being edited: `editingTaskId` is truthy. */
    predicate Editing()
      reads this
    {
      Present(editingTaskId)
    }

    /** The window keydown handler. Both branches read the state as it was
        before the key. */
    method KeyDown(key: string, targetTag: string)
      modifies this
      ensures OpensForm(key, targetTag, old(showAddForm), old(Editing())) ==>
                showAddForm && newTaskDescription == old(newTaskDescription)
                && editingTaskId == old(editingTaskId) && editingText == old(editingText)
      ensures key == "Escape" ==>
                !showAddForm
                && newTaskDescription == (if old(showAddForm) then "" else old(newTaskDescription))
                && !Editing()
                && editingTaskId == (if old(Editing()) then None else old(editingTaskId))
                && editingText == (if old(Editing()) then "" else old(editingText))
      ensures !OpensForm(key, targetTag, old(showAddForm), old(Editing())) && key != "Escape" ==>
                unchanged(this)
    {
      var wasShowing, wasEditing := showAddForm, Editing();
      if OpensForm(key, targetTag, wasShowing, wasEditing) {
        showAddForm := true;
      }
      if key == "Escape" {
        if wasShowing {
          showAddForm := false;
          newTaskDescription := "";
        }
        if wasEditing {
          editingTaskId := None;
          editingText := "";
        }
      }
    }

    /** A click on a task's description: editing starts only on an
        incomplete task, seeded with its description. */
    method ClickDescription(t: Task)
      modifies this
      ensures !t.completed ==> editingTaskId == Some(t.id) && editingText == t.description
      ensures !t.completed ==>
                showAddForm == old(showAddForm) && newTaskDescription == old(newTaskDescription)
      ensures t.completed ==> unchanged(this)
    {
      if !t.completed {
        editingTaskId := Some(t.id);
        editingText := t.description;
      }
    }

    /** `saveEditedTask`: with an edited id and a non-blank text, sends the
        trimmed text as the new description and leaves edit mode; otherwise
        does nothing. */
    method SaveEditedTask() returns (request: Option<UpdateVariables>)
      modifies this
      ensures request.Some? <==> old(Editing()) && !AllSpace(old(editingText))
      ensures request.Some? ==>
                request.value == UpdateVariables(old(editingTaskId).value,
                                                 Patch(Some(Trim(old(editingText))), None))
                && request.value.taskData.description.value != ""
                && editingTaskId.None? && editingText == ""
                && showAddForm == old(showAddForm)
                && newTaskDescription == old(newTaskDescription)
      ensures request.None? ==> unchanged(this)
    {
      TrimBlankIff(editingText);
      if Editing() && Trim(editingText) != "" {
        request := Some(UpdateVariables(editingTaskId.value, Patch(Some(Trim(editingText)), None)));
        editingTaskId := None;
        editingText := "";
      } else {
        request := None;
      }
    }

    /** The keydown handler of the edit field: Enter saves, as
        `SaveEditedTask` does; any other key does nothing. */
    method EditKeyDown(key: string) returns (request: Option<UpdateVariables>)
      modifies this
      ensures key != "Enter" ==> request.None? && unchanged(this)
      ensures key == "Enter" ==>
                (request.Some? <==> old(Editing()) && !AllSpace(old(editingText)))
      ensures request.Some? ==>
                request.value == UpdateVariables(old(editingTaskId).value,
                                                 Patch(Some(Trim(old(editingText))), None))
                && editingTaskId.None? && editingText == ""
                && showAddForm == old(showAddForm)
                && newTaskDescription == old(newTaskDescription)
      ensures request.None? ==> unchanged(this)
    {
      if key == "Enter" {
        request := SaveEditedTask();
      } else {
        request := None;
      }
    }

    /** `handleAddTask`: a blank text creates nothing; otherwise the form
        closes, its text clears, and the create gets the trimmed text,
        not completed. */
    method AddTask() returns (input: Option<TaskInput>)
      modifies this
      ensures input.Some? <==> !AllSpace(old(newTaskDescription))
      ensures input.Some? ==>
                input.value == TaskInput(Trim(old(newTaskDescription)), false, None)
                && input.value.description != ""
                && Trim(input.value.description) == input.value.description
                && !showAddForm && newTaskDescription == ""
                && editingTaskId == old(editingTaskId) && editingText == old(editingText)
      ensures input.None? ==> unchanged(this)
    {
      TrimBlankIff(newTaskDescription);
      var text := Trim(newTaskDescription);
      if text == "" {
        input := None;
      } else {
        TrimIdempotent(newTaskDescription);
        newTaskDescription := "";
        showAddForm := false;
        input := Some(TaskInput(text, false, None));
      }
    }

    /** A mouse press while the add form is shown. The input is mounted
        only while the task panel is rendered (`inputMounted`); a press
        outside a mounted input and not on a button hides the form and
        discards its text. With the input unmounted nothing happens. */
    method MouseDownWithFormOpen(inputMounted: bool, insideInput: bool, onButton: bool)
      modifies this
      ensures old(showAddForm) && inputMounted && !insideInput && !onButton ==>
                !showAddForm && newTaskDescription == ""
                && editingTaskId == old(editingTaskId) && editingText == old(editingText)
      ensures !(old(showAddForm) && inputMounted && !insideInput && !onButton) ==> unchanged(this)
    {
      if showAddForm && inputMounted && !insideInput && !onButton {
        showAddForm := false;
        newTaskDescription := "";
      }
    }

    /** The "Add Task" button. */
    method OpenAddForm()
      modifies this
      ensures showAddForm
      ensures newTaskDescription == old(newTaskDescription)
      ensures editingTaskId == old(editingTaskId) && editingText == old(editingText)
    {
      showAddForm := true;
    }

    /** The "Cancel" button: hides the form and keeps its text. */
    method CancelAddForm()
      modifies this
      ensures !showAddForm
      ensures newTaskDescription == old(newTaskDescription)
      ensures editingTaskId == old(editingTaskId) && editingText == old(editingText)
    {
      showAddForm := false;
    }

    /** Typing in the add field. */
    method TypeNewTask(text: string)
      modifies this
      ensures newTaskDescription == text && showAddForm == old(showAddForm)
      ensures editingTaskId == old(editingTaskId) && editingText == old(editingText)
    {
      newTaskDescription := text;
    }

    /** Typing in the edit field. */
    method TypeEditText(text: string)
      modifies this
      ensures editingText == text && editingTaskId == old(editingTaskId)
      ensures showAddForm == old(showAddForm) && newTaskDescription == old(newTaskDescription)
    {
      editingText := text;
    }
  }
}
