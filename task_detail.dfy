/**
 * The task edit screen (app/TaskDetail.tsx): a form initialised from a task,
 * two time pickers that may be cancelled, a validating save and a delete
 * behind a confirmation dialog.
 *
 * Times are integer timestamps. Calls out of the screen (the save and
 * delete callbacks, going back, showing an alert) are returned as a
 * sequence of effects in the order the screen performs them.
 */
module TaskDetail {
  import opened Wrappers

  /**
   * A task record. `others` holds whatever further fields the record
   * carries; the screen passes them through untouched.
   */
  datatype Task = Task(id: string, title: string, startTime: int, endTime: int, important: bool,
                       others: map<string, string>)

  /** What the screen asks of the outside world. */
  datatype Effect =
    | ShowAlert(title: string, message: Option<string>)
    | OnSave(task: Task)
    | OnDelete(id: string)
    | GoBack

  /** The button chosen in the delete confirmation dialog. */
  datatype Choice = Cancel | Delete

  /** The form's state: the edited values and whether each picker is shown. */
  datatype Fields = Fields(title: string, startTime: int, endTime: int, important: bool,
                           showStart: bool, showEnd: bool)

  // ---------------------------------------------------------------------
  // Trimming

  /** The characters JavaScript's `trim` removes: white space and line terminators. */
  predicate IsWhitespace(c: char)
  {
    c == ' ' || c == '\t' || c == '\n' || c == '\r' || c == '\U{B}' || c == '\U{C}' ||
    c == '\U{A0}' || c == '\U{1680}' || ('\U{2000}' <= c <= '\U{200A}') ||
    c == '\U{2028}' || c == '\U{2029}' || c == '\U{202F}' || c == '\U{205F}' ||
    c == '\U{3000}' || c == '\U{FEFF}'
  }

  /** A title with nothing but white space in it (the empty title included). */
  predicate IsBlank(s: string)
  {
    forall i :: 0 <= i < |s| ==> IsWhitespace(s[i])
  }

  /** The index of the first character at or after `i` that is not white space, or `|s|`. */
  function SkipWhitespace(s: string, i: nat): (k: nat)
    requires i <= |s|
    ensures i <= k <= |s|
    ensures forall j :: i <= j < k ==> IsWhitespace(s[j])
    ensures k == |s| || !IsWhitespace(s[k])
    decreases |s| - i
  {
    if i < |s| && IsWhitespace(s[i]) then SkipWhitespace(s, i + 1) else i
  }

  /** The end of `s[..j]` once its trailing white space is dropped. */
  function BackWhitespace(s: string, j: nat): (k: nat)
    requires j <= |s|
    ensures k <= j
    ensures forall i :: k <= i < j ==> IsWhitespace(s[i])
    ensures k == 0 || !IsWhitespace(s[k - 1])
  {
    if j > 0 && IsWhitespace(s[j - 1]) then BackWhitespace(s, j - 1) else j
  }

  /** Drops leading white space: what is left is a suffix that is empty or starts with a non-white-space character. */
  function TrimStart(s: string): (r: string)
    ensures |r| <= |s| && r == s[|s| - |r|..]
    ensures forall i :: 0 <= i < |s| - |r| ==> IsWhitespace(s[i])
    ensures r == [] || !IsWhitespace(r[0])
    ensures r == [] <==> IsBlank(s)
  {
    s[SkipWhitespace(s, 0)..]
  }

  /** Drops trailing white space: what is left is a prefix that is empty or ends with a non-white-space character. */
  function TrimEnd(s: string): (r: string)
    ensures |r| <= |s| && r == s[..|r|]
    ensures forall i :: |r| <= i < |s| ==> IsWhitespace(s[i])
    ensures r == [] || !IsWhitespace(r[|r| - 1])
    ensures r == [] <==> IsBlank(s)
  {
    s[..BackWhitespace(s, |s|)]
  }

  /**
   * `s.trim()`: white space removed from both ends; empty exactly when `s`
   * is blank, and otherwise starting and ending with non-white-space.
   */
  function Trim(s: string): (r: string)
    ensures r == [] <==> IsBlank(s)
    ensures r != [] ==> !IsWhitespace(r[0]) && !IsWhitespace(r[|r| - 1])
    ensures exists a, b :: 0 <= a <= b <= |s| && r == s[a..b] && IsBlank(s[..a]) && IsBlank(s[b..])
  {
    var front := TrimStart(s);
    var r := TrimEnd(front);
    assert r != [] ==> r[0] == front[0];
    assert IsBlank(front) <==> front == [];
    assert r == [] <==> IsBlank(s);
    TrimIsSlice(s, |s| - |front|, front, r);
    r
  }

  /**
   * Dropping `a` leading characters and then everything after the first `k`
   * keeps the slice `s[a..a + k]`; when both dropped parts are white space,
   * the slice has only white space around it.
   */
  lemma TrimIsSlice(s: string, a: nat, front: string, r: string)
    requires a <= |s| && front == s[a..] && |r| <= |front| && r == front[..|r|]
    requires forall i :: 0 <= i < a ==> IsWhitespace(s[i])
    requires forall i :: |r| <= i < |front| ==> IsWhitespace(front[i])
    ensures exists a, b :: 0 <= a <= b <= |s| && r == s[a..b] && IsBlank(s[..a]) && IsBlank(s[b..])
  {
    var b := a + |r|;
    assert r == s[a..b];
    assert IsBlank(s[..a]);
    assert forall j :: b <= j < |s| ==> s[j] == front[j - a];
    assert IsBlank(s[b..]);
  }

  // ---------------------------------------------------------------------
  // Saving and deleting

  /** A task the edit screen accepts: a title that is not blank and an end strictly after the start. */
  predicate ValidTask(t: Task)
  {
    !IsBlank(t.title) && t.startTime < t.endTime
  }

  /** The form as the screen opens it: the task's values, both pickers hidden. */
  function InitialFields(t: Task): (f: Fields)
    ensures f.title == t.title && f.startTime == t.startTime && f.endTime == t.endTime
    ensures f.important == t.important && !f.showStart && !f.showEnd
  {
    Fields(t.title, t.startTime, t.endTime, t.important, false, false)
  }

  /**
   * `saveChanges`: a blank title is reported first, then an end not after
   * the start; otherwise the task, with only its title, times and
   * importance replaced, is handed to the save callback and the screen
   * goes back.
   */
  function SaveChanges(task: Task, f: Fields): (effects: seq<Effect>)
    ensures IsBlank(f.title) ==> effects == [ShowAlert("Missing title", None)]
    ensures !IsBlank(f.title) && f.endTime <= f.startTime ==>
      effects == [ShowAlert("Invalid time", Some("End must be after start"))]
    ensures |effects| >= 1
    ensures effects[0].OnSave? <==> !IsBlank(f.title) && f.startTime < f.endTime
    ensures effects[0].OnSave? ==>
      && |effects| == 2 && effects[1] == GoBack
      && var saved := effects[0].task;
      && saved.id == task.id && saved.others == task.others
      && saved.title == f.title && saved.startTime == f.startTime
      && saved.endTime == f.endTime && saved.important == f.important
    ensures !effects[0].OnSave? ==> |effects| == 1 && effects[0].ShowAlert?
  {
    if Trim(f.title) == [] then [ShowAlert("Missing title", None)]
    else if f.endTime <= f.startTime then [ShowAlert("Invalid time", Some("End must be after start"))]
    else
      var updatedTask := task.(title := f.title, startTime := f.startTime, endTime := f.endTime,
                               important := f.important);
      [OnSave(updatedTask), GoBack]
  }

  /** Whatever the form holds, a task handed to the save callback is a valid task. */
  lemma SavedTaskIsValid(task: Task, f: Fields)
    ensures var effects := SaveChanges(task, f);
      effects[0].OnSave? ==> ValidTask(effects[0].task)
  {
  }

  /** Opening a valid task and saving without edits saves the task exactly as it was. */
  lemma SaveUneditedIsIdentity(task: Task)
    requires ValidTask(task)
    ensures SaveChanges(task, InitialFields(task)) == [OnSave(task), GoBack]
  {
    var effects := SaveChanges(task, InitialFields(task));
    assert effects[0].task == task;
  }

  /** Saving again from the saved record yields the same record: saving is idempotent. */
  lemma SaveIsIdempotent(task: Task, f: Fields)
    requires SaveChanges(task, f)[0].OnSave?
    ensures var saved := SaveChanges(task, f)[0].task;
      SaveChanges(saved, InitialFields(saved)) == [OnSave(saved), GoBack]
  {
    var saved := SaveChanges(task, f)[0].task;
    SaveUneditedIsIdentity(saved);
  }

  /** The confirmation dialog `deleteTask` opens. */
  const DeleteDialog := ShowAlert("Delete Task", Some("Are you sure?"))

  /**
   * `deleteTask`: the confirmation dialog first; then only the "Delete"
   * button deletes the original task and goes back.
   */
  function ConfirmDelete(task: Task, choice: Choice): (effects: seq<Effect>)
    ensures |effects| >= 1 && effects[0] == DeleteDialog
    ensures choice == Cancel ==> effects == [DeleteDialog]
    ensures choice == Delete ==> effects == [DeleteDialog, OnDelete(task.id), GoBack]
    ensures OnDelete(task.id) in effects <==> choice == Delete
  {
    match choice
    case Cancel => [DeleteDialog]
    case Delete => [DeleteDialog, OnDelete(task.id), GoBack]
  }

  // ---------------------------------------------------------------------
  // The screen

  /** The edit screen for one task, holding the form's state fields. */
  class TaskForm {
    const task: Task
    var title: string
    var startTime: int
    var endTime: int
    var important: bool
    var showStart: bool
    var showEnd: bool

    function CurrentFields(): Fields
      reads this
    {
      Fields(title, startTime, endTime, important, showStart, showEnd)
    }

    constructor (task: Task)
      ensures this.task == task && CurrentFields() == InitialFields(task)
    {
      this.task := task;
      title := task.title;
      startTime := task.startTime;
      endTime := task.endTime;
      important := task.important;
      showStart := false;
      showEnd := false;
    }

    /** The title input's `onChangeText`. */
    method SetTitle(text: string)
      modifies this
      ensures CurrentFields() == old(CurrentFields()).(title := text)
    {
      title := text;
    }

    /** The importance switch's `onValueChange`. */
    method SetImportant(value: bool)
      modifies this
      ensures CurrentFields() == old(CurrentFields()).(important := value)
    {
      important := value;
    }

    /** Pressing the start time button shows the start picker. */
    method OpenStartPicker()
      modifies this
      ensures CurrentFields() == old(CurrentFields()).(showStart := true)
    {
      showStart := true;
    }

    /** Pressing the end time button shows the end picker. */
    method OpenEndPicker()
      modifies this
      ensures CurrentFields() == old(CurrentFields()).(showEnd := true)
    {
      showEnd := true;
    }

    /** The start picker's `onChange`: always hides it; a cancelled pick keeps the old time. */
    method OnStartPicked(date: Option<int>)
      modifies this
      ensures !showStart
      ensures date.Some? ==> startTime == date.value
      ensures date.None? ==> startTime == old(startTime)
      ensures title == old(title) && endTime == old(endTime) && important == old(important)
      ensures showEnd == old(showEnd)
    {
      showStart := false;
      if date.Some? {
        startTime := date.value;
      }
    }

    /** The end picker's `onChange`: always hides it; a cancelled pick keeps the old time. */
    method OnEndPicked(date: Option<int>)
      modifies this
      ensures !showEnd
      ensures date.Some? ==> endTime == date.value
      ensures date.None? ==> endTime == old(endTime)
      ensures title == old(title) && startTime == old(startTime) && important == old(important)
      ensures showStart == old(showStart)
    {
      showEnd := false;
      if date.Some? {
        endTime := date.value;
      }
    }

    /** The Save button. */
    method Save() returns (effects: seq<Effect>)
      ensures effects == SaveChanges(task, CurrentFields())
    {
      if Trim(title) == [] {
        return [ShowAlert("Missing title", None)];
      }
      if endTime <= startTime {
        return [ShowAlert("Invalid time", Some("End must be after start"))];
      }
      var updatedTask := task.(title := title, startTime := startTime, endTime := endTime,
                               important := important);
      effects := [OnSave(updatedTask), GoBack];
    }

    /** The Delete button, resolved by the button chosen in the confirmation dialog. */
    method DeleteTask(choice: Choice) returns (effects: seq<Effect>)
      ensures effects == ConfirmDelete(task, choice)
    {
      effects := [DeleteDialog];
      if choice == Delete {
        effects := effects + [OnDelete(task.id), GoBack];
      }
    }
  }
}
