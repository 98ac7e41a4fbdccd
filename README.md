# DayPilot: onboarding walkthrough and task edit screen, in Dafny

DayPilot is a daily-planning mobile app. This project models two pieces of
its logic and proves properties of them.

- **The onboarding walkthrough** (`components/Onboarding.tsx`). A fixed
  table of six steps, each tied to one screen (`(tabs)`, `plan` or
  `settings`). An overlay holds three state fields: `visible`,
  `currentStepIndex` and `completed`.
  - The buttons (Next, Skip), the stored completion flag and route changes
    drive those fields.
  - The current screen is the last `/`-separated segment of the route, or
    `(tabs)` when that segment is empty.
  - The tooltip is placed first-fit in one of four zones around the
    spotlight (above, below, left, right). When none fits, it falls back to
    a bottom-anchored, centred box.
- **The task edit screen** (`app/TaskDetail.tsx`). A form initialised from
  a task, with two time pickers that can be cancelled.
  - Save checks the title (not blank after trimming) and then the times
    (end strictly after start). Only then does it hand the updated record to
    the save callback and go back.
  - Delete acts only after the user confirms.

Files:
- `wrappers.dfy`: module `Wrappers`, an `Option` type.
- `tooltip.dfy`: module `Tooltip`, `calculateTooltipPosition` and
  `parseValue`, as pure functions.
- `onboarding.dfy`: module `Onboarding`. It holds:
  - the steps table and the route-to-screen computation;
  - the state machine as pure transition functions over `State`, which serve
    as the specification;
    they are stated for any steps table, and the component runs them on the
    app's six steps;
  - the component as the class `OnboardingOverlay`, whose methods update the
    three fields and are proved equal to those transitions;
  - lemmas over whole sequences of events.
- `task_detail.dfy`: module `TaskDetail`. It holds trimming, the save
  validator and record update, and the delete confirmation. The form state
  is the class `TaskForm`, whose methods are the input and picker handlers.

Calls out of the code are explicit inputs and outputs:
- AsyncStorage reads are a `ReadOutcome` (failed, missing, stored value).
  Writes and removals are a success flag. A failed call leaves the state as
  it was, as the source's `catch` blocks do.
- `router.push` is the returned name of the screen to navigate to. The route
  change that follows is a separate `RouteChanged` event.
- `onSave`, `onDelete`, `navigation.goBack` and `Alert.alert` are `Effect`
  values, listed in the order the screen performs them. The delete
  confirmation is such an alert. The button the user presses in it is an
  input, `Choice`.
- The window size is a pair of parameters. A picker result is
  `Option<int>`: a timestamp, or `None` for a cancelled pick.

## Model

| member | source | states |
|---|---|---|
| Tooltip.ParseValue | components/Onboarding.tsx:221-226 | a percentage resolves to pct/100 × total, a number to itself, an absent value to 0; a percentage in [0,100] of a non-negative extent stays within [0, total] |
| Tooltip.FirstFit | components/Onboarding.tsx:257-268 | returns the index of the first zone that fits, with no fitting zone before it, or none exactly when no zone fits |
| Tooltip.CalculateTooltipPosition | components/Onboarding.tsx:213-277 | always 280 wide and 160 high; chooses above, then below, then left, then right, the first whose fit condition holds, at that zone's coordinates; is bottom-anchored at MARGIN and centred exactly when no zone fits; a top-anchored tooltip never overlaps the spotlight |
| Onboarding.LastSegment | components/Onboarding.tsx:90 | the result contains no '/', is a suffix of the path, and is either the whole path or preceded by a '/' |
| Onboarding.LastSegmentUnique | components/Onboarding.tsx:90 | those three properties determine the last segment uniquely |
| Onboarding.Split | components/Onboarding.tsx:90 | `split('/')` yields at least one piece, and no piece contains '/' |
| Onboarding.JoinSplit | components/Onboarding.tsx:90 | joining the pieces of `split('/')` with '/' between them gives the path back, so the split loses nothing but the separators |
| Onboarding.SplitPopIsLastSegment | components/Onboarding.tsx:90 | the last piece of `split('/')` (what `pop()` returns) is LastSegment |
| Onboarding.ScreenOf | components/Onboarding.tsx:90 | the current screen is never empty and has no '/'; it is the last segment when that is non-empty and `(tabs)` otherwise |
| Onboarding.RouteScreens | components/Onboarding.tsx:90 | the routes `/`, `/plan` and `/settings` are on the screens `(tabs)`, `plan` and `settings` |
| Onboarding.StepsOn | components/Onboarding.tsx:91-93 | the filter keeps exactly the steps whose screen matches, and is no longer than the table |
| Onboarding.FindStep | components/Onboarding.tsx:99-101 | `findIndex`: the first step whose screen matches, or none when no step matches |
| Onboarding.StepsOnAgreesWithFind | components/Onboarding.tsx:95-104 | the filter is non-empty exactly when `findIndex` finds a step, so the `firstStepIndex >= 0` guard always passes |
| Onboarding.CheckCompleted | components/Onboarding.tsx:108-118 | a missing stored flag sets completed false and visible true, keeping the index; a stored flag or a failed read changes nothing |
| Onboarding.Complete | components/Onboarding.tsx:120-128 | a successful write sets completed and hides the overlay, keeping the index; a failed write changes nothing |
| Onboarding.Reset | components/Onboarding.tsx:150-159 | a successful removal gives visible, index 0, not completed; a failed one changes nothing; the index stays in bounds |
| Onboarding.Next | components/Onboarding.tsx:130-144 | before the last step: the index advances by exactly one, nothing else changes, and navigation to the next step's screen is requested exactly when that screen differs from the current one; on the last step: the result is Complete, with no navigation; the index stays in bounds |
| Onboarding.ScreenChanged | components/Onboarding.tsx:88-106 | the step index stays within the table |
| Onboarding.ScreenChangedShowsFirstStep | components/Onboarding.tsx:88-106 | when not completed and some step belongs to the current screen: visible, still not completed, and the index is the first step of that screen; when completed or no step belongs to the screen: nothing changes |
| Onboarding.Dots | components/Onboarding.tsx:195-203 | one dot per step, and a dot is active exactly at the current index |
| Onboarding.OneActiveDot | components/Onboarding.tsx:195-203 | the set of active dots is exactly the singleton of the current index |
| Onboarding.Render | components/Onboarding.tsx:161-189 | renders nothing exactly when not visible or completed; otherwise shows the current step, its tooltip placement and the dots; the label is "Done" exactly on the last step and "Next" on every other |
| Onboarding.RunKeepsIndexInBounds | components/Onboarding.tsx:84-159 | after any sequence of checks, Next and Skip presses, resets and route changes, the step index is still within the table |
| Onboarding.CompletedIsSticky | components/Onboarding.tsx:95-159 | once completed, the walkthrough stays completed, so it renders nothing, until a successful reset or a read that finds no stored flag |
| Onboarding.PressingNextFinishes | components/Onboarding.tsx:130-144 | from any step, pressing Next once per remaining step (the last press included), with the writes succeeding, ends at the last step, completed and hidden, whatever the route |
| Onboarding.OnlyFirstStepIsHome | components/Onboarding.tsx:32-76 | step 0 is the only step of the `(tabs)` screen |
| Onboarding.HomeShowsFirstStep | components/Onboarding.tsx:32-106 | from any state not yet completed, arriving on the home route makes the walkthrough visible at step 0 |
| Onboarding.PlanShowsSecondStep | components/Onboarding.tsx:32-106 | from any state not yet completed, arriving on the plan route makes the walkthrough visible at step 1, the first `plan` step |
| Onboarding.SettingsShowsFifthStep | components/Onboarding.tsx:32-106 | from any state not yet completed, arriving on the settings route makes the walkthrough visible at step 4, the first `settings` step |
| Onboarding.FullWalkthrough | components/Onboarding.tsx:32-144 | after a reset on the home route, following each navigation request: Next navigates to "plan" at step 1 and to "settings" at step 4, and nowhere else; the sixth press completes |
| Onboarding.OnboardingOverlay.constructor | components/Onboarding.tsx:78-80 | mounts hidden, at step 0, presumed completed, over the app's six-step table |
| Onboarding.OnboardingOverlay.CheckIfOnboardingCompleted | components/Onboarding.tsx:108-118 | updates the fields as CheckCompleted does |
| Onboarding.OnboardingOverlay.CompleteOnboarding | components/Onboarding.tsx:120-128 | updates the fields as Complete does |
| Onboarding.OnboardingOverlay.HandleNext | components/Onboarding.tsx:130-144 | updates the fields to Advance of the old state and returns NavigationRequest of it: the two components of Next, whose contract states the advance, the navigation condition and the completion on the last step |
| Onboarding.OnboardingOverlay.HandleSkip | components/Onboarding.tsx:146-148 | updates the fields as Complete does |
| Onboarding.OnboardingOverlay.ResetOnboarding | components/Onboarding.tsx:150-159 | updates the fields as Reset does |
| Onboarding.OnboardingOverlay.OnScreenChange | components/Onboarding.tsx:88-106 | updates the fields as ScreenChanged does |
| TaskDetail.TrimStart | app/TaskDetail.tsx:20 | drops exactly the leading white space: what remains is a suffix, all that was dropped is white space, and the result is empty or starts with a non-white-space character; it is empty exactly when the text is blank |
| TaskDetail.TrimEnd | app/TaskDetail.tsx:20 | drops exactly the trailing white space, the mirror of TrimStart; empty exactly when the text is blank |
| TaskDetail.Trim | app/TaskDetail.tsx:20 | the trimmed title is a slice of the title with only white space before and after it; it is empty exactly when the title is blank, and otherwise starts and ends with a non-white-space character |
| TaskDetail.TrimIsSlice | app/TaskDetail.tsx:20 | dropping white space from the front and then from the back leaves a slice of the text with only white space around it |
| TaskDetail.InitialFields | app/TaskDetail.tsx:12-17 | the form starts with the task's title, start, end and importance, with both pickers hidden |
| TaskDetail.SaveChanges | app/TaskDetail.tsx:19-26 | a blank title yields only the "Missing title" alert, whatever the times; a non-blank title with end <= start yields only the "Invalid time" alert; otherwise the save callback receives the task with the same id and other fields and only title (untrimmed), start, end and importance replaced, followed by going back; a save happens exactly when the title is non-blank and start < end |
| TaskDetail.SavedTaskIsValid | app/TaskDetail.tsx:19-26 | every record handed to the save callback has a non-blank title and an end strictly after its start |
| TaskDetail.SaveUneditedIsIdentity | app/TaskDetail.tsx:12-26 | opening a valid task and saving with no edits saves the task exactly as it was |
| TaskDetail.SaveIsIdempotent | app/TaskDetail.tsx:12-26 | reopening a saved record and saving it again saves the same record |
| TaskDetail.ConfirmDelete | app/TaskDetail.tsx:28-38 | the "Delete Task" / "Are you sure?" dialog always comes first; after "Cancel" nothing else happens; after "Delete" the delete callback receives the original task's id and the screen goes back; the delete callback is called exactly when "Delete" is chosen |
| TaskDetail.TaskForm.constructor | app/TaskDetail.tsx:12-17 | the form's fields are the initial fields of the task |
| TaskDetail.TaskForm.SetTitle | app/TaskDetail.tsx:43 | replaces the title and nothing else |
| TaskDetail.TaskForm.SetImportant | app/TaskDetail.tsx:73 | replaces the importance flag and nothing else |
| TaskDetail.TaskForm.OpenStartPicker | app/TaskDetail.tsx:46 | shows the start picker and changes nothing else |
| TaskDetail.TaskForm.OpenEndPicker | app/TaskDetail.tsx:59 | shows the end picker and changes nothing else |
| TaskDetail.TaskForm.OnStartPicked | app/TaskDetail.tsx:51-54 | always hides the start picker; sets the start time only when a date is supplied, so a cancelled pick keeps the old time; leaves the other fields alone |
| TaskDetail.TaskForm.OnEndPicked | app/TaskDetail.tsx:64-67 | always hides the end picker; sets the end time only when a date is supplied; leaves the other fields alone |
| TaskDetail.TaskForm.Save | app/TaskDetail.tsx:19-26 | produces the effects SaveChanges gives for the form's current fields |
| TaskDetail.TaskForm.DeleteTask | app/TaskDetail.tsx:28-38 | produces the effects ConfirmDelete gives for the button chosen in the dialog |

## Left out

- The timeline overlap layout engine of the daily schedule view is not part of this model. Its source is not among the modelled files.
- Rendering is left out: JSX, the `StyleSheet` definitions, the Modal and SafeAreaView layout, and the step body texts. Render keeps only what the markup decides: whether anything shows, the step, the button label, the dots and the tooltip placement.
- AsyncStorage is replaced by its outcomes: a `ReadOutcome` for the read, a success flag for the write and for the removal. The stored key and value are not modelled.
- `resetOnboardingStatus` is not modelled. It only removes the stored key and reports whether that worked.
- `console.error` logging is not modelled.
- `parseFloat` is not modelled. A spotlight dimension arrives as `Pct`, `Px` or `Unset`. A string without '%', which `parseValue` would return unparsed, cannot occur in the steps table and is not modelled.
- Pixel arithmetic uses exact reals, not JavaScript floating point, so rounding is not modelled.
- React scheduling is not modelled. Each effect is a transition the caller invokes in sequence: the mount read is `Checked`, the route/`completed` effect is `RouteChanged`. Re-runs and asynchronous interleaving of state updates are not.
- `router.push` returns only the target screen name. The route it leads to is supplied by the caller. The lemma FullWalkthrough assumes the route `/` + screen.
- Times are integer timestamps. `date-fns` formatting of the button titles is not modelled. The native picker's time-only mode (keeping the date part) is not modelled either.
- The delete dialog is the effect `ShowAlert("Delete Task", Some("Are you sure?"))`, and the button the user presses in it is the `choice` parameter. The dialog has only its two buttons. Dismissing it in any other way is treated like "Cancel", which changes nothing in the source too. The button styles are not modelled.
- The form holds times as integer timestamps, so `new Date(task.startTime)` is always a valid date in the model. In the source it can be an Invalid Date (NaN). Then `endTime <= startTime` is false, so such a record is saved with invalid times.
- SavedTaskIsValid: its "end strictly after start" holds for valid timestamps only, because of the Invalid Date case above.
- SaveUneditedIsIdentity: "saves the task exactly as it was" holds for timestamp values only. The source hands `onSave` new `Date` objects in place of the task's original time values.
- Task records carry further fields only as an opaque `others` map. The edit screen never reads or changes them.
