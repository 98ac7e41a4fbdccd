/**
 * The onboarding walkthrough overlay (components/Onboarding.tsx): a fixed
 * table of six steps, each shown on one screen, and three pieces of state,
 * `visible`, `currentStepIndex` and `completed`, driven by the buttons, the
 * stored completion flag and changes of the current route.
 *
 * Storage calls are modelled by their outcome (a success flag, or what a read
 * returned); a navigation request is returned as the name of the target
 * screen. Each React effect is one explicit transition.
 */
module Onboarding {
  import opened Wrappers
  import opened Tooltip

  /** One walkthrough step: what it says, what it spotlights, and the screen it belongs to. */
  datatype Step = Step(id: string, title: string, position: Spotlight, screen: string)

  const Steps: seq<Step> := [
    Step("home-intro", "Welcome to DayPilot!",
         Spotlight(Pct(0.0), Pct(0.0), Pct(100.0), Pct(30.0)), "(tabs)"),
    Step("current-task", "The Plan Tab",
         Spotlight(Pct(93.0), Pct(35.0), Pct(30.0), Pct(7.0)), "plan"),
    Step("plan-tab", "Create Your Tasks",
         Spotlight(Pct(0.0), Pct(0.0), Pct(100.0), Pct(55.0)), "plan"),
    Step("add-task", "Calendar",
         Spotlight(Pct(50.0), Pct(0.0), Pct(100.0), Pct(100.0)), "plan"),
    Step("schedule-view", "Settings Tab",
         Spotlight(Pct(0.0), Pct(0.0), Pct(100.0), Pct(100.0)), "settings"),
    Step("settings", "Daily Reminders",
         Spotlight(Pct(18.0), Pct(2.0), Pct(95.0), Pct(12.0)), "settings")
  ]

  /** Screen name used when the route's last segment is empty. */
  const RootScreen := "(tabs)"

  // ---------------------------------------------------------------------
  // The current screen of a route

  /** The text after the last '/' of a path (the whole path when it has none). */
  function LastSegment(path: string): (seg: string)
    ensures '/' !in seg
    ensures |seg| <= |path| && seg == path[|path| - |seg|..]
    ensures seg == path || path[|path| - |seg| - 1] == '/'
  {
    if path == [] then []
    else if path[|path| - 1] == '/' then []
    else LastSegment(path[..|path| - 1]) + [path[|path| - 1]]
  }

  /** The three properties of LastSegment determine it: no other suffix has them. */
  lemma {:induction false} LastSegmentUnique(path: string, seg: string)
    requires '/' !in seg
    requires |seg| <= |path| && seg == path[|path| - |seg|..]
    requires seg == path || path[|path| - |seg| - 1] == '/'
    ensures seg == LastSegment(path)
  {
    if path == [] {
    } else if path[|path| - 1] == '/' {
    } else {
      assert seg != [];
      var init := path[..|path| - 1];
      var segInit := seg[..|seg| - 1];
      assert segInit == init[|init| - |segInit|..];
      if seg != path {
        assert init[|init| - |segInit| - 1] == path[|path| - |seg| - 1];
      } else {
        assert segInit == init;
      }
      LastSegmentUnique(init, segInit);
      assert seg == segInit + [path[|path| - 1]];
    }
  }

  /** `path.split('/')`: the pieces between separators, empty pieces included. */
  function Split(path: string): (parts: seq<string>)
    ensures |parts| >= 1
    ensures forall k :: 0 <= k < |parts| ==> '/' !in parts[k]
  {
    if path == [] then [[]]
    else
      var init := Split(path[..|path| - 1]);
      var c := path[|path| - 1];
      if c == '/' then init + [[]]
      else init[..|init| - 1] + [init[|init| - 1] + [c]]
  }

  /** The pieces put back together with '/' between them. */
  function Join(parts: seq<string>): string
    requires |parts| >= 1
  {
    if |parts| == 1 then parts[0]
    else Join(parts[..|parts| - 1]) + ['/'] + parts[|parts| - 1]
  }

  /** Joining the pieces of a split gives the path back. */
  lemma {:induction false} JoinSplit(path: string)
    ensures Join(Split(path)) == path
  {
    if path != [] {
      var prefix := path[..|path| - 1];
      var c := path[|path| - 1];
      assert path == prefix + [c];
      var init := Split(prefix);
      JoinSplit(prefix);
      if c == '/' {
        assert Split(path) == init + [[]];
        JoinNewPiece(init);
      } else {
        assert Split(path) == init[..|init| - 1] + [init[|init| - 1] + [c]];
        JoinExtendLastPiece(init, c);
      }
    }
  }

  /** Starting a new, empty piece adds one '/'. */
  lemma JoinNewPiece(parts: seq<string>)
    requires |parts| >= 1
    ensures Join(parts + [[]]) == Join(parts) + ['/']
  {
    assert (parts + [[]])[..|parts|] == parts;
  }

  /** Extending the last piece extends the joined text. */
  lemma JoinExtendLastPiece(parts: seq<string>, c: char)
    requires |parts| >= 1
    ensures Join(parts[..|parts| - 1] + [parts[|parts| - 1] + [c]]) == Join(parts) + [c]
  {
    var extended := parts[..|parts| - 1] + [parts[|parts| - 1] + [c]];
    if |parts| > 1 {
      assert extended[..|extended| - 1] == parts[..|parts| - 1];
    }
  }

  /** Taking the last piece of the split (`pop()`) is LastSegment. */
  lemma {:induction false} SplitPopIsLastSegment(path: string)
    ensures var parts := Split(path); parts[|parts| - 1] == LastSegment(path)
  {
    if path != [] {
      SplitPopIsLastSegment(path[..|path| - 1]);
    }
  }

  /** `pathname.split('/').pop() || '(tabs)'`. */
  function ScreenOf(path: string): (screen: string)
    ensures screen != [] && '/' !in screen
    ensures LastSegment(path) == [] ==> screen == RootScreen
    ensures LastSegment(path) != [] ==> screen == LastSegment(path)
  {
    var seg := LastSegment(path);
    if seg == [] then
      RootScreenIsASegment();
      RootScreen
    else seg
  }

  /** The root screen's name is a non-empty name without '/'. */
  lemma RootScreenIsASegment()
    ensures RootScreen != [] && '/' !in RootScreen
  {
    assert RootScreen == ['(', 't', 'a', 'b', 's', ')'];
  }

  // ---------------------------------------------------------------------
  // Steps of a screen
  //
  // The transitions below are stated for any steps table `steps`; the
  // component runs them on `Steps`.

  /** `onboardingSteps.filter(step => step.screen === screen)`. */
  function StepsOn(steps: seq<Step>, screen: string): (r: seq<Step>)
    ensures |r| <= |steps|
    ensures forall st :: st in r <==> st in steps && st.screen == screen
  {
    if steps == [] then []
    else if steps[0].screen == screen then [steps[0]] + StepsOn(steps[1..], screen)
    else StepsOn(steps[1..], screen)
  }

  /** `onboardingSteps.findIndex(step => step.screen === screen)`, searching from `from`. */
  function FindStep(steps: seq<Step>, screen: string, from: nat): (k: Option<nat>)
    requires from <= |steps|
    ensures k.Some? ==> from <= k.value < |steps| && steps[k.value].screen == screen
    ensures k.Some? ==> forall j :: from <= j < k.value ==> steps[j].screen != screen
    ensures k.None? ==> forall j :: from <= j < |steps| ==> steps[j].screen != screen
    decreases |steps| - from
  {
    if from == |steps| then None
    else if steps[from].screen == screen then Some(from)
    else FindStep(steps, screen, from + 1)
  }

  lemma {:induction false} NoStepsOn(steps: seq<Step>, screen: string)
    requires forall i :: 0 <= i < |steps| ==> steps[i].screen != screen
    ensures StepsOn(steps, screen) == []
  {
    if steps != [] {
      NoStepsOn(steps[1..], screen);
    }
  }

  /** The filter is non-empty exactly when the search finds a step. */
  lemma StepsOnAgreesWithFind(steps: seq<Step>, screen: string)
    ensures |StepsOn(steps, screen)| > 0 <==> FindStep(steps, screen, 0).Some?
  {
    var found := FindStep(steps, screen, 0);
    if found.Some? {
      assert steps[found.value] in StepsOn(steps, screen);
    } else {
      NoStepsOn(steps, screen);
    }
  }

  // ---------------------------------------------------------------------
  // The state machine

  /** The overlay's state: `visible`, `currentStepIndex`, `completed`. */
  datatype State = State(visible: bool, stepIndex: nat, completed: bool)

  /** What reading the completion flag from storage produced. */
  datatype ReadOutcome = ReadFailed | Missing | Stored(value: string)

  /** The state on mount, before storage has been read. */
  const Initial := State(false, 0, true)

  /** The step index designates a step of the table. */
  predicate Inv(steps: seq<Step>, s: State) { s.stepIndex < |steps| }

  /** `checkIfOnboardingCompleted`: an absent flag starts the walkthrough. */
  function CheckCompleted(s: State, read: ReadOutcome): (r: State)
    ensures read.Missing? ==> !r.completed && r.visible && r.stepIndex == s.stepIndex
    ensures !read.Missing? ==> r == s
  {
    if read.Missing? then s.(completed := false, visible := true) else s
  }

  /** `completeOnboarding` (and `handleSkip`): when the flag is stored, hide for good. */
  function Complete(s: State, writeOk: bool): (r: State)
    ensures writeOk ==> r.completed && !r.visible && r.stepIndex == s.stepIndex
    ensures !writeOk ==> r == s
  {
    if writeOk then s.(completed := true, visible := false) else s
  }

  /** `resetOnboarding`: when the flag is removed, restart at the first step. */
  function Reset(s: State, removeOk: bool): (r: State)
    ensures removeOk ==> r == State(true, 0, false)
    ensures !removeOk ==> r == s
  {
    if removeOk then State(true, 0, false) else s
  }

  /**
   * `handleNext`: advance one step, asking to navigate when the next step
   * lives on another screen; on the last step, complete instead.
   */
  function Next(steps: seq<Step>, s: State, path: string, writeOk: bool): (r: (State, Option<string>))
    ensures s.stepIndex + 1 < |steps| ==>
      && r.0 == s.(stepIndex := s.stepIndex + 1)
      && (r.1.Some? <==> steps[s.stepIndex + 1].screen != ScreenOf(path))
      && (r.1.Some? ==> r.1.value == steps[s.stepIndex + 1].screen)
    ensures s.stepIndex + 1 >= |steps| ==> r.0 == Complete(s, writeOk) && r.1 == None
    ensures Inv(steps, s) ==> Inv(steps, r.0)
  {
    (Advance(steps, s, writeOk), NavigationRequest(steps, s, path))
  }

  /** The state after `handleNext`, which does not depend on the route. */
  function Advance(steps: seq<Step>, s: State, writeOk: bool): State
  {
    if s.stepIndex < |steps| - 1 then s.(stepIndex := s.stepIndex + 1) else Complete(s, writeOk)
  }

  /** The screen `handleNext` navigates to, if any. */
  function NavigationRequest(steps: seq<Step>, s: State, path: string): Option<string>
  {
    if s.stepIndex < |steps| - 1 then
      var nextStep := steps[s.stepIndex + 1];
      if nextStep.screen != ScreenOf(path) then Some(nextStep.screen) else None
    else
      None
  }

  /**
   * The effect run when the route or `completed` changes: while not
   * completed, show the overlay at the first step of the current screen.
   */
  function ScreenChanged(steps: seq<Step>, s: State, path: string): (r: State)
    ensures Inv(steps, s) ==> Inv(steps, r)
  {
    var screen := ScreenOf(path);
    if |StepsOn(steps, screen)| > 0 && !s.completed then
      var shown := s.(visible := true);
      match FindStep(steps, screen, 0)
      case Some(k) => shown.(stepIndex := k)
      case None => shown
    else
      s
  }

  /**
   * After the route effect: when not completed and some step belongs to the
   * current screen, the overlay is visible at the first such step; otherwise
   * nothing has changed.
   */
  lemma ScreenChangedShowsFirstStep(steps: seq<Step>, s: State, path: string)
    ensures var r, screen := ScreenChanged(steps, s, path), ScreenOf(path);
      (!s.completed && exists i :: 0 <= i < |steps| && steps[i].screen == screen) ==>
        && r.visible && r.completed == s.completed
        && r.stepIndex < |steps| && steps[r.stepIndex].screen == screen
        && (forall j :: 0 <= j < r.stepIndex ==> steps[j].screen != screen)
    ensures var r, screen := ScreenChanged(steps, s, path), ScreenOf(path);
      (s.completed || forall i :: 0 <= i < |steps| ==> steps[i].screen != screen) ==> r == s
  {
    StepsOnAgreesWithFind(steps, ScreenOf(path));
  }

  // ---------------------------------------------------------------------
  // Rendering

  /** What the overlay shows: the step, the action button's label and the progress dots. */
  datatype Overlay = Overlay(step: Step, buttonLabel: string, dots: seq<bool>, tooltip: Placement)

  /** The progress dots: one per step, active at `index`. */
  function Dots(count: nat, index: nat): (dots: seq<bool>)
    ensures |dots| == count
    ensures forall i :: 0 <= i < |dots| ==> (dots[i] <==> i == index)
  {
    seq(count, i => i == index)
  }

  /** Exactly one progress dot is active when the index designates a step. */
  lemma OneActiveDot(count: nat, index: nat)
    requires index < count
    ensures var dots := Dots(count, index); (set i | 0 <= i < |dots| && dots[i]) == {index}
  {
    var dots := Dots(count, index);
    assert dots[index];
  }

  /**
   * The render guard and what is rendered: nothing unless visible and not
   * completed; otherwise the current step, with "Done" exactly on the last one.
   */
  function Render(steps: seq<Step>, s: State, screenWidth: real, screenHeight: real): (r: Option<Overlay>)
    requires Inv(steps, s)
    ensures r.None? <==> !s.visible || s.completed
    ensures r.Some? ==> r.value.step == steps[s.stepIndex]
    ensures r.Some? ==> (r.value.buttonLabel == "Done" <==> s.stepIndex == |steps| - 1)
    ensures r.Some? ==> (r.value.buttonLabel == "Next" <==> s.stepIndex < |steps| - 1)
    ensures r.Some? ==> r.value.dots == Dots(|steps|, s.stepIndex)
    ensures r.Some? ==> r.value.tooltip == CalculateTooltipPosition(steps[s.stepIndex].position, screenWidth, screenHeight)
  {
    if !s.visible || s.completed then None
    else
      var step := steps[s.stepIndex];
      var buttonLabel := if s.stepIndex < |steps| - 1 then "Next" else "Done";
      Some(Overlay(step, buttonLabel, Dots(|steps|, s.stepIndex),
                   CalculateTooltipPosition(step.position, screenWidth, screenHeight)))
  }

  // ---------------------------------------------------------------------
  // Sequences of events

  /** Everything that can happen to the overlay, with the outcome of its storage call. */
  datatype Event =
    | Checked(read: ReadOutcome)
    | PressedNext(path: string, writeOk: bool)
    | PressedSkip(writeOk: bool)
    | ResetRequested(removeOk: bool)
    | RouteChanged(path: string)

  function Apply(steps: seq<Step>, s: State, e: Event): State
  {
    match e
    case Checked(read) => CheckCompleted(s, read)
    case PressedNext(path, writeOk) => Next(steps, s, path, writeOk).0
    case PressedSkip(writeOk) => Complete(s, writeOk)
    case ResetRequested(removeOk) => Reset(s, removeOk)
    case RouteChanged(path) => ScreenChanged(steps, s, path)
  }

  function Run(steps: seq<Step>, s: State, events: seq<Event>): State
    decreases |events|
  {
    if events == [] then s else Run(steps, Apply(steps, s, events[0]), events[1..])
  }

  /** The step index designates a step after any sequence of events. */
  lemma {:induction false} RunKeepsIndexInBounds(steps: seq<Step>, s: State, events: seq<Event>)
    requires Inv(steps, s)
    ensures Inv(steps, Run(steps, s, events))
    decreases |events|
  {
    if events != [] {
      RunKeepsIndexInBounds(steps, Apply(steps, s, events[0]), events[1..]);
    }
  }

  /** The events that can bring the walkthrough back once completed. */
  predicate Restarts(e: Event)
  {
    (e.ResetRequested? && e.removeOk) || (e.Checked? && e.read.Missing?)
  }

  /**
   * Once completed, the overlay stays completed, and renders nothing, until a
   * successful reset or a read that finds no stored flag.
   */
  lemma {:induction false} CompletedIsSticky(steps: seq<Step>, s: State, events: seq<Event>)
    requires s.completed
    requires forall i :: 0 <= i < |events| ==> !Restarts(events[i])
    ensures Run(steps, s, events).completed
    decreases |events|
  {
    if events != [] {
      assert !Restarts(events[0]);
      CompletedIsSticky(steps, Apply(steps, s, events[0]), events[1..]);
    }
  }

  /** Pressing Next `n` times, every storage write succeeding (the route plays no part in the state). */
  function PressNext(steps: seq<Step>, s: State, n: nat): State
    decreases n
  {
    if n == 0 then s else PressNext(steps, Advance(steps, s, true), n - 1)
  }

  /** From any step, pressing Next once per remaining step completes the walkthrough. */
  lemma {:induction false} PressingNextFinishes(steps: seq<Step>, s: State)
    requires Inv(steps, s)
    ensures var r := PressNext(steps, s, |steps| - s.stepIndex);
      r.completed && !r.visible && r.stepIndex == |steps| - 1
    decreases |steps| - s.stepIndex
  {
    var n := |steps| - s.stepIndex;
    var s' := Advance(steps, s, true);
    assert PressNext(steps, s, n) == PressNext(steps, s', n - 1);
    if s.stepIndex < |steps| - 1 {
      PressingNextFinishes(steps, s');
    }
  }

  // ---------------------------------------------------------------------
  // The walkthrough on the table of the app

  /** The screens of the home, plan and settings routes. */
  lemma RouteScreens()
    ensures ScreenOf("/") == RootScreen
    ensures ScreenOf("/plan") == "plan"
    ensures ScreenOf("/settings") == "settings"
  {
    LastSegmentUnique("/plan", "plan");
    LastSegmentUnique("/settings", "settings");
  }

  /** Step 0 is the only step of the `(tabs)` screen. */
  lemma OnlyFirstStepIsHome()
    ensures forall i :: 0 <= i < |Steps| && Steps[i].screen == RootScreen ==> i == 0
  {
    assert "plan"[0] != RootScreen[0] && "settings"[0] != RootScreen[0];
  }

  /** From any step not yet completed, arriving on the home route shows step 0. */
  lemma HomeShowsFirstStep(s: State)
    requires !s.completed
    ensures ScreenChanged(Steps, s, "/") == State(true, 0, false)
  {
    RouteScreens();
    assert FindStep(Steps, RootScreen, 0) == Some(0);
    StepsOnAgreesWithFind(Steps, RootScreen);
  }

  /** From any step not yet completed, arriving on the plan route shows step 1, the first plan step. */
  lemma PlanShowsSecondStep(s: State)
    requires !s.completed
    ensures ScreenChanged(Steps, s, "/plan") == State(true, 1, false)
  {
    RouteScreens();
    assert Steps[0].screen != "plan" && Steps[1].screen == "plan";
    assert FindStep(Steps, "plan", 0) == Some(1);
    StepsOnAgreesWithFind(Steps, "plan");
  }

  /** From any step not yet completed, arriving on the settings route shows step 4, the first settings step. */
  lemma SettingsShowsFifthStep(s: State)
    requires !s.completed
    ensures ScreenChanged(Steps, s, "/settings") == State(true, 4, false)
  {
    RouteScreens();
    assert FindStep(Steps, "settings", 4) == Some(4);
    assert FindStep(Steps, "settings", 2) == Some(4);
    assert FindStep(Steps, "settings", 0) == Some(4);
    StepsOnAgreesWithFind(Steps, "settings");
  }

  /**
   * A full walkthrough from a reset on the home route, following every
   * navigation request: the route goes to "plan" and then "settings", and the
   * sixth press completes the walkthrough.
   */
  lemma FullWalkthrough()
    ensures var s0 := ScreenChanged(Steps, Reset(Initial, true), "/");
      var (s1, nav1) := Next(Steps, s0, "/", true);
      var s1' := ScreenChanged(Steps, s1, "/plan");
      var (s2, nav2) := Next(Steps, s1', "/plan", true);
      var (s3, nav3) := Next(Steps, s2, "/plan", true);
      var (s4, nav4) := Next(Steps, s3, "/plan", true);
      var s4' := ScreenChanged(Steps, s4, "/settings");
      var (s5, nav5) := Next(Steps, s4', "/settings", true);
      var (s6, nav6) := Next(Steps, s5, "/settings", true);
      && s0 == State(true, 0, false)
      && nav1 == Some("plan") && s1' == State(true, 1, false)
      && nav2 == None && nav3 == None
      && nav4 == Some("settings") && s4' == State(true, 4, false)
      && nav5 == None && nav6 == None
      && s6 == State(false, 5, true)
  {
    RouteScreens();
    HomeShowsFirstStep(State(true, 0, false));
    PlanShowsSecondStep(State(true, 1, false));
    SettingsShowsFifthStep(State(true, 4, false));
  }

  // ---------------------------------------------------------------------
  // The component

  /** The overlay component with its three state fields, over the app's steps table. */
  class OnboardingOverlay {
    const steps: seq<Step>
    var visible: bool
    var currentStepIndex: nat
    var completed: bool

    function CurrentState(): State
      reads this
    {
      State(visible, currentStepIndex, completed)
    }

    ghost predicate Valid()
      reads this
    {
      Inv(steps, CurrentState())
    }

    /** Mounted hidden, at the first step, presumed completed until storage says otherwise. */
    constructor ()
      ensures Valid() && steps == Steps && CurrentState() == Initial
    {
      steps := Steps;
      visible := false;
      currentStepIndex := 0;
      completed := true;
    }

    method CheckIfOnboardingCompleted(read: ReadOutcome)
      requires Valid()
      modifies this
      ensures Valid() && CurrentState() == CheckCompleted(old(CurrentState()), read)
    {
      if read == Missing {
        completed := false;
        visible := true;
      }
    }

    method CompleteOnboarding(writeOk: bool)
      requires Valid()
      modifies this
      ensures Valid() && CurrentState() == Complete(old(CurrentState()), writeOk)
    {
      if writeOk {
        completed := true;
        visible := false;
      }
    }

    method HandleNext(pathname: string, writeOk: bool) returns (navigateTo: Option<string>)
      requires Valid()
      modifies this
      ensures Valid()
      ensures CurrentState() == Advance(steps, old(CurrentState()), writeOk)
      ensures navigateTo == NavigationRequest(steps, old(CurrentState()), pathname)
    {
      navigateTo := None;
      if currentStepIndex < |steps| - 1 {
        var nextStep := steps[currentStepIndex + 1];
        var currentScreen := ScreenOf(pathname);
        if nextStep.screen != currentScreen {
          navigateTo := Some(nextStep.screen);
        }
        currentStepIndex := currentStepIndex + 1;
      } else {
        CompleteOnboarding(writeOk);
      }
    }

    method HandleSkip(writeOk: bool)
      requires Valid()
      modifies this
      ensures Valid() && CurrentState() == Complete(old(CurrentState()), writeOk)
    {
      CompleteOnboarding(writeOk);
    }

    method ResetOnboarding(removeOk: bool)
      requires Valid()
      modifies this
      ensures Valid() && CurrentState() == Reset(old(CurrentState()), removeOk)
    {
      if removeOk {
        completed := false;
        currentStepIndex := 0;
        visible := true;
      }
    }

    /** The effect that follows the route (and `completed`). */
    method OnScreenChange(pathname: string)
      requires Valid()
      modifies this
      ensures Valid() && CurrentState() == ScreenChanged(steps, old(CurrentState()), pathname)
    {
      ghost var before := CurrentState();
      var currentScreen := ScreenOf(pathname);
      var stepsForCurrentScreen := StepsOn(steps, currentScreen);
      if |stepsForCurrentScreen| > 0 && !completed {
        visible := true;
        var firstStepIndex := FindStep(steps, currentScreen, 0);
        if firstStepIndex.Some? {
          currentStepIndex := firstStepIndex.value;
        }
        assert CurrentState() == ScreenChanged(steps, before, pathname);
      } else {
        assert CurrentState() == ScreenChanged(steps, before, pathname);
      }
    }
  }
}
