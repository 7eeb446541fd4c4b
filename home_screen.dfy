/** The home screen's phase sequencer (app/index.tsx): the scenario table,
    the `step` / `isPaused` / `pauseTrigger` state, the derived phase, the
    step-advance handler, the steps-mode effect and the theme effect. */
module HomeScreen {
  import opened Options
  import opened StatisticsStore
  import SettingsStore

  /** The keys of the `scenario` table. The settings record has no such
      field, so it is kept here as the screen's own state. */
  datatype StepsMode = FourSteps | EightSteps

  /** The `scenario` table: work and short breaks alternate, and the last
      step is the long break. */
  function Scenario(mode: StepsMode): (s: seq<Phase>)
    ensures |s| == (if mode == FourSteps then 4 else 8)
    ensures s[0] == Work && s[|s| - 1] == LongBreak
    ensures forall i :: 0 <= i < |s| - 1 ==> s[i] == (if i % 2 == 0 then Work else ShortBreak)
    ensures forall i :: 0 <= i < |s| ==> (s[i] == LongBreak <==> i == |s| - 1)
  {
    match mode
    case FourSteps => [Work, ShortBreak, Work, LongBreak]
    case EightSteps => [Work, ShortBreak, Work, ShortBreak, Work, ShortBreak, Work, LongBreak]
  }

  /** `scenario[stepsMode][step - 1]`, which is `undefined` when the step is
      outside the scenario. */
  function PhaseAt(mode: StepsMode, step: int): (r: Option<Phase>)
    ensures r.Some? <==> 1 <= step <= |Scenario(mode)|
  {
    if 1 <= step <= |Scenario(mode)| then Some(Scenario(mode)[step - 1]) else None
  }

  /** The long break is the last step, and the step after it is work again:
      one pass through the scenario ends on the long break. */
  lemma LongBreakEndsCycle(mode: StepsMode, step: int)
    requires PhaseAt(mode, step) == Some(LongBreak)
    ensures step == |Scenario(mode)|
    ensures PhaseAt(mode, Next(step, |Scenario(mode)|)) == Some(Work)
  {
  }

  /** Switching from eight steps to four does not move the step, so steps 5
      to 8 then name no phase at all. */
  lemma ShrinkLeavesNoPhase(step: int)
    requires 4 < step <= 8
    ensures PhaseAt(EightSteps, step).Some?
    ensures PhaseAt(FourSteps, step) == None
  {
  }

  /** stepChangeHandler's new step in a scenario of n steps. */
  function Next(step: int, n: int): (r: int)
    ensures step < n ==> r == step + 1
    ensures n <= step ==> r == 1
    ensures 0 <= step < n ==> 1 <= r <= n
  {
    if step < n then step + 1 else 1
  }

  /** k advances in a row. */
  function Advance(step: int, n: int, k: nat): int {
    if k == 0 then step else Next(Advance(step, n, k - 1), n)
  }

  lemma {:induction false} AdvanceSplit(step: int, n: int, a: nat, b: nat)
    ensures Advance(step, n, a + b) == Advance(Advance(step, n, a), n, b)
  {
    if b > 0 {
      AdvanceSplit(step, n, a, b - 1);
    }
  }

  /** Below the last step, each advance moves up by exactly one. */
  lemma {:induction false} AdvanceClimbs(step: int, n: int, j: nat)
    requires 1 <= step && step + j <= n
    ensures Advance(step, n, j) == step + j
  {
    if j > 0 {
      AdvanceClimbs(step, n, j - 1);
    }
  }

  /** n advances from any step of an n-step scenario come back to it: no
      step is skipped and the last wraps to the first. */
  lemma AdvanceFullCycle(step: int, n: int)
    requires 1 <= step <= n
    ensures Advance(step, n, n) == step
  {
    AdvanceSplit(step, n, n - step, 1);
    AdvanceClimbs(step, n, n - step);
    AdvanceSplit(step, n, n - step + 1, step - 1);
    AdvanceClimbs(1, n, step - 1);
  }

  /** The theme store's value: `'light' | 'dark'`. */
  datatype ColorScheme = Light | Dark

  /** The theme effect: an absent theme setting leaves the theme as it is;
      `'System'` follows the device scheme, or light when the device reports
      none; `'Light'` and `'Dark'` name their scheme. */
  function ThemeFor(setting: Option<SettingsStore.Theme>, system: Option<ColorScheme>,
                    current: ColorScheme): (r: ColorScheme)
    ensures setting == None ==> r == current
    ensures setting == Some(SettingsStore.SystemTheme) ==>
      r == (if system.Some? then system.value else ColorScheme.Light)
    ensures setting == Some(SettingsStore.LightTheme) ==> r == ColorScheme.Light
    ensures setting == Some(SettingsStore.DarkTheme) ==> r == ColorScheme.Dark
  {
    match setting
    case None => current
    case Some(t) =>
      match t
      case SystemTheme => system.GetOr(ColorScheme.Light)
      case LightTheme => ColorScheme.Light
      case DarkTheme => ColorScheme.Dark
  }

  /** HomeScreen's state, with the theme store's value beside it. */
  class Home {
    var step: int
    var isPaused: bool
    var pauseTrigger: bool
    var stepsMode: StepsMode
    var theme: ColorScheme

    /** The `useState` initial values; the theme store starts light. */
    constructor (mode: StepsMode)
      ensures step == 1 && isPaused && !pauseTrigger
      ensures stepsMode == mode && theme == ColorScheme.Light
    {
      step := 1;
      isPaused := true;
      pauseTrigger := false;
      stepsMode := mode;
      theme := ColorScheme.Light;
    }

    /** `phaze` */
    function Phaze(): (r: Option<Phase>)
      reads this
      ensures r.Some? <==> 1 <= step <= |Scenario(stepsMode)|
    {
      PhaseAt(stepsMode, step)
    }

    /** The two effects as they run after the first render: the steps-mode
        effect pauses and flips the trigger, the theme effect sets the theme. */
    method Mount(setting: Option<SettingsStore.Theme>, system: Option<ColorScheme>)
      modifies this`isPaused, this`pauseTrigger, this`theme
      ensures isPaused && pauseTrigger == !old(pauseTrigger)
      ensures theme == ThemeFor(setting, system, old(theme))
    {
      isPaused := true;
      pauseTrigger := !pauseTrigger;
      ApplyTheme(setting, system);
    }

    /** stepChangeHandler: advance, wrapping after the last step; ask for the
        click sound only when sound is `'On'`. */
    method StepChange(sound: SettingsStore.Sound) returns (clickSound: bool)
      modifies this`step
      ensures step == Next(old(step), |Scenario(stepsMode)|)
      ensures 0 <= old(step) ==> 1 <= step <= |Scenario(stepsMode)|
      ensures clickSound <==> sound == SettingsStore.SoundOn
    {
      if step < |Scenario(stepsMode)| {
        step := step + 1;
      } else {
        step := 1;
      }
      clickSound := sound == SettingsStore.SoundOn;
    }

    /** A new steps mode and the effect keyed on it: when the mode really
        changes, pause and flip the trigger. The step is left as it was. */
    method ChangeStepsMode(mode: StepsMode)
      modifies this`stepsMode, this`isPaused, this`pauseTrigger
      ensures stepsMode == mode
      ensures mode != old(stepsMode) ==> isPaused && pauseTrigger == !old(pauseTrigger)
      ensures mode == old(stepsMode) ==> isPaused == old(isPaused) && pauseTrigger == old(pauseTrigger)
    {
      if mode != stepsMode {
        stepsMode := mode;
        isPaused := true;
        pauseTrigger := !pauseTrigger;
      }
    }

    /** The theme effect, run when the theme setting or the device scheme changes. */
    method ApplyTheme(setting: Option<SettingsStore.Theme>, system: Option<ColorScheme>)
      modifies this`theme
      ensures theme == ThemeFor(setting, system, old(theme))
    {
      if setting.Some? {
        if setting.value == SettingsStore.SystemTheme {
          theme := system.GetOr(ColorScheme.Light);
        } else {
          theme := if setting.value == SettingsStore.LightTheme then ColorScheme.Light else ColorScheme.Dark;
        }
      }
    }
  }

  /** Advancing once per step of the scenario brings the screen back to the
      step, and so to the phase, it started from. */
  method FullCycle(home: Home, sound: SettingsStore.Sound)
    requires 1 <= home.step <= |Scenario(home.stepsMode)|
    modifies home`step
    ensures home.step == old(home.step)
    ensures home.Phaze() == old(home.Phaze())
  {
    var n := |Scenario(home.stepsMode)|;
    var i := 0;
    while i < n
      invariant 0 <= i <= n
      invariant home.step == Advance(old(home.step), n, i)
      invariant home.stepsMode == old(home.stepsMode)
    {
      var _ := home.StepChange(sound);
      i := i + 1;
    }
    AdvanceFullCycle(old(home.step), n);
  }
}
