/** The timer's control buttons (components/pages/main/TimerControllers.tsx):
    reset, play/pause and next-step presses, the next-step lock-out, and the
    lofi player decisions of the three effects. The one-second lock-out
    timer is an explicit expiry event; the player is driven by abstract
    commands. */
module TimerControllers {
  import opened HomeScreen
  import SettingsStore

  /** What the component asks of the lofi player. */
  datatype PlayerCommand = Play | Pause | SeekToStart

  /** The player's `playing` flag after it carries out `commands`. */
  function PlayingAfter(commands: seq<PlayerCommand>, playing: bool): bool {
    if commands == [] then playing
    else
      var p := match commands[0]
        case Play => true
        case Pause => false
        case SeekToStart => playing;
      PlayingAfter(commands[1..], p)
  }

  /** The `isPaused` effect's decision: the commands to issue, and whether it
      sets `musicHasStarted`. */
  datatype PauseDecision = PauseDecision(commands: seq<PlayerCommand>, markStarted: bool)

  /** The `isPaused` effect over `(lofi, isPaused, musicHasStarted, playing)`:
      nothing when lofi is off; on unpause, play (and mark the music started)
      the first time, afterwards play only if not already playing; on pause,
      pause only a playing player. */
  function OnPausedChange(lofi: SettingsStore.Lofi, isPaused: bool, musicHasStarted: bool,
                          playing: bool): (d: PauseDecision)
    ensures lofi.LofiOff? ==> d.commands == [] && !d.markStarted
    ensures d.markStarted <==> lofi.LofiOn? && !isPaused && !musicHasStarted
    ensures Play in d.commands <==>
      lofi.LofiOn? && !isPaused && (!musicHasStarted || !playing)
    ensures Pause in d.commands <==> lofi.LofiOn? && isPaused && playing
    ensures SeekToStart !in d.commands && |d.commands| <= 1
  {
    if lofi == SettingsStore.LofiOff then PauseDecision([], false)
    else if !isPaused then
      if !musicHasStarted then PauseDecision([Play], true)
      else if !playing then PauseDecision([Play], false)
      else PauseDecision([], false)
    else if playing then PauseDecision([Pause], false)
    else PauseDecision([], false)
  }

  /** With lofi on, the effect brings the player in line with the timer: it
      plays exactly when the timer runs, whatever it was doing before. */
  lemma LofiFollowsTimer(isPaused: bool, musicHasStarted: bool, playing: bool)
    ensures PlayingAfter(OnPausedChange(SettingsStore.LofiOn, isPaused, musicHasStarted, playing).commands,
                         playing) == !isPaused
  {
    var d := OnPausedChange(SettingsStore.LofiOn, isPaused, musicHasStarted, playing);
    if d.commands != [] {
      assert d.commands[1..] == [];
    }
  }

  /** The `didJustFinish` effect: with lofi on, a finished track is rewound
      and played again. */
  function OnTrackFinished(lofi: SettingsStore.Lofi, didJustFinish: bool): (commands: seq<PlayerCommand>)
    ensures lofi.LofiOff? || !didJustFinish ==> commands == []
    ensures lofi.LofiOn? && didJustFinish ==> commands == [SeekToStart, Play]
  {
    if lofi == SettingsStore.LofiOff then []
    else if didJustFinish then [SeekToStart, Play]
    else []
  }

  /** A finished track keeps the music playing while lofi is on. */
  lemma {:induction false} FinishedTrackLoops(playing: bool)
    ensures PlayingAfter(OnTrackFinished(SettingsStore.LofiOn, true), playing)
  {
    var c := OnTrackFinished(SettingsStore.LofiOn, true);
    assert c[1..][1..] == [];
    assert PlayingAfter(c[1..], playing) == PlayingAfter(c[1..][1..], true);
  }

  /** The `settings.lofi` effect: switching lofi off pauses the player. */
  function OnLofiChanged(lofi: SettingsStore.Lofi): (commands: seq<PlayerCommand>)
    ensures lofi.LofiOff? ==> commands == [Pause]
    ensures lofi.LofiOn? ==> commands == []
  {
    if lofi == SettingsStore.LofiOff then [Pause] else []
  }

  /** The component's own state. */
  class Controllers {
    var isDisabled: bool
    var musicHasStarted: bool

    constructor ()
      ensures !isDisabled && !musicHasStarted
    {
      isDisabled := false;
      musicHasStarted := false;
    }

    /** The reset button flips the home screen's `pauseTrigger`, nothing else. */
    method PressReset(home: Home)
      modifies home`pauseTrigger
      ensures home.pauseTrigger == !old(home.pauseTrigger)
    {
      home.pauseTrigger := !home.pauseTrigger;
    }

    /** The play/pause button flips the home screen's `isPaused`, nothing else. */
    method PressPlayPause(home: Home)
      modifies home`isPaused
      ensures home.isPaused == !old(home.isPaused)
    {
      home.isPaused := !home.isPaused;
    }

    /** handleNextStep behind the `disabled` button: while disabled the press
        is dropped; otherwise advance once, disable the button, and ask for
        haptic feedback when sound is `'System'`. */
    method PressNextStep(home: Home, sound: SettingsStore.Sound)
      returns (pressed: bool, clickSound: bool, haptic: bool)
      modifies this`isDisabled, home`step
      ensures pressed == !old(isDisabled)
      ensures isDisabled
      ensures pressed ==> home.step == Next(old(home.step), |Scenario(home.stepsMode)|)
      ensures pressed ==> (clickSound <==> sound == SettingsStore.SoundOn)
      ensures pressed ==> (haptic <==> sound == SettingsStore.SystemSound)
      ensures !pressed ==> home.step == old(home.step) && !clickSound && !haptic
    {
      pressed, clickSound, haptic := false, false, false;
      if !isDisabled {
        pressed := true;
        clickSound := home.StepChange(sound);
        isDisabled := true;
        haptic := sound == SettingsStore.SystemSound;
      }
    }

    /** The one-second timeout set by a press re-enables the button. */
    method DisableExpired()
      modifies this`isDisabled
      ensures !isDisabled
    {
      isDisabled := false;
    }

    /** The `isPaused` effect: the player commands, haptic feedback when sound
        is `'System'`, and `musicHasStarted`, which never goes back to false. */
    method PausedChanged(home: Home, lofi: SettingsStore.Lofi, sound: SettingsStore.Sound, playing: bool)
      returns (commands: seq<PlayerCommand>, haptic: bool)
      modifies this`musicHasStarted
      ensures commands == OnPausedChange(lofi, home.isPaused, old(musicHasStarted), playing).commands
      ensures musicHasStarted ==
        (old(musicHasStarted) || OnPausedChange(lofi, home.isPaused, old(musicHasStarted), playing).markStarted)
      ensures old(musicHasStarted) ==> musicHasStarted
      ensures haptic <==> sound == SettingsStore.SystemSound
    {
      haptic := sound == SettingsStore.SystemSound;
      var d := OnPausedChange(lofi, home.isPaused, musicHasStarted, playing);
      commands := d.commands;
      if d.markStarted {
        musicHasStarted := true;
      }
    }
  }

  /** Two presses with no expiry between them advance the step only once. */
  method DoublePressAdvancesOnce(c: Controllers, home: Home, sound: SettingsStore.Sound)
    requires !c.isDisabled
    modifies c`isDisabled, home`step
    ensures home.step == Next(old(home.step), |Scenario(home.stepsMode)|)
    ensures c.isDisabled
  {
    var first, _, _ := c.PressNextStep(home, sound);
    var second, _, _ := c.PressNextStep(home, sound);
    assert first && !second;
  }
}
