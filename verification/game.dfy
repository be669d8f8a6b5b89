/**
 * The in-game mode state machine of the brick breaker (`src/game/mod.rs`):
 * the `InGameState` sub-states, the systems that request state changes, the
 * settings-key dispatcher and the session lifecycle hooks.
 *
 * Bevy's `ResMut<NextState<S>>` is a pending-state slot that `set` simply
 * overwrites (last write wins); an `EventReader` queue is modelled by the
 * number of events it has not yet read, which `clear` sets to zero.
 */
module Game {
  import opened Input
  import opened Resources

  datatype InGameState = None | Preparation | Play | Pause | Summary

  /** The application states the game systems request. */
  datatype AppState = Menu | InGame | RestartInGame

  /** Bevy's `NextState<S>`: no request, or the state requested for the next transition. */
  datatype NextState<S> = Unchanged | Pending(state: S)

  /**
   * The decision of `check_preparation_end_condition`: Preparation ends when
   * the first key the keyboard reports as just pressed is not a steering
   * key, or, when no key went down, some mouse button did. A steering key
   * reported first suppresses the request even if a mouse button also went
   * down.
   */
  function PreparationEnds(keys: ButtonInput<KeyCode>, mouse: ButtonInput<MouseButton>): (r: bool)
    ensures keys.justPressed != [] ==> (r <==> !IsSteeringKey(keys.justPressed[0]))
    ensures keys.justPressed == [] ==> (r <==> mouse.justPressed != [])
    ensures r ==> (exists k :: keys.JustPressed(k) && !IsSteeringKey(k)) || (exists b :: mouse.JustPressed(b))
  {
    if keys.justPressed != [] then
      var key := keys.justPressed[0];
      assert keys.JustPressed(key);
      key != ArrowLeft && key != ArrowRight
    else
      if mouse.justPressed != [] then
        assert mouse.JustPressed(mouse.justPressed[0]);
        true
      else
        false
  }

  /**
   * Whether Preparation ends depends on the order in which the keyboard
   * reports the keys that went down together: with an arrow key and another
   * key in the same frame, the request is made only when the other key is
   * reported first.
   */
  lemma PreparationEndDependsOnReportOrder(k: KeyCode, mouse: ButtonInput<MouseButton>)
    requires !IsSteeringKey(k)
    ensures PreparationEnds(ButtonInput({k, ArrowLeft}, [k, ArrowLeft]), mouse)
    ensures !PreparationEnds(ButtonInput({k, ArrowLeft}, [ArrowLeft, k]), mouse)
  {
  }

  /**
   * The state `check_toggle_pause_condition` requests when it fires: Pause
   * from Play, and Play from every other state.
   */
  function ToggleTarget(current: InGameState): (r: InGameState)
    ensures r == Pause <==> current == Play
    ensures r == Play <==> current != Play
  {
    if current == Play then Pause else Play
  }

  /**
   * Toggling twice returns to Play or Pause; from Preparation, Summary or
   * None the first toggle leads to Play and the second to Pause.
   */
  lemma ToggleTwice(current: InGameState)
    ensures current == Play || current == Pause ==> ToggleTarget(ToggleTarget(current)) == current
    ensures current != Play && current != Pause ==> ToggleTarget(ToggleTarget(current)) == Pause
  {
  }

  /**
   * The step `test_settings` applies: -1 when Q went down, otherwise +1 when
   * E went down, otherwise 0 (Q wins over E).
   */
  function SettingsDelta(keys: ButtonInput<KeyCode>): (d: int)
    ensures d == -1 <==> keys.JustPressed(KeyQ)
    ensures d == 1 <==> !keys.JustPressed(KeyQ) && keys.JustPressed(KeyE)
    ensures d == 0 <==> !keys.JustPressed(KeyQ) && !keys.JustPressed(KeyE)
  {
    if keys.JustPressed(KeyQ) then -1
    else if keys.JustPressed(KeyE) then 1
    else 0
  }

  /** The digit keys `test_settings` reads. */
  const DIGIT_KEYS: set<KeyCode> := {Digit1, Digit2, Digit3, Digit4, Digit5}

  /**
   * The settings after one call of `test_settings`: with a non-zero step,
   * each held digit 1 to 4 moves paddle size, paddle speed, ball size and
   * ball speed by the step (clamped to its range) and a held digit 5 turns
   * ghost bricks on for +1 and off for -1; every setting whose digit is not
   * held, and every setting when the step is zero, is unchanged.
   */
  function Dispatch(s: Settings, keys: ButtonInput<KeyCode>, ranges: SettingRanges): (r: Settings)
    requires ranges.Valid()
    ensures ranges.Admits(s) ==> ranges.Admits(r)
    ensures SettingsDelta(keys) == 0 ==> r == s
    ensures !keys.Pressed(Digit1) ==> r.paddleSize == s.paddleSize
    ensures !keys.Pressed(Digit2) ==> r.paddleSpeed == s.paddleSpeed
    ensures !keys.Pressed(Digit3) ==> r.ballSize == s.ballSize
    ensures !keys.Pressed(Digit4) ==> r.ballSpeed == s.ballSpeed
    ensures !keys.Pressed(Digit5) ==> r.brickGhost == s.brickGhost
    ensures keys.Pressed(Digit5) && SettingsDelta(keys) != 0 ==> (r.brickGhost <==> SettingsDelta(keys) == 1)
    ensures keys.Pressed(Digit1) && SettingsDelta(keys) != 0
            ==> r.paddleSize == ChangePoints(s.paddleSize, SettingsDelta(keys), ranges.paddleSize)
    ensures keys.Pressed(Digit2) && SettingsDelta(keys) != 0
            ==> r.paddleSpeed == ChangePoints(s.paddleSpeed, SettingsDelta(keys), ranges.paddleSpeed)
    ensures keys.Pressed(Digit3) && SettingsDelta(keys) != 0
            ==> r.ballSize == ChangePoints(s.ballSize, SettingsDelta(keys), ranges.ballSize)
    ensures keys.Pressed(Digit4) && SettingsDelta(keys) != 0
            ==> r.ballSpeed == ChangePoints(s.ballSpeed, SettingsDelta(keys), ranges.ballSpeed)
    ensures keys.Pressed(Digit1) && ranges.paddleSize.Contains(s.paddleSize + SettingsDelta(keys))
            ==> r.paddleSize == s.paddleSize + SettingsDelta(keys)
    ensures keys.Pressed(Digit2) && ranges.paddleSpeed.Contains(s.paddleSpeed + SettingsDelta(keys))
            ==> r.paddleSpeed == s.paddleSpeed + SettingsDelta(keys)
    ensures keys.Pressed(Digit3) && ranges.ballSize.Contains(s.ballSize + SettingsDelta(keys))
            ==> r.ballSize == s.ballSize + SettingsDelta(keys)
    ensures keys.Pressed(Digit4) && ranges.ballSpeed.Contains(s.ballSpeed + SettingsDelta(keys))
            ==> r.ballSpeed == s.ballSpeed + SettingsDelta(keys)
  {
    var d := SettingsDelta(keys);
    if d == 0 then s
    else
      Settings(
        paddleSize := if keys.Pressed(Digit1) then ChangePoints(s.paddleSize, d, ranges.paddleSize) else s.paddleSize,
        paddleSpeed := if keys.Pressed(Digit2) then ChangePoints(s.paddleSpeed, d, ranges.paddleSpeed) else s.paddleSpeed,
        ballSize := if keys.Pressed(Digit3) then ChangePoints(s.ballSize, d, ranges.ballSize) else s.ballSize,
        ballSpeed := if keys.Pressed(Digit4) then ChangePoints(s.ballSpeed, d, ranges.ballSpeed) else s.ballSpeed,
        brickGhost := if keys.Pressed(Digit5) then d > 0 else s.brickGhost)
  }

  /**
   * A frame that raises the settings selected by the held digits is undone
   * by a frame that lowers the same selection, as long as no selected
   * stepped setting was at the top of its range and ghost bricks were off or
   * not selected.
   */
  lemma DispatchRaiseThenLower(s: Settings, raise: ButtonInput<KeyCode>, lower: ButtonInput<KeyCode>, ranges: SettingRanges)
    requires ranges.Valid() && ranges.Admits(s)
    requires SettingsDelta(raise) == 1 && SettingsDelta(lower) == -1
    requires raise.pressed * DIGIT_KEYS == lower.pressed * DIGIT_KEYS
    requires raise.Pressed(Digit1) ==> s.paddleSize < ranges.paddleSize.hi
    requires raise.Pressed(Digit2) ==> s.paddleSpeed < ranges.paddleSpeed.hi
    requires raise.Pressed(Digit3) ==> s.ballSize < ranges.ballSize.hi
    requires raise.Pressed(Digit4) ==> s.ballSpeed < ranges.ballSpeed.hi
    requires raise.Pressed(Digit5) ==> !s.brickGhost
    ensures Dispatch(Dispatch(s, raise, ranges), lower, ranges) == s
  {
    assert forall k :: k in DIGIT_KEYS ==> (raise.Pressed(k) <==> lower.Pressed(k)) by {
      forall k | k in DIGIT_KEYS
        ensures raise.Pressed(k) <==> lower.Pressed(k)
      {
        assert k in raise.pressed * DIGIT_KEYS <==> k in lower.pressed * DIGIT_KEYS;
      }
    }
    assert Digit1 in DIGIT_KEYS && Digit2 in DIGIT_KEYS && Digit3 in DIGIT_KEYS;
    assert Digit4 in DIGIT_KEYS && Digit5 in DIGIT_KEYS;
  }

  /** The settings after `n` successive frames of `test_settings` with the same keys. */
  function DispatchFrames(s: Settings, keys: ButtonInput<KeyCode>, n: nat, ranges: SettingRanges): (r: Settings)
    requires ranges.Valid()
  {
    if n == 0 then s else Dispatch(DispatchFrames(s, keys, n - 1, ranges), keys, ranges)
  }

  /**
   * Holding digit 1 and pressing E in `n` successive frames raises the
   * paddle size one point per frame until the top of its range, where it
   * stays; the settings whose digits are not held are left alone.
   */
  lemma {:induction false} DispatchFramesRaisesPaddleSize(s: Settings, keys: ButtonInput<KeyCode>, n: nat, ranges: SettingRanges)
    requires ranges.Valid() && ranges.Admits(s)
    requires SettingsDelta(keys) == 1 && keys.pressed * DIGIT_KEYS == {Digit1}
    ensures DispatchFrames(s, keys, n, ranges) == s.(paddleSize := ChangeRepeatedly(s.paddleSize, 1, n, ranges.paddleSize))
    ensures n >= ranges.paddleSize.hi - s.paddleSize ==> DispatchFrames(s, keys, n, ranges).paddleSize == ranges.paddleSize.hi
  {
    Saturates(s.paddleSize, n, ranges.paddleSize);
    assert Digit1 in keys.pressed * DIGIT_KEYS;
    assert !keys.Pressed(Digit2) && !keys.Pressed(Digit3) && !keys.Pressed(Digit4) && !keys.Pressed(Digit5) by {
      assert Digit2 !in keys.pressed * DIGIT_KEYS && Digit3 !in keys.pressed * DIGIT_KEYS;
      assert Digit4 !in keys.pressed * DIGIT_KEYS && Digit5 !in keys.pressed * DIGIT_KEYS;
    }
    if n > 0 {
      DispatchFramesRaisesPaddleSize(s, keys, n - 1, ranges);
    }
  }

  /**
   * The shared state the game systems read and write: the current and the
   * pending in-game state, the pending application state, the unread events
   * of the four queues the checks consume, and the resources `clean_up`
   * resets.
   */
  class GameSession {
    /** `State<InGameState>`: the state in force during this frame. */
    var state: InGameState
    /** `NextState<InGameState>`. */
    var nextInGame: NextState<InGameState>
    /** `NextState<AppState>`. */
    var nextApp: NextState<AppState>

    /** Unread `MenuRequested`, `RestartRequested`, `TogglePauseRequested` and `LastBallDestroyed` events. */
    var menuRequested: nat
    var restartRequested: nat
    var togglePauseRequested: nat
    var lastBallDestroyed: nat

    var score: nat
    var brickRowSpawnCooldown: nat
    var paddleSize: int
    var paddleSpeed: int
    var ballSize: int
    var ballSpeed: int
    var brickGhost: bool

    /** The range of each stepped setting and the default of each resource. */
    const ranges: SettingRanges
    const defaults: Defaults

    /** The five settings resources as one value. */
    function CurrentSettings(): (r: Settings)
      reads this
    {
      Settings(paddleSize, paddleSpeed, ballSize, ballSpeed, brickGhost)
    }

    /** Every stepped setting, and every default, lies inside its range. */
    ghost predicate Valid()
      reads this
    {
      ranges.Valid() && ranges.Admits(defaults.settings) && ranges.Admits(CurrentSettings())
    }

    /**
     * `GamePlugin::build`: the in-game state starts at None with nothing
     * pending, the event queues start empty and every resource starts at
     * its default.
     */
    constructor (ranges: SettingRanges, defaults: Defaults)
      requires ranges.Valid() && ranges.Admits(defaults.settings)
      ensures Valid()
      ensures this.ranges == ranges && this.defaults == defaults
      ensures state == None && nextInGame == Unchanged && nextApp == Unchanged
      ensures menuRequested == 0 && restartRequested == 0 && togglePauseRequested == 0 && lastBallDestroyed == 0
      ensures score == defaults.score && brickRowSpawnCooldown == defaults.brickRowSpawnCooldown
      ensures CurrentSettings() == defaults.settings
    {
      this.ranges := ranges;
      this.defaults := defaults;
      state := None;
      nextInGame := Unchanged;
      nextApp := Unchanged;
      menuRequested, restartRequested, togglePauseRequested, lastBallDestroyed := 0, 0, 0, 0;
      score := defaults.score;
      brickRowSpawnCooldown := defaults.brickRowSpawnCooldown;
      paddleSize := defaults.settings.paddleSize;
      paddleSpeed := defaults.settings.paddleSpeed;
      ballSize := defaults.settings.ballSize;
      ballSpeed := defaults.settings.ballSpeed;
      brickGhost := defaults.settings.brickGhost;
    }

    /** `start_up`, on entering the in-game application state: request Preparation. */
    method StartUp()
      modifies this`nextInGame
      ensures nextInGame == Pending(Preparation)
    {
      nextInGame := Pending(Preparation);
    }

    /**
     * `clean_up`, on leaving the in-game application state: request None and
     * put the score, the brick-row cooldown and the five settings back to
     * their defaults.
     */
    method CleanUp()
      requires Valid()
      modifies this`nextInGame, this`score, this`brickRowSpawnCooldown
      modifies this`paddleSize, this`paddleSpeed, this`ballSize, this`ballSpeed, this`brickGhost
      ensures Valid()
      ensures nextInGame == Pending(None)
      ensures score == defaults.score && brickRowSpawnCooldown == defaults.brickRowSpawnCooldown
      ensures CurrentSettings() == defaults.settings
    {
      nextInGame := Pending(None);
      score := defaults.score;
      brickRowSpawnCooldown := defaults.brickRowSpawnCooldown;
      ballSize := defaults.settings.ballSize;
      ballSpeed := defaults.settings.ballSpeed;
      brickGhost := defaults.settings.brickGhost;
      paddleSize := defaults.settings.paddleSize;
      paddleSpeed := defaults.settings.paddleSpeed;
    }

    /** `check_preparation_end_condition`: request Play when Preparation ends. */
    method CheckPreparationEndCondition(keys: ButtonInput<KeyCode>, mouse: ButtonInput<MouseButton>)
      modifies this`nextInGame
      ensures nextInGame == if PreparationEnds(keys, mouse) then Pending(Play) else old(nextInGame)
    {
      if keys.justPressed != [] {
        var key := keys.justPressed[0];
        if key != ArrowLeft && key != ArrowRight {
          nextInGame := Pending(Play);
        }
      } else if mouse.justPressed != [] {
        nextInGame := Pending(Play);
      }
    }

    /**
     * `check_menu_condition`: with no unread menu request nothing changes;
     * otherwise the requests are consumed and the menu is requested.
     */
    method CheckMenuCondition()
      modifies this`menuRequested, this`nextApp
      ensures menuRequested == 0
      ensures nextApp == if old(menuRequested) == 0 then old(nextApp) else Pending(Menu)
    {
      if menuRequested == 0 {
        return;
      }
      menuRequested := 0;
      nextApp := Pending(Menu);
    }

    /**
     * `check_restart_condition`: with no unread restart request nothing
     * changes; otherwise the requests are consumed and a restart is requested.
     */
    method CheckRestartCondition()
      modifies this`restartRequested, this`nextApp
      ensures restartRequested == 0
      ensures nextApp == if old(restartRequested) == 0 then old(nextApp) else Pending(RestartInGame)
    {
      if restartRequested == 0 {
        return;
      }
      restartRequested := 0;
      nextApp := Pending(RestartInGame);
    }

    /** `continue_restart_game`, on entering the restart state: request the in-game state again. */
    method ContinueRestartGame()
      modifies this`nextApp
      ensures nextApp == Pending(InGame)
    {
      nextApp := Pending(InGame);
    }

    /**
     * `check_summary_condition`: with no unread last-ball event nothing
     * changes; otherwise the events are consumed and Summary is requested.
     */
    method CheckSummaryCondition()
      modifies this`lastBallDestroyed, this`nextInGame
      ensures lastBallDestroyed == 0
      ensures nextInGame == if old(lastBallDestroyed) == 0 then old(nextInGame) else Pending(Summary)
    {
      if lastBallDestroyed == 0 {
        return;
      }
      lastBallDestroyed := 0;
      nextInGame := Pending(Summary);
    }

    /**
     * `check_toggle_pause_condition`: fires when a toggle request is unread
     * or Escape went down; the requests are consumed, and a firing call
     * requests the toggle of the current state exactly once, even when both
     * causes are present. A call that does not fire changes nothing.
     */
    method CheckTogglePauseCondition(keys: ButtonInput<KeyCode>)
      modifies this`togglePauseRequested, this`nextInGame
      ensures togglePauseRequested == 0
      ensures nextInGame ==
                if old(togglePauseRequested) != 0 || keys.JustPressed(Escape) then Pending(ToggleTarget(state))
                else old(nextInGame)
    {
      var toggle := false;
      if togglePauseRequested != 0 {
        toggle := true;
        togglePauseRequested := 0;
      }
      if keys.JustPressed(Escape) {
        toggle := true;
      }
      if !toggle {
        return;
      }
      if state == Play {
        nextInGame := Pending(Pause);
      } else {
        nextInGame := Pending(Play);
      }
    }

    /**
     * `test_settings`: apply the Q/E step to the settings selected by the
     * held digit keys; nothing else changes, and every setting stays inside
     * its range.
     */
    method TestSettings(keys: ButtonInput<KeyCode>)
      requires Valid()
      modifies this`paddleSize, this`paddleSpeed, this`ballSize, this`ballSpeed, this`brickGhost
      ensures Valid()
      ensures CurrentSettings() == Dispatch(old(CurrentSettings()), keys, ranges)
    {
      var value := if keys.JustPressed(KeyQ) then -1 else if keys.JustPressed(KeyE) then 1 else 0;
      if value == 0 {
        return;
      }
      if keys.Pressed(Digit1) {
        paddleSize := ChangePoints(paddleSize, value, ranges.paddleSize);
      }
      if keys.Pressed(Digit2) {
        paddleSpeed := ChangePoints(paddleSpeed, value, ranges.paddleSpeed);
      }
      if keys.Pressed(Digit3) {
        ballSize := ChangePoints(ballSize, value, ranges.ballSize);
      }
      if keys.Pressed(Digit4) {
        ballSpeed := ChangePoints(ballSpeed, value, ranges.ballSpeed);
      }
      if keys.Pressed(Digit5) {
        brickGhost := value > 0;
      }
    }
  }

  /**
   * The menu and restart checks are not ordered relative to each other, and
   * the pending application state is last-write-wins: with both requests
   * unread in one frame, the outcome is the request of whichever check runs
   * second.
   */
  method MenuAndRestartInOneFrame(ranges: SettingRanges, defaults: Defaults)
    returns (menuFirst: NextState<AppState>, restartFirst: NextState<AppState>)
    requires ranges.Valid() && ranges.Admits(defaults.settings)
    ensures menuFirst == Pending(RestartInGame)
    ensures restartFirst == Pending(Menu)
  {
    var a := new GameSession(ranges, defaults);
    a.menuRequested, a.restartRequested := 1, 1;
    a.CheckMenuCondition();
    a.CheckRestartCondition();
    menuFirst := a.nextApp;

    var b := new GameSession(ranges, defaults);
    b.menuRequested, b.restartRequested := 1, 1;
    b.CheckRestartCondition();
    b.CheckMenuCondition();
    restartFirst := b.nextApp;
  }

  /**
   * Likewise the toggle and summary checks: in Play, with the last ball lost
   * and Escape pressed in the same frame, Pause or Summary is pending
   * depending on which check runs second.
   */
  method ToggleAndSummaryInOneFrame(ranges: SettingRanges, defaults: Defaults, keys: ButtonInput<KeyCode>)
    returns (toggleFirst: NextState<InGameState>, summaryFirst: NextState<InGameState>)
    requires ranges.Valid() && ranges.Admits(defaults.settings)
    requires keys.JustPressed(Escape)
    ensures toggleFirst == Pending(Summary)
    ensures summaryFirst == Pending(Pause)
  {
    var a := new GameSession(ranges, defaults);
    a.state, a.lastBallDestroyed := Play, 1;
    a.CheckTogglePauseCondition(keys);
    a.CheckSummaryCondition();
    toggleFirst := a.nextInGame;

    var b := new GameSession(ranges, defaults);
    b.state, b.lastBallDestroyed := Play, 1;
    b.CheckSummaryCondition();
    b.CheckTogglePauseCondition(keys);
    summaryFirst := b.nextInGame;
  }
}
