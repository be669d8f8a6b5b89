# Brick breaker: in-game mode state machine and settings keys

A Dafny model of the core of the game plugin (`src/game/mod.rs`) of a
Bevy brick-breaker game. The core covers these parts:

- the in-game sub-states `None`, `Preparation`, `Play`, `Pause` and
  `Summary`;
- the systems that request state changes, and the lifecycle hooks that run
  when the game starts, ends or restarts;
- the `test_settings` dispatcher, which turns a Q/E press and held digit
  keys into changes of the difficulty settings;
- the gating that decides which systems run in which state.

The shared state the systems read and write is the class
`Game.GameSession`. It holds these fields:

- the current in-game state;
- the pending in-game state and the pending application state. Bevy's
  `NextState`, overwritten by each `set`, so the last write wins;
- the unread events of the four queues the checks consume. Each queue is
  a count, and `clear` sets it to zero;
- the score, the brick-row spawn cooldown and the five settings
  resources.

There is one method per system. Each method states the whole new state and
names, in its `modifies` clause, the fields it may change. The other fields
stay as they were. Pure functions state the decisions the systems take:
`PreparationEnds`, `ToggleTarget`, `SettingsDelta` and `Dispatch`. Lemmas
relate these decisions across calls and frames.

Keyboard and mouse input is a parameter (`Input.ButtonInput`). It gives the
held buttons and the buttons that went down this frame. The just-pressed
buttons come in the order the engine's iterator yields them. That order is a
hash-set order the game does not control.

Facts about the code that the model keeps:

- The four checks (menu, restart, toggle pause, summary) are registered as
  one unordered tuple (`src/game/mod.rs:121-126`). Menu has no priority over
  restart, and toggle has no priority over summary.
  `MenuAndRestartInOneFrame` and `ToggleAndSummaryInOneFrame` show that
  either order is possible, and that each order gives a different pending
  state.
- Toggling pause requests Play from every state other than Play, not only
  from Pause.
- Preparation ends according to the first key the keyboard reports, not to
  any non-arrow key. `PreparationEndDependsOnReportOrder` shows that an
  arrow key and another key pressed together end Preparation only when the
  other key is reported first.
- `change_points` is assumed to clamp the setting into an inclusive range
  of points. The settings' own module (`resources`) is not part of this
  model, so the ranges and the defaults are constructor parameters. No
  concrete bounds are invented.

## Model

| member | source | states |
|---|---|---|
| `Resources.ChangePoints` | src/game/mod.rs:249-260 | a step keeps the setting inside its range; the result is the point of the range nearest to the stepped value |
| `Resources.ChangePointsUndo` | src/game/mod.rs:249-260 | inside the range, a step is undone by the opposite step |
| `Resources.ChangeRepeatedlyIsOneStep` | src/game/mod.rs:249-260 | `n` single ±1 steps from inside the range end where one clamped step of ±`n` ends |
| `Resources.Saturates` | src/game/mod.rs:249-260 | raising more often than the headroom leaves the setting at its maximum; lowering more often than the footroom leaves it at its minimum |
| `Game.PreparationEnds` | src/game/mod.rs:153-159 | Play is requested iff the first reported key is not an arrow key, or no key but some mouse button went down; a request needs some non-arrow key or some mouse button |
| `Game.PreparationEndDependsOnReportOrder` | src/game/mod.rs:153-156 | the same pressed keys end Preparation or not depending on which one is reported first |
| `Game.ToggleTarget` | src/game/mod.rs:222-226 | the toggle requests Pause iff the current state is Play, and Play otherwise |
| `Game.ToggleTwice` | src/game/mod.rs:222-226 | two toggles return Play or Pause to itself; from any other state they lead to Pause |
| `Game.SettingsDelta` | src/game/mod.rs:237-243 | the step is -1 iff Q went down, +1 iff E but not Q went down, and 0 iff neither went down |
| `Game.Dispatch` | src/game/mod.rs:245-263 | a zero step changes nothing; settings whose digit is not held are unchanged; held digits 1-4 apply the clamped step to paddle size, paddle speed, ball size and ball speed, which moves them by the step when that stays in range; digit 5 turns ghost bricks on iff the step is +1; settings in range stay in range |
| `Game.DispatchRaiseThenLower` | src/game/mod.rs:237-263 | an E frame followed by a Q frame with the same digits held restores the settings, when no selected setting was at its maximum and ghost bricks were off or not selected |
| `Game.DispatchFramesRaisesPaddleSize` | src/game/mod.rs:249-251 | `n` frames of E with digit 1 held raise the paddle size one point per frame up to its maximum and leave the other settings alone |
| `Game.GameSession.constructor` | src/game/mod.rs:53-65 | the session starts in None with nothing pending, empty event queues and every resource at its default |
| `Game.GameSession.StartUp` | src/game/mod.rs:133-135 | Preparation becomes the pending in-game state |
| `Game.GameSession.CleanUp` | src/game/mod.rs:137-146 | None becomes pending; score, brick-row cooldown and the five settings return to their defaults; nothing else changes |
| `Game.GameSession.CheckPreparationEndCondition` | src/game/mod.rs:148-160 | Play becomes pending exactly when `PreparationEnds` holds; otherwise the pending state is unchanged |
| `Game.GameSession.CheckMenuCondition` | src/game/mod.rs:162-172 | with an empty queue nothing changes; otherwise the queue is cleared and Menu becomes the pending application state |
| `Game.GameSession.CheckRestartCondition` | src/game/mod.rs:174-184 | with an empty queue nothing changes; otherwise the queue is cleared and RestartInGame becomes the pending application state |
| `Game.GameSession.ContinueRestartGame` | src/game/mod.rs:186-188 | InGame becomes the pending application state |
| `Game.GameSession.CheckSummaryCondition` | src/game/mod.rs:190-200 | with no last-ball event nothing changes; otherwise the events are cleared and Summary becomes pending |
| `Game.GameSession.CheckTogglePauseCondition` | src/game/mod.rs:202-227 | fires iff a toggle request is queued or Escape went down; the queue ends empty; a firing call requests the toggle of the current state once; a call that does not fire changes nothing |
| `Game.GameSession.TestSettings` | src/game/mod.rs:229-264 | the five settings become `Dispatch` of their old values; nothing else changes; every setting stays in range |
| `Game.MenuAndRestartInOneFrame` | src/game/mod.rs:121-126 | example: from a fresh session with one menu and one restart request queued, the pending application state is that of whichever check runs second |
| `Game.ToggleAndSummaryInOneFrame` | src/game/mod.rs:121-126 | example: from a fresh session in Play with one last-ball event queued and Escape pressed, Summary or Pause is pending depending on which check runs second |
| `Schedule.Scheduled` | src/game/mod.rs:94-129 | nothing runs outside the in-game application state; inside it the four checks run in every in-game state; each of the other preparation systems runs exactly in Preparation, each of the other gameplay systems exactly in Play, the paddle movement in both, and the pause and summary interactions exactly in Pause and Summary |
| `Schedule.ModeGroupsOverlapOnlyInPaddle` | src/game/mod.rs:94-120 | a system that runs in two different in-game states is one of the four checks or the paddle movement |
| `Schedule.OnEnter` | src/game/mod.rs:66-76 | entering InGame runs `start_up`; entering RestartInGame runs `continue_restart_game` |
| `Schedule.OnExit` | src/game/mod.rs:77-87 | leaving InGame runs `clean_up` |

## Left out

- Collision, ball motion and bouncing: they live in the `collider`, `ball/systems` and `brick` modules. Those modules are not part of this model, and they use floating point.
- src/game/ball/mod.rs: it only registers systems, and its constants are floating-point numbers.
- src/menu/mod.rs: it only registers the menu's UI systems.
- The view systems: spawning and despawning the score, pause, preparation and summary views, sparks and collectables. They are rendering and UI.
- Resources.ChangePoints: `change_points` and `set_enabled` are defined in the `resources` module, which is not part of this model. `change_points` is assumed to clamp into an inclusive range. The concrete bounds, the defaults and the physical quantities derived from the points are parameters, not modelled values.
- Score and BrickRowSpawnCooldown: only their reset by `clean_up` is modelled. The cooldown is a timer in the game; here it is an abstract counter.
- AppState: the application state is declared in the crate root, which is not part of this model. The model lists only the three states the game plugin requests.
- Bevy scheduler semantics are not modelled:
  - applying a pending state in the state-transition schedule, and running the enter/exit hooks;
  - event double-buffering, where unread events expire after two frames;
  - the deferred application of `Commands::insert_resource`, which `CleanUp` performs at once;
  - the scheduler's unspecified order among unchained systems. The model only shows that two orders give different outcomes;
  - the `.chain()` order of `move_paddle` before `keep_ball_at_paddle_center` in Preparation (`src/game/mod.rs:98`). `Schedule.Scheduled` gives the set of systems in a frame, not their order.
- Sending events: `MenuRequested`, `RestartRequested`, `TogglePauseRequested` and `LastBallDestroyed` are produced by UI and ball systems outside the core. The two one-frame methods set the queue counts directly.
