/**
 * The state gating of `GamePlugin::build`: which per-frame systems run in
 * which application and in-game state, and which lifecycle hooks run on
 * entering or leaving an application state.
 */
module Schedule {
  import opened Game

  /** The systems registered in the per-frame `Update` schedule. */
  datatype System =
    | MovePaddle | KeepBallAtPaddleCenter | CheckPreparationEndCondition
    | UpdateScoreView | MoveBalls | DestroyBricksOnHit | TestSettings
    | KeepBallSyncedWithSettings | KeepDestroyingBalls | KeepPaddleSyncedWithSettings
    | KeepBrickSyncedWithSettings | KeepSpawningBricks | KeepSpawningCollectables
    | MoveSparks | KeepDespawningSparks | CollectCollectables
    | CheckPauseInteractions | CheckSummaryInteractions
    | CheckMenuCondition | CheckRestartCondition | CheckTogglePauseCondition | CheckSummaryCondition

  const PREPARATION_SYSTEMS: set<System> := {MovePaddle, KeepBallAtPaddleCenter, CheckPreparationEndCondition}

  const PLAY_SYSTEMS: set<System> := {
    UpdateScoreView, MovePaddle, MoveBalls, DestroyBricksOnHit, TestSettings,
    KeepBallSyncedWithSettings, KeepDestroyingBalls, KeepPaddleSyncedWithSettings,
    KeepBrickSyncedWithSettings, KeepSpawningBricks, KeepSpawningCollectables,
    MoveSparks, KeepDespawningSparks, CollectCollectables}

  /** The four checks, registered as one unordered tuple. */
  const STATE_CHECKS: set<System> := {CheckMenuCondition, CheckRestartCondition, CheckTogglePauseCondition, CheckSummaryCondition}

  /**
   * The systems that run in a frame: none outside the in-game application
   * state; inside it, the four checks in every in-game state, plus the
   * group gated on the current in-game state.
   */
  function Scheduled(app: AppState, mode: InGameState): (r: set<System>)
    ensures app != InGame ==> r == {}
    ensures STATE_CHECKS <= r <==> app == InGame
    ensures forall sys :: sys in PREPARATION_SYSTEMS - {MovePaddle} ==> (sys in r <==> app == InGame && mode == Preparation)
    ensures forall sys :: sys in PLAY_SYSTEMS - {MovePaddle} ==> (sys in r <==> app == InGame && mode == Play)
    ensures CheckPreparationEndCondition in r <==> app == InGame && mode == Preparation
    ensures TestSettings in r <==> app == InGame && mode == Play
    ensures MoveBalls in r <==> app == InGame && mode == Play
    ensures MovePaddle in r <==> app == InGame && (mode == Preparation || mode == Play)
    ensures CheckPauseInteractions in r <==> app == InGame && mode == Pause
    ensures CheckSummaryInteractions in r <==> app == InGame && mode == Summary
    ensures app == InGame && mode == None ==> r == STATE_CHECKS
  {
    if app != InGame then {}
    else
      STATE_CHECKS +
      match mode
      case None => {}
      case Preparation => PREPARATION_SYSTEMS
      case Play => PLAY_SYSTEMS
      case Pause => {CheckPauseInteractions}
      case Summary => {CheckSummaryInteractions}
  }

  /** The lifecycle hooks of the core. */
  datatype Hook = StartUp | CleanUp | ContinueRestartGame

  /** Hooks run on entering an application state. */
  function OnEnter(app: AppState): (r: set<Hook>)
    ensures StartUp in r <==> app == InGame
    ensures ContinueRestartGame in r <==> app == RestartInGame
    ensures CleanUp !in r
  {
    match app
    case InGame => {StartUp}
    case RestartInGame => {ContinueRestartGame}
    case Menu => {}
  }

  /** Hooks run on leaving an application state. */
  function OnExit(app: AppState): (r: set<Hook>)
    ensures CleanUp in r <==> app == InGame
    ensures StartUp !in r && ContinueRestartGame !in r
  {
    if app == InGame then {CleanUp} else {}
  }

  /**
   * Systems of different in-game states never share a frame except the
   * paddle movement, which Preparation and Play both run.
   */
  lemma ModeGroupsOverlapOnlyInPaddle(app: AppState, m1: InGameState, m2: InGameState, s: System)
    requires m1 != m2 && s in Scheduled(app, m1) && s in Scheduled(app, m2)
    ensures s in STATE_CHECKS || s == MovePaddle
  {
  }
}
