/**
  GameEngine as a state machine over values.

  The two flags `isRunning` and `isPaused`, the callbacks waiting on the
  main-looper handler, whether the five managers have been assigned, the
  lateinit game state, the preference store, and what the engine hands to
  collaborators it cannot see: the `deltaTime` of every update (to the
  managers) and the number of sync coroutines launched.

  The handler is a sequential queue: `postDelayed` adds one copy of a
  callback to the pending multiset, `removeCallbacks` removes every copy,
  and the looper running a callback is `Fire`, which takes one copy out
  before running it.  The delays themselves (1 s, 30 s, 60 s) only decide
  which pending callback the looper runs next, so they are not kept.

  The class in module Engine mutates fields.  Its lifecycle and loop methods
  are specified by the function of the same name here; its game-state
  builders are specified by the GameData functions they compute, and its two
  flag queries return the flags.
 */
module EngineModel {
  import opened Wrappers
  import opened Persistence
  import opened GameData

  /** `gameUpdateRunnable`, `saveGameRunnable`, `networkSyncRunnable`. */
  datatype Callback = UpdateLoop | SaveLoop | SyncLoop

  /**
    Where `initialize` throws, if it does: a manager constructor, one of the
    three `initialize(playerKingdom)` calls after the state is loaded, or the
    MediaService calls.  Each exception is caught by `initialize` itself.
   */
  datatype InitFault = NoFault | ManagersFault | ManagerInitFault | MediaFault

  datatype EngineState = EngineState(
    running: bool,
    paused: bool,
    pending: multiset<Callback>,
    managersReady: bool,
    game: Option<GameState>,
    store: Store,
    ticks: seq<int>,
    syncs: nat)

  const AllLoops: multiset<Callback> := multiset{UpdateLoop, SaveLoop, SyncLoop}

  /** A freshly constructed engine: both flags false, nothing posted, nothing loaded. */
  function Initial(store: Store): EngineState
  {
    EngineState(false, false, multiset{}, false, None, store, [], 0)
  }

  /** The guard of the update and sync runnables. */
  predicate Active(e: EngineState)
  {
    e.running && !e.paused
  }

  /** `isRunning` is only set once the managers and the game state have been assigned. */
  predicate Consistent(e: EngineState)
  {
    e.running ==> e.managersReady && e.game.Some?
  }

  /**
    `updateGame`: delta = now - lastUpdateTime, then lastUpdateTime = now, and
    the delta goes to the managers.  Reading an unassigned game state throws
    inside the `try` and changes nothing.
   */
  function UpdateGame(e: EngineState, now: int): EngineState
  {
    match e.game
    case None => e
    case Some(g) =>
      e.(game := Some(g.(lastUpdateTime := now)), ticks := e.ticks + [now - g.lastUpdateTime])
  }

  /**
    `saveGameState`: lastSaveTime = now, then the JSON goes under "game_state".
    If `toJson` throws, the new lastSaveTime stays and nothing is written.
   */
  function SaveGameState(e: EngineState, now: int, toJson: Encoder): EngineState
  {
    match e.game
    case None => e
    case Some(g) =>
      var stamped := g.(lastSaveTime := now);
      match toJson(stamped)
      case None => e.(game := Some(stamped))
      case Some(json) => e.(game := Some(stamped), store := e.store[GameStateKey := json])
  }

  /** `syncWithServer`: launches a coroutine; its network exchange is not modelled. */
  function SyncWithServer(e: EngineState): EngineState
  {
    e.(syncs := e.syncs + 1)
  }

  function Post(e: EngineState, r: Callback): EngineState
  {
    e.(pending := e.pending + multiset{r})
  }

  function RemoveCallbacks(e: EngineState, r: Callback): EngineState
  {
    e.(pending := e.pending[r := 0])
  }

  /** The looper runs one pending copy of `r`; each runnable re-posts itself only under its own guard. */
  function Fire(e: EngineState, r: Callback, now: int, toJson: Encoder): EngineState
    requires r in e.pending
  {
    var taken := e.(pending := e.pending - multiset{r});
    match r
    case UpdateLoop => if Active(taken) then Post(UpdateGame(taken, now), UpdateLoop) else taken
    case SaveLoop => if taken.running then Post(SaveGameState(taken, now, toJson), SaveLoop) else taken
    case SyncLoop => if Active(taken) then Post(SyncWithServer(taken), SyncLoop) else taken
  }

  function Pause(e: EngineState): EngineState
  {
    e.(paused := true)
  }

  /** `resume`: clears the pause flag and, when running, posts the update runnable only. */
  function Resume(e: EngineState): EngineState
  {
    var resumed := e.(paused := false);
    if resumed.running then Post(resumed, UpdateLoop) else resumed
  }

  /** `cleanup`: both flags, the three `removeCallbacks`, then one final save. */
  function Cleanup(e: EngineState, now: int, toJson: Encoder): EngineState
  {
    var stopped := e.(running := false, paused := true);
    var cleared := RemoveCallbacks(RemoveCallbacks(RemoveCallbacks(stopped, UpdateLoop), SaveLoop), SyncLoop);
    SaveGameState(cleared, now, toJson)
  }

  function StartUpdateLoops(e: EngineState): EngineState
  {
    Post(Post(Post(e, UpdateLoop), SaveLoop), SyncLoop)
  }

  /**
    `initialize`: managers, then the game state, then the media calls, then
    `isRunning` and the three loops.  A fault stops the sequence where it
    happens; `isPaused` is never touched.
   */
  function Initialize(e: EngineState, fromJson: Decoder, inputs: NewGameInputs, fault: InitFault): EngineState
  {
    if fault == ManagersFault then e
    else
      var loaded := e.(managersReady := true, game := Some(LoadGameState(e.store, fromJson, inputs)));
      if fault != NoFault then loaded else StartUpdateLoops(loaded.(running := true))
  }

  /** What can happen to an engine: the looper runs a callback, or the activity calls in. */
  datatype Event =
    | Fired(callback: Callback, now: int)
    | Paused
    | Resumed
    | CleanedUp(now: int)
    | Initialized(inputs: NewGameInputs, fault: InitFault)

  /** One event; the looper can only run a callback that is pending, so any other `Fired` is no step. */
  function Step(e: EngineState, ev: Event, toJson: Encoder, fromJson: Decoder): EngineState
  {
    match ev
    case Fired(r, now) => if r in e.pending then Fire(e, r, now, toJson) else e
    case Paused => Pause(e)
    case Resumed => Resume(e)
    case CleanedUp(now) => Cleanup(e, now, toJson)
    case Initialized(inputs, fault) => Initialize(e, fromJson, inputs, fault)
  }

  function Run(e: EngineState, evs: seq<Event>, toJson: Encoder, fromJson: Decoder): EngineState
    decreases |evs|
  {
    if evs == [] then e else Run(Step(e, evs[0], toJson, fromJson), evs[1..], toJson, fromJson)
  }

  predicate NoInitialize(evs: seq<Event>)
  {
    forall i :: 0 <= i < |evs| ==> !evs[i].Initialized?
  }

  predicate OnlyFirings(evs: seq<Event>)
  {
    forall i :: 0 <= i < |evs| ==> evs[i].Fired?
  }

  /** The sum of the deltas, last element peeled off first (the engine appends). */
  function Sum(s: seq<int>): int
    decreases |s|
  {
    if s == [] then 0 else Sum(s[..|s| - 1]) + s[|s| - 1]
  }
}
