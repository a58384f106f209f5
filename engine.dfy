/**
  GameEngine as the object the activity holds: the two flags, the handler's
  pending callbacks, the lateinit fields and the preference store are
  fields that its methods update in place.  The lifecycle and loop methods
  move the object's state by the function of the same name in EngineModel,
  so all of EngineProperties applies to the object.  The three game-state
  builders (GiveStartingResources, CreateNewGame, LoadGameState) are instead
  specified by the GameData functions they compute, with every other field
  unchanged.

  The clock, the random draw and the codec are inputs: each method that calls
  `System.currentTimeMillis()` takes the value it would read.
 */
module Engine {
  import opened Wrappers
  import opened Persistence
  import opened GameData
  import opened EngineModel

  class GameEngine {
    var running: bool
    var paused: bool
    var pending: multiset<Callback>
    var managersReady: bool
    var gameState: Option<GameState>
    var store: Store
    ghost var ticks: seq<int>
    ghost var syncs: nat
    const toJson: Encoder
    const fromJson: Decoder

    ghost function State(): EngineState
      reads this
    {
      EngineState(running, paused, pending, managersReady, gameState, store, ticks, syncs)
    }

    ghost predicate Valid()
      reads this
    {
      Consistent(State())
    }

    constructor (store: Store, toJson: Encoder, fromJson: Decoder)
      ensures Valid() && State() == Initial(store)
      ensures this.toJson == toJson && this.fromJson == fromJson
    {
      running, paused := false, false;
      pending := multiset{};
      managersReady := false;
      gameState := None;
      this.store := store;
      ticks, syncs := [], 0;
      this.toJson, this.fromJson := toJson, fromJson;
    }

    /** `isGameRunning`: while it holds, the managers and the game state exist. */
    method IsGameRunning() returns (b: bool)
      requires Valid()
      ensures b == running
      ensures b ==> managersReady && gameState.Some?
    {
      b := running;
    }

    /** `isGamePaused`. */
    method IsGamePaused() returns (b: bool)
      ensures b == paused
    {
      b := paused;
    }

    method Post(r: Callback)
      modifies this
      ensures State() == EngineModel.Post(old(State()), r)
    {
      pending := pending + multiset{r};
    }

    method RemoveCallbacks(r: Callback)
      modifies this
      ensures State() == EngineModel.RemoveCallbacks(old(State()), r)
    {
      pending := pending[r := 0];
    }

    method UpdateGame(now: int)
      modifies this
      ensures State() == EngineModel.UpdateGame(old(State()), now)
    {
      if gameState.Some? {
        var g := gameState.value;
        var deltaTime := now - g.lastUpdateTime;
        gameState := Some(g.(lastUpdateTime := now));
        ticks := ticks + [deltaTime];
      }
    }

    method SaveGameState(now: int)
      modifies this
      ensures State() == EngineModel.SaveGameState(old(State()), now, toJson)
    {
      if gameState.Some? {
        gameState := Some(gameState.value.(lastSaveTime := now));
        var json := toJson(gameState.value);
        if json.Some? {
          store := store[GameStateKey := json.value];
        }
      }
    }

    method SyncWithServer()
      modifies this
      ensures State() == EngineModel.SyncWithServer(old(State()))
    {
      syncs := syncs + 1;
    }

    /** The looper runs one pending copy of `r`. */
    method Fire(r: Callback, now: int)
      requires Valid() && r in pending
      modifies this
      ensures Valid()
      ensures State() == EngineModel.Fire(old(State()), r, now, toJson)
    {
      pending := pending - multiset{r};
      match r
      case UpdateLoop =>
        if running && !paused {
          UpdateGame(now);
          Post(UpdateLoop);
        }
      case SaveLoop =>
        if running {
          SaveGameState(now);
          Post(SaveLoop);
        }
      case SyncLoop =>
        if running && !paused {
          SyncWithServer();
          Post(SyncLoop);
        }
    }

    /** `giveStartingResources`: the five stockpiles of the player's kingdom, one by one. */
    method GiveStartingResources()
      requires gameState.Some?
      modifies this
      ensures gameState.Some?
      ensures var g := old(gameState.value);
              gameState.value == g.(currentPlayer := g.currentPlayer.(kingdom := WithStartingResources(g.currentPlayer.kingdom)))
      ensures running == old(running) && paused == old(paused) && pending == old(pending)
      ensures managersReady == old(managersReady) && store == old(store)
      ensures ticks == old(ticks) && syncs == old(syncs)
    {
      var g := gameState.value;
      var kingdom := g.currentPlayer.kingdom;
      var resources := kingdom.resources;
      resources := resources.(gold := 1000);
      resources := resources.(food := 500);
      resources := resources.(wood := 300);
      resources := resources.(stone := 200);
      resources := resources.(iron := 100);
      gameState := Some(g.(currentPlayer := g.currentPlayer.(kingdom := kingdom.(resources := resources))));
    }

    /** `createNewGame`: player, then kingdom, then the game state, then the starting resources. */
    method CreateNewGame(inputs: NewGameInputs)
      modifies this
      ensures gameState == Some(NewGame(old(store), inputs))
      ensures running == old(running) && paused == old(paused) && pending == old(pending)
      ensures managersReady == old(managersReady) && store == old(store)
      ensures ticks == old(ticks) && syncs == old(syncs)
    {
      var id := GeneratePlayerId(inputs.idMillis, inputs.draw);
      var kingdom := Kingdom(id, GetString(store, KingdomNameKey, DefaultKingdomName), 1, Resources(0, 0, 0, 0, 0));
      var player := Player(id, GetString(store, PlayerNameKey, DefaultPlayerName), 1, 0, kingdom);
      gameState := Some(GameState(player, GameVersion, inputs.now, inputs.initialUpdateTime));
      GiveStartingResources();
    }

    method LoadGameState(inputs: NewGameInputs)
      modifies this
      ensures gameState == Some(GameData.LoadGameState(old(store), fromJson, inputs))
      ensures running == old(running) && paused == old(paused) && pending == old(pending)
      ensures managersReady == old(managersReady) && store == old(store)
      ensures ticks == old(ticks) && syncs == old(syncs)
    {
      var saved := GetString(store, GameStateKey, "");
      if saved != "" {
        var parsed := fromJson(saved);
        if parsed.Some? {
          gameState := parsed;
        } else {
          CreateNewGame(inputs);
        }
      } else {
        CreateNewGame(inputs);
      }
    }

    method StartUpdateLoops()
      modifies this
      ensures State() == EngineModel.StartUpdateLoops(old(State()))
    {
      Post(UpdateLoop);
      Post(SaveLoop);
      Post(SyncLoop);
    }

    /** `initialize`, with the place it throws at, if any, as `fault`. */
    method Initialize(inputs: NewGameInputs, fault: InitFault)
      requires Valid()
      modifies this
      ensures Valid()
      ensures State() == EngineModel.Initialize(old(State()), fromJson, inputs, fault)
    {
      if fault == ManagersFault {
        return;
      }
      managersReady := true;
      LoadGameState(inputs);
      if fault != NoFault {
        return;
      }
      running := true;
      StartUpdateLoops();
    }

    method Pause()
      requires Valid()
      modifies this
      ensures Valid()
      ensures State() == EngineModel.Pause(old(State()))
    {
      paused := true;
    }

    method Resume()
      requires Valid()
      modifies this
      ensures Valid()
      ensures State() == EngineModel.Resume(old(State()))
    {
      paused := false;
      if running {
        Post(UpdateLoop);
      }
    }

    /**
      `cleanup`.  `completed` is false when the managers were never assigned:
      the first manager `cleanup()` call then throws out of the method, after
      the flags, the callbacks and the final save have been dealt with.
     */
    method Cleanup(now: int) returns (completed: bool)
      requires Valid()
      modifies this
      ensures Valid()
      ensures State() == EngineModel.Cleanup(old(State()), now, toJson)
      ensures completed == old(managersReady)
    {
      running := false;
      paused := true;
      RemoveCallbacks(UpdateLoop);
      RemoveCallbacks(SaveLoop);
      RemoveCallbacks(SyncLoop);
      SaveGameState(now);
      completed := managersReady;
    }
  }
}
