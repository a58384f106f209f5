# War Kingdoms: engine lifecycle and language settings in Dafny

This project models two parts of the War Kingdoms Android client and proves properties about them.

**GameEngine** (`game/GameEngine.kt`) is modelled as a state machine. It has two flags, `isRunning` and `isPaused`. Three runnables re-post themselves on the main-looper handler: update (1 s), save (30 s) and network sync (60 s).
- The handler becomes a multiset of pending callbacks. `Fire(r)` is the looper running one pending copy of `r`.
- `initialize`, `pause`, `resume` and `cleanup` move the engine between states.
- The engine creates or loads a game state. This covers the new-game defaults, the player id, the starting resources and the fallback from an unreadable snapshot.
- The engine keeps the `lastUpdateTime`/`lastSaveTime` bookkeeping.
- `EngineModel` gives each operation as a function on an `EngineState` value.
- `EngineProperties` proves the lifecycle facts about those functions. Some facts cover one step, and some cover any sequence of events (`Run`).
- `Engine.GameEngine` is the object itself, and its fields are updated in place. Its lifecycle and loop methods move the state by the `EngineModel` function of the same name. The three game-state builders (`GiveStartingResources`, `CreateNewGame`, `LoadGameState`) are specified by the `GameData` functions they compute, and they leave every other field unchanged.

**LanguageUtil** (`core/utils/LanguageUtil.kt`) is modelled as follows.
- The fixed table of twelve ISO 639-1 codes and their display names.
- The lookups: name, current name, support, system-language fallback, right-to-left and font family.
- One piece of state: the current language next to the stored `selected_language` preference. `Language` gives the transitions as functions. `Localization.LanguageUtil` is the mutable singleton they specify.

Inputs from outside the modelled code are passed in as parameters:
- the wall clock (each `System.currentTimeMillis()` read);
- the random draw of `(1000..9999).random()`;
- the device's system language;
- the JSON codec of `GameState`, as a possibly failing encoder and decoder;
- the point where `initialize` throws, if it throws.

The preference store is a `map<string, string>`.

Three consequences of the code are worth stating, because each is easy to misread:
- `resume` posts only the update runnable (`GameEngine.kt:253-260`). So a sync chain that lapsed during a pause stays stopped until the next `initialize` (`SyncLapsedStaysLapsed`, `PauseResumeDropsSync`).
- The engine has only the two flags `isRunning` and `isPaused`, and any of their four combinations can occur. `cleanup` leaves running=false and paused=true. A later `initialize` does not touch `isPaused`, so it gives running=true and paused=true, and only the save loop keeps running (`ReinitializeAfterCleanupOnlySaves`).
- Nothing keeps the update chain unique. `GameActivity` calls `initialize` in `onCreate` and `resume` in `onResume`, which leaves two update callbacks pending (`StartupResumeDoublesUpdate`). Every pause/resume that ends before the pending update copy fires adds one more (`PauseResumeCyclesAddUpdateChains`). The looper still runs the callbacks one at a time, and the deltas still add up to the elapsed time (`DeltasTelescope`).

## Model

The functions of `EngineModel` (`UpdateGame`, `SaveGameState`, `SyncWithServer`, `Post`, `RemoveCallbacks`, `Fire`, `Pause`, `Resume`, `Cleanup`, `StartUpdateLoops`, `Initialize`) carry no contract of their own. They are the specifications that the `Engine.GameEngine` rows below refer to, and they model the same source lines as those rows. What they guarantee is stated by the `EngineProperties` rows.

| member | source | states |
|---|---|---|
| GameData.GeneratePlayerId | app/src/main/java/com/warkingdoms/game/GameEngine.kt:165-167 | the id is "player_", the clock value in decimal, "_" and a four-digit draw |
| GameData.PlayerIdRoundTrip | app/src/main/java/com/warkingdoms/game/GameEngine.kt:165-167 | a generated id parses back to exactly the millis and the draw (1000..9999) it was built from |
| GameData.WithStartingResources | app/src/main/java/com/warkingdoms/game/GameEngine.kt:169-177 | the kingdom's stockpile becomes gold 1000, food 500, wood 300, stone 200, iron 100; id, name and level are untouched |
| GameData.NewGame | app/src/main/java/com/warkingdoms/game/GameEngine.kt:138-163 | new game: player level 1 and experience 0, kingdom level 1 owned by the player's id, names from the "player_name"/"kingdom_name" preferences or "Player"/"My Kingdom", starting resources, version "1.0.0", lastSaveTime = the clock, and an id that decodes to the clock and the draw |
| GameData.LoadGameState | app/src/main/java/com/warkingdoms/game/GameEngine.kt:113-130 | the loaded game is either the new game built from the store or the decoding of a non-empty stored "game_state" string |
| GameData.LoadFallsBackToNewGame | app/src/main/java/com/warkingdoms/game/GameEngine.kt:113-130 | when "game_state" is absent, empty or unparseable, the loaded game is exactly the new game: the names, version, starting resources and a player id that decodes to the clock and the draw |
| GameData.LoadKeepsReadableSnapshot | app/src/main/java/com/warkingdoms/game/GameEngine.kt:115-122 | a non-empty snapshot that parses is the loaded game as it is |
| EngineProperties.UpdateFiring | app/src/main/java/com/warkingdoms/game/GameEngine.kt:50-57 | the update runnable re-posts itself exactly when running and not paused. Only then does it record delta = now - lastUpdateTime and set lastUpdateTime = now. Otherwise the chain ends and nothing else changes |
| EngineProperties.SaveFiring | app/src/main/java/com/warkingdoms/game/GameEngine.kt:59-66 | the save runnable re-posts itself whenever running, paused or not. It stamps lastSaveTime = now and writes the JSON under "game_state". If the encoder throws, only the stamp remains |
| EngineProperties.SyncFiring | app/src/main/java/com/warkingdoms/game/GameEngine.kt:68-75 | the sync runnable has the update runnable's guard; firing launches one sync and changes no game state |
| EngineProperties.StoppedFiringNeverRearms | app/src/main/java/com/warkingdoms/game/GameEngine.kt:50-75 | on a stopped engine, firing any callback only consumes it |
| EngineProperties.SaveLoopSurvivesPause | app/src/main/java/com/warkingdoms/game/GameEngine.kt:245-248 | after pause, the save callback still re-arms while the update and sync callbacks do not |
| EngineProperties.PausedEngineOnlySaves | app/src/main/java/com/warkingdoms/game/GameEngine.kt:50-75 | while paused, no run of firings produces a delta or a sync or adds update/sync callbacks, and the save loop keeps its count |
| EngineProperties.ResumeRestartsOnlyUpdate | app/src/main/java/com/warkingdoms/game/GameEngine.kt:253-260 | resume clears the pause flag and adds one update callback if running, none otherwise; save and sync counts are unchanged |
| EngineProperties.SyncLapsedStaysLapsed | app/src/main/java/com/warkingdoms/game/GameEngine.kt:253-260 | once no sync callback is pending, no event sequence without initialize brings one back or launches a sync |
| EngineProperties.PauseResumeDropsSync | app/src/main/java/com/warkingdoms/game/GameEngine.kt:245-260 | pause, update fires, sync fires, resume: exactly the save and update callbacks remain |
| EngineProperties.PauseResumeCyclesAddUpdateChains | app/src/main/java/com/warkingdoms/game/GameEngine.kt:245-260 | on a running engine, k pause/resume pairs with nothing fired in between leave k more update callbacks pending, the other counts unchanged, and the engine running and unpaused |
| EngineProperties.StartupResumeDoublesUpdate | app/src/main/java/com/warkingdoms/game/GameEngine.kt:253-260 | initialize followed by the activity's first resume leaves two update callbacks pending, one save and one sync |
| EngineProperties.CleanupStops | app/src/main/java/com/warkingdoms/game/GameEngine.kt:265-275 | after cleanup the engine is not running but paused, nothing is pending, and one final save has happened: lastSaveTime = now and "game_state" is written. No delta or sync is added |
| EngineProperties.StoppedStaysQuiet | app/src/main/java/com/warkingdoms/game/GameEngine.kt:265-272 | a stopped engine with nothing pending stays stopped, with nothing pending and no ticks or syncs, through any event sequence without initialize |
| EngineProperties.InitializeOutcome | app/src/main/java/com/warkingdoms/game/GameEngine.kt:80-103 | without an exception, running is set and the three loops are posted on top of what was pending. On any exception, running and the pending callbacks are unchanged. A fault in the manager constructors changes nothing, and a later fault keeps the loaded state. The pause flag is never touched |
| EngineProperties.ReinitializeAfterCleanupOnlySaves | app/src/main/java/com/warkingdoms/game/GameEngine.kt:80-103 | initialize after cleanup gives running and paused; once update and sync have fired, only the save callback is pending |
| EngineProperties.RunPreservesConsistent | app/src/main/java/com/warkingdoms/game/GameEngine.kt:80-97 | across every event sequence, running implies the managers and the game state are assigned |
| EngineProperties.DeltasTelescope | app/src/main/java/com/warkingdoms/game/GameEngine.kt:188-198 | over any event sequence without re-initialization, the deltas handed to the managers sum to the final lastUpdateTime minus the initial one |
| Engine.GameEngine.constructor | app/src/main/java/com/warkingdoms/game/GameEngine.kt:23-35 | a new engine is neither running nor paused, has nothing pending, and has no managers or game state |
| Engine.GameEngine.IsGameRunning | app/src/main/java/com/warkingdoms/game/GameEngine.kt:302 | returns the running flag; when it is true the managers and the game state exist |
| Engine.GameEngine.IsGamePaused | app/src/main/java/com/warkingdoms/game/GameEngine.kt:303 | returns the paused flag |
| Engine.GameEngine.Fire | app/src/main/java/com/warkingdoms/game/GameEngine.kt:50-75 | running one pending callback moves the object's state by EngineModel.Fire and keeps the running invariant |
| Engine.GameEngine.UpdateGame | app/src/main/java/com/warkingdoms/game/GameEngine.kt:188-206 | the delta bookkeeping of updateGame, in place |
| Engine.GameEngine.SaveGameState | app/src/main/java/com/warkingdoms/game/GameEngine.kt:218-226 | stamps lastSaveTime and stores the JSON in place; a missing game state or a throwing encoder is swallowed |
| Engine.GameEngine.SyncWithServer | app/src/main/java/com/warkingdoms/game/GameEngine.kt:231-240 | counts one launched sync and nothing else |
| Engine.GameEngine.GiveStartingResources | app/src/main/java/com/warkingdoms/game/GameEngine.kt:169-177 | writes the five stockpiles of the player's kingdom one by one; nothing else changes |
| Engine.GameEngine.CreateNewGame | app/src/main/java/com/warkingdoms/game/GameEngine.kt:138-163 | the game state becomes NewGame of the store; flags, queue and store are unchanged |
| Engine.GameEngine.LoadGameState | app/src/main/java/com/warkingdoms/game/GameEngine.kt:113-130 | the game state becomes the parsed snapshot or a new game; flags, queue and store are unchanged |
| Engine.GameEngine.StartUpdateLoops | app/src/main/java/com/warkingdoms/game/GameEngine.kt:179-183 | posts one copy of each of the three callbacks |
| Engine.GameEngine.Initialize | app/src/main/java/com/warkingdoms/game/GameEngine.kt:80-103 | the object's state moves by EngineModel.Initialize: managers, then load, then media, then running and the three loops, stopping at the fault |
| Engine.GameEngine.Pause | app/src/main/java/com/warkingdoms/game/GameEngine.kt:245-248 | sets the paused flag only, and keeps the running invariant |
| Engine.GameEngine.Resume | app/src/main/java/com/warkingdoms/game/GameEngine.kt:253-260 | clears the paused flag and, if running, posts the update callback; keeps the running invariant |
| Engine.GameEngine.Cleanup | app/src/main/java/com/warkingdoms/game/GameEngine.kt:265-289 | flags, the three removals and the final save, in place. It reports that cleanup does not finish when the managers were never assigned |
| Language.IsLanguageSupported | app/src/main/java/com/warkingdoms/core/utils/LanguageUtil.kt:109-111 | supported exactly for en, tr, de, fr, es, ru, zh, ar, pt, it, ja, ko |
| Language.TableSize | app/src/main/java/com/warkingdoms/core/utils/LanguageUtil.kt:18-31 | the table's keys are those twelve codes, all distinct, so it has twelve entries |
| Language.LanguageName | app/src/main/java/com/warkingdoms/core/utils/LanguageUtil.kt:116-118 | the table name for a supported code, "Unknown" otherwise |
| Language.LanguageNameUnknownIffUnsupported | app/src/main/java/com/warkingdoms/core/utils/LanguageUtil.kt:116-118 | the name is "Unknown" if and only if the code is unsupported |
| Language.CurrentLanguageName | app/src/main/java/com/warkingdoms/core/utils/LanguageUtil.kt:95-97 | the current code's name, or the name of "en" ("English") when the current code is not in the table |
| Language.GetSupportedLanguages | app/src/main/java/com/warkingdoms/core/utils/LanguageUtil.kt:102-104 | the copy has exactly the supported codes as keys, each with its name, twelve entries |
| Language.SystemLanguage | app/src/main/java/com/warkingdoms/core/utils/LanguageUtil.kt:44-57 | the system code when supported, "en" otherwise; always a supported code |
| Language.IsRTL | app/src/main/java/com/warkingdoms/core/utils/LanguageUtil.kt:123-128 | among the table's codes only ar is right-to-left; outside the table exactly he, fa and ur are |
| Language.FontFamily | app/src/main/java/com/warkingdoms/core/utils/LanguageUtil.kt:208-214 | "sans-serif-medium" exactly for zh, ja and ko, "sans-serif" for everything else |
| Language.SetLanguage | app/src/main/java/com/warkingdoms/core/utils/LanguageUtil.kt:62-68 | an unsupported code changes neither the current language nor the store; a supported one becomes current and is stored under "selected_language" |
| Language.SetLanguageIdempotent | app/src/main/java/com/warkingdoms/core/utils/LanguageUtil.kt:62-68 | setting the same code twice equals setting it once |
| Language.SetLanguageLastWins | app/src/main/java/com/warkingdoms/core/utils/LanguageUtil.kt:62-68 | a supported code overrides whatever was set before it |
| Language.Initialize | app/src/main/java/com/warkingdoms/core/utils/LanguageUtil.kt:36-39 | afterwards a "selected_language" preference is always stored, the current language equals it, and no other key is added, removed or changed |
| Language.InitializeKeepsStoredPreference | app/src/main/java/com/warkingdoms/core/utils/LanguageUtil.kt:36-39 | with a stored preference, that value becomes current, supported or not, and the store is unchanged |
| Language.InitializeWithoutPreference | app/src/main/java/com/warkingdoms/core/utils/LanguageUtil.kt:36-39 | with no stored preference, the system language (or "en") becomes current and is stored |
| Language.InitializeSupportedIff | app/src/main/java/com/warkingdoms/core/utils/LanguageUtil.kt:36-39 | after initialize, the current code is supported if and only if no preference was stored or the stored one is supported |
| Language.SpinnerSelectionApplies | app/src/main/java/com/warkingdoms/ui/SettingsActivity.kt:91-94 | every code the settings spinner offers is supported, so selecting it sets the current language and stores it |
| Localization.LanguageUtil.constructor | app/src/main/java/com/warkingdoms/core/utils/LanguageUtil.kt:14-15 | before initialize the current language is "en" |
| Localization.LanguageUtil.SetLanguage | app/src/main/java/com/warkingdoms/core/utils/LanguageUtil.kt:62-68 | the singleton's fields move by Language.SetLanguage |
| Localization.LanguageUtil.Initialize | app/src/main/java/com/warkingdoms/core/utils/LanguageUtil.kt:36-39 | the stored preference or system language is assigned directly, then passed to setLanguage, as Language.Initialize |
| Localization.LanguageUtil.GetCurrentLanguage | app/src/main/java/com/warkingdoms/core/utils/LanguageUtil.kt:88-90 | returns the current code |

## Left out

- Game managers: `ResourceManager`, `BuildingManager`, `ArmyManager`, `BattleManager` and `NetworkManager` are not part of this model. Their `update(deltaTime)` calls appear only as the sequence of deltas handed to them. Their `initialize` and constructor calls appear only as the point where `initialize` may throw. Their `cleanup` calls appear only as whether `cleanup` finishes. `updateGameState` has an empty body.
- `GameState.toJson`/`fromJson` and the Player, Kingdom and GameState classes are not part of this model. The codec is an arbitrary, possibly failing encoder and decoder. Only the fields the engine touches are kept. A fresh GameState's default `lastUpdateTime` is an input.
- `syncWithServer`: the coroutine and the network exchange are left out. A sync is only counted as launched.
- Handler delays: the 1 s, 30 s and 60 s intervals only decide the order in which the looper runs callbacks. The order is left free: any pending callback may fire next.
- Object identity: `currentPlayer` and `playerKingdom` always alias parts of `gameState` in the source. The model therefore reaches them through the game state and keeps no separate fields for them.
- `Engine.GameEngine.UpdateGame`: `deltaTime` is an unbounded integer. Long overflow of `currentTime - lastUpdateTime` is not modelled, because it needs clock values beyond any real time.
- MediaService calls (music start, pause, resume, stop) are left out, apart from the point where `initialize` may throw. `gameScope.cancel()` is left out too, because both are audio or coroutine plumbing.
- Handler and flag concurrency: `AtomicBoolean` and the main looper are taken as one sequential context, as they run on the main thread.
- LanguageUtil: the locale and `Configuration` updates in `setLanguage`, `getString`, the number/currency/date/time formatting and `getTextSizeMultiplier` are left out, because they are Android and `java.text` calls and float values. `getSystemLanguage` takes the device language as a parameter. The source reads an undeclared `context` to get it.
- Language lookups (`IsRTL`, `FontFamily`, `CurrentLanguageName`) take the current code as an argument rather than reading the singleton's field.
- PreferenceUtil is the plain map `Persistence.Store`. Its encrypted store and its asynchronous `apply()` are left out, because they are storage plumbing. The source's one `PreferenceUtil` becomes two separate stores, `Engine.GameEngine.store` and `Localization.LanguageUtil.store`. Their keys do not overlap, so no read of one ever sees a write of the other. `PreferenceUtil.kt` declares the package `com.warkingdoms.turkuaz.core.utils`, while `GameEngine.kt` and `WarKingdomsApplication.kt` import `com.warkingdoms.core.utils.PreferenceUtil`. The model takes the two to be the same object.
- The settings spinner's own write of "selected_language" before it calls `setLanguage` writes the same value. `Language.SpinnerSelectionApplies` therefore states the combined effect and does not model the listener.
- `Language.GetSupportedLanguages`: Kotlin's `toMap()` keeps the declaration order, but a Dafny `map` has none, so the iteration order of the copy is not modelled. `Language.TableCodes` records that order.
- `Language.SpinnerSelectionApplies`: `SettingsActivity.kt` imports `LanguageUtil` from the package `com.warkingdoms.turkuaz.core.utils`, while `LanguageUtil.kt` declares `com.warkingdoms.core.utils`. The lemma takes the two to be the same object. It also requires a position inside the seven-code list: for a larger position `languages[position]` in `SettingsActivity.kt` throws `ArrayIndexOutOfBoundsException`. That case is not modelled, because the spinner's entries are not part of this model.
