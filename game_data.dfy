/**
  The game-state values GameEngine creates and loads: a player, the kingdom
  the player owns, its resource stockpile and the GameState envelope, plus the
  new-game path (player id, defaults, starting resources) and the load path
  with its fallback to a new game.

  The GameState, Player and Kingdom classes and their JSON codec belong to a
  part of the repository that is not part of this model; only the fields the
  engine reads or writes are kept.  The engine always reaches the player and
  the kingdom through the game state (`currentPlayer = gameState.currentPlayer`,
  `playerKingdom = currentPlayer.kingdom`), so they are nested values here.
 */
module GameData {
  import opened Wrappers
  import opened Persistence
  import opened Decimal

  datatype Resources = Resources(gold: int, food: int, wood: int, stone: int, iron: int)

  datatype Kingdom = Kingdom(playerId: string, name: string, level: int, resources: Resources)

  datatype Player = Player(id: string, name: string, level: int, experience: int, kingdom: Kingdom)

  datatype GameState = GameState(
    currentPlayer: Player,
    gameVersion: string,
    lastSaveTime: int,
    lastUpdateTime: int)

  /** `GameState.toJson`, which may throw (None). */
  type Encoder = GameState -> Option<string>

  /** `GameState.fromJson`, which throws (None) on what it cannot read. */
  type Decoder = string -> Option<GameState>

  const GameStateKey := "game_state"
  const PlayerNameKey := "player_name"
  const KingdomNameKey := "kingdom_name"
  const DefaultPlayerName := "Player"
  const DefaultKingdomName := "My Kingdom"
  const GameVersion := "1.0.0"
  const PlayerIdPrefix := "player_"

  const StartingResources := Resources(1000, 500, 300, 200, 100)

  /** A value of `(1000..9999).random()`. */
  type Draw = n: int | 1000 <= n <= 9999 witness 1000

  /**
    What the new-game path reads from outside: the clock when the player id
    is generated, the clock when the game state is built, the random draw,
    and the `lastUpdateTime` a fresh GameState starts with (a default of the
    GameState class, which is not part of this model).
   */
  datatype NewGameInputs = NewGameInputs(idMillis: int, now: int, draw: Draw, initialUpdateTime: int)

  /** `"player_${millis}_${n}"`. */
  function GeneratePlayerId(millis: int, draw: Draw): (id: string)
    ensures |id| == |PlayerIdPrefix| + |IntToString(millis)| + 1 + 4
    ensures id[..|PlayerIdPrefix|] == PlayerIdPrefix
    ensures id[|PlayerIdPrefix| + |IntToString(millis)|] == '_'
  {
    FourDigits(draw);
    PlayerIdPrefix + IntToString(millis) + "_" + NatToString(draw)
  }

  /** The first position of `c` in `s`. */
  function IndexOf(s: string, c: char): (r: Option<nat>)
    ensures r.Some? ==> r.value < |s| && s[r.value] == c && c !in s[..r.value]
    ensures r.None? ==> c !in s
  {
    if |s| == 0 then None
    else if s[0] == c then Some(0)
    else match IndexOf(s[1..], c)
      case None => None
      case Some(k) => assert s[..k + 1] == [s[0]] + s[1..][..k]; Some(k + 1)
  }

  /** Splits a player id back into its clock part and its random part. */
  function ParsePlayerId(id: string): Option<(int, int)>
  {
    var p := |PlayerIdPrefix|;
    if |id| < p || id[..p] != PlayerIdPrefix then None
    else
      var rest := id[p..];
      match IndexOf(rest, '_')
      case None => None
      case Some(k) =>
        match (ParseInt(rest[..k]), ParseNat(rest[k + 1..]))
        case (Some(millis), Some(n)) => if 1000 <= n <= 9999 then Some((millis, n)) else None
        case _ => None
  }

  lemma {:induction false} IndexOfAfter(a: string, b: string, c: char)
    requires c !in a
    ensures IndexOf(a + [c] + b, c) == Some(|a|)
    decreases |a|
  {
    if |a| > 0 {
      assert (a + [c] + b)[1..] == a[1..] + [c] + b;
      assert a[0] != c;
      IndexOfAfter(a[1..], b, c);
    }
  }

  /** A generated player id carries back the clock value and the draw it was made from. */
  lemma PlayerIdRoundTrip(millis: int, draw: Draw)
    ensures ParsePlayerId(GeneratePlayerId(millis, draw)) == Some((millis, draw as int))
  {
    var id := GeneratePlayerId(millis, draw);
    var m := IntToString(millis);
    var d := NatToString(draw);
    var rest := id[|PlayerIdPrefix|..];
    assert rest == m + ['_'] + d;
    assert '_' !in m;
    IndexOfAfter(m, d, '_');
    assert rest[..|m|] == m;
    assert rest[|m| + 1..] == d;
    ParseIntRoundTrip(millis);
    ParseNatRoundTrip(draw);
  }

  /** `giveStartingResources`: the five stockpiles are overwritten, nothing else changes. */
  function WithStartingResources(k: Kingdom): (r: Kingdom)
    ensures r.resources == StartingResources
    ensures r.playerId == k.playerId && r.name == k.name && r.level == k.level
  {
    k.(resources := k.resources.(gold := 1000, food := 500, wood := 300, stone := 200, iron := 100))
  }

  /**
    `createNewGame`: a level-1 player with a level-1 kingdom linked to it by
    the player id, named from the stored preferences, with the starting
    resources.  The kingdom is built with zero stockpiles first: the
    Kingdom class's own defaults are not part of this model, and all five
    are overwritten anyway.
   */
  function NewGame(store: Store, inputs: NewGameInputs): (g: GameState)
    ensures g.currentPlayer.level == 1 && g.currentPlayer.experience == 0
    ensures g.currentPlayer.kingdom.level == 1
    ensures g.currentPlayer.kingdom.playerId == g.currentPlayer.id
    ensures g.currentPlayer.kingdom.resources == StartingResources
    ensures g.currentPlayer.name == GetString(store, PlayerNameKey, DefaultPlayerName)
    ensures g.currentPlayer.kingdom.name == GetString(store, KingdomNameKey, DefaultKingdomName)
    ensures g.gameVersion == GameVersion && g.lastSaveTime == inputs.now
    ensures g.lastUpdateTime == inputs.initialUpdateTime
    ensures ParsePlayerId(g.currentPlayer.id) == Some((inputs.idMillis, inputs.draw as int))
  {
    var id := GeneratePlayerId(inputs.idMillis, inputs.draw);
    PlayerIdRoundTrip(inputs.idMillis, inputs.draw);
    var kingdom := Kingdom(id, GetString(store, KingdomNameKey, DefaultKingdomName), 1, Resources(0, 0, 0, 0, 0));
    var player := Player(id, GetString(store, PlayerNameKey, DefaultPlayerName), 1, 0, WithStartingResources(kingdom));
    GameState(player, GameVersion, inputs.now, inputs.initialUpdateTime)
  }

  /**
    `loadGameState`: the stored "game_state" string when it is non-empty and
    parses, a new game otherwise.
   */
  function LoadGameState(store: Store, fromJson: Decoder, inputs: NewGameInputs): (g: GameState)
    ensures g == NewGame(store, inputs)
            || (GameStateKey in store && store[GameStateKey] != "" && fromJson(store[GameStateKey]) == Some(g))
  {
    var saved := GetString(store, GameStateKey, "");
    if saved != "" then
      match fromJson(saved)
      case Some(parsed) => parsed
      case None => NewGame(store, inputs)
    else
      NewGame(store, inputs)
  }

  /** An absent, empty or unreadable snapshot degrades to exactly the game `createNewGame` builds. */
  lemma LoadFallsBackToNewGame(store: Store, fromJson: Decoder, inputs: NewGameInputs)
    requires GameStateKey !in store || store[GameStateKey] == "" || fromJson(store[GameStateKey]).None?
    ensures LoadGameState(store, fromJson, inputs) == NewGame(store, inputs)
  {
  }

  /** A non-empty snapshot that parses is taken as it is; nothing of the new-game path is used. */
  lemma LoadKeepsReadableSnapshot(store: Store, fromJson: Decoder, inputs: NewGameInputs)
    requires GameStateKey in store && store[GameStateKey] != "" && fromJson(store[GameStateKey]).Some?
    ensures LoadGameState(store, fromJson, inputs) == fromJson(store[GameStateKey]).value
  {
  }
}
