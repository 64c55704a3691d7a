/**
 * `game.GameEngine`: holds the generated world, the player (an NPC the engine
 * creates but does not store in the world) and a running flag, and moves the
 * player along the exits of the location it stands in.
 *
 * The `context.Context` that `Initialize` saves is not modelled. The world
 * generator's randomness and clock are the parameters `source` and `clock` of
 * the constructor.
 */
module Engine {
  import opened Wrappers
  import opened Random
  import opened Entities
  import opened Aggregates
  import opened LocationBuilders
  import opened Services

  /** The three errors of `MovePlayer`, in the order it checks for them. */
  datatype MoveError =
    | NoCurrentLocation        // "player has no current location"
    | CannotGo(direction: string)  // "cannot go <direction> from here"
    | DoesNotExist(id: string)     // "location <id> does not exist"

  /** The description `CreatePlayer` gives every player. */
  const PlayerDescription: string := "Это вы - главный герой этой истории"

  /** The player `CreatePlayer(name)` builds: id `player_<name>`, a human standing at `"start"`. */
  function PlayerRecord(name: string): NpcRecord {
    NpcRecord("player_" + name, name, "human", StartId, PlayerDescription)
  }

  /** `GetCurrentLocation` on a world's contents: nothing without a player or a stored location. */
  function LocationAt(w: WorldRecord, at: Option<string>): Option<LocationRecord> {
    if at.Some? && at.value in w.locations then Some(w.locations[at.value]) else None
  }

  /** `MovePlayer` on a world's contents: the id of the location reached, or the first error. */
  function Move(w: WorldRecord, at: Option<string>, direction: string): Result<string, MoveError> {
    match LocationAt(w, at)
    case None => Err(NoCurrentLocation)
    case Some(here) =>
      if direction !in here.exits then Err(CannotGo(direction))
      else if here.exits[direction] !in w.locations then Err(DoesNotExist(here.exits[direction]))
      else Ok(here.exits[direction])
  }

  /** `GetNPCsInLocation` on a world's contents: the NPC ids of a stored location, else none. */
  function NpcsAt(w: WorldRecord, locationId: string): seq<string> {
    if locationId in w.locations then w.locations[locationId].npcs else []
  }

  /**
   * The three checks of `MovePlayer`, in order: no current location gives
   * `NoCurrentLocation`; a missing exit gives `CannotGo`; an exit to an
   * unstored id gives `DoesNotExist` with that id; otherwise the move
   * reaches the exit's target, a stored location.
   */
  lemma MoveProperties(w: WorldRecord, at: Option<string>, direction: string)
    ensures Move(w, at, direction).Ok? ==>
      var next := Move(w, at, direction).value;
      && LocationAt(w, at).Some? && direction in LocationAt(w, at).value.exits
      && LocationAt(w, at).value.exits[direction] == next
      && LocationAt(w, Some(next)) == Some(w.locations[next])
    ensures LocationAt(w, at).None? <==> Move(w, at, direction) == Err(NoCurrentLocation)
    ensures Move(w, at, direction).Err? && Move(w, at, direction).error.CannotGo? ==>
      LocationAt(w, at).Some? && direction !in LocationAt(w, at).value.exits
    ensures LocationAt(w, at).Some? && direction !in LocationAt(w, at).value.exits ==>
      Move(w, at, direction) == Err(CannotGo(direction))
    ensures (LocationAt(w, at).Some? && direction in LocationAt(w, at).value.exits &&
             LocationAt(w, at).value.exits[direction] !in w.locations) ==>
      Move(w, at, direction) == Err(DoesNotExist(LocationAt(w, at).value.exits[direction]))
    ensures (LocationAt(w, at).Some? && direction in LocationAt(w, at).value.exits &&
             LocationAt(w, at).value.exits[direction] in w.locations) ==>
      Move(w, at, direction) == Ok(LocationAt(w, at).value.exits[direction])
  {
  }

  /**
   * In a generated world the player who starts at `"start"` stands in a
   * location without exits: every move fails with `CannotGo`, and the NPCs
   * there are all the world's NPCs.
   */
  lemma GeneratedWorldIsClosed(service: WorldGenerationService, name: string, seed: int64,
                               source: int64 -> Stream, clock: int64, direction: string)
    requires service.locationBuilder.Valid()
    ensures var w := service.GeneratedWorld(name, seed, source, clock);
      && LocationAt(w, Some(StartId)).Some?
      && Move(w, Some(StartId), direction) == Err(CannotGo(direction))
      && (forall id :: id in NpcsAt(w, StartId) <==> id in w.npcs)
  {
    service.GeneratedWorldShape(name, seed, source, clock);
  }

  class GameEngine {
    var currentPlayer: NPC?
    const currentWorld: World
    var isRunning: bool

    /** Where the player stands: its location id, or nothing without a player. */
    function PlayerAt(): Option<string>
      reads this, currentPlayer
    {
      if currentPlayer == null then None else Some(currentPlayer.locationId)
    }

    /**
     * `NewGameEngine`: the world `"Default World"` generated by `service` with
     * seed 0, no player, not running. The program's service is
     * `NewWorldGenerationService()`.
     */
    constructor NewGameEngine(service: WorldGenerationService, source: int64 -> Stream, clock: int64)
      requires service.locationBuilder.Valid()
      ensures currentPlayer == null && !isRunning && fresh(currentWorld)
      ensures currentWorld.Contents() == service.GeneratedWorld("Default World", 0, source, clock)
    {
      var world := service.GenerateWorld("Default World", 0, source, clock);
      currentWorld := world;
      currentPlayer := null;
      isRunning := false;
    }

    /** `Initialize`: the engine is running. */
    method Initialize()
      modifies this`isRunning
      ensures isRunning
    {
      isRunning := true;
    }

    /** `CreatePlayer`: a new player NPC, which becomes the current player. */
    method CreatePlayer(name: string) returns (player: NPC)
      modifies this`currentPlayer
      ensures fresh(player) && currentPlayer == player
      ensures player.Record() == PlayerRecord(name)
      ensures PlayerAt() == Some(StartId)
    {
      player := new NPC(PlayerRecord(name));
      currentPlayer := player;
    }

    /** `GetCurrentPlayer`. */
    method GetCurrentPlayer() returns (player: NPC?)
      ensures player == currentPlayer
    {
      player := currentPlayer;
    }

    /** `GetCurrentLocation`: the stored location under the player's location id, or nil. */
    method GetCurrentLocation() returns (location: Location?)
      ensures location == null <==> LocationAt(currentWorld.Contents(), PlayerAt()).None?
      ensures location != null ==>
        && location == currentWorld.locations[currentPlayer.locationId]
        && location.Record() == LocationAt(currentWorld.Contents(), PlayerAt()).value
    {
      if currentPlayer == null {
        return null;
      }
      location := if currentPlayer.locationId in currentWorld.locations
        then currentWorld.locations[currentPlayer.locationId] else null;
    }

    /**
     * `MovePlayer`: follows the exit `direction` of the player's location. On
     * success the player now stands at the exit's target, which is returned;
     * on failure nothing changes.
     */
    method MovePlayer(direction: string) returns (r: Result<Location, MoveError>)
      modifies currentPlayer
      ensures var m := Move(old(currentWorld.Contents()), old(PlayerAt()), direction);
        && (m.Err? ==> r == Err(m.error) && PlayerAt() == old(PlayerAt()))
        && (m.Ok? ==> r.Ok? && r.value == currentWorld.locations[m.value] && PlayerAt() == Some(m.value))
    {
      var location := GetCurrentLocation();
      if location == null {
        return Err(NoCurrentLocation);
      }
      if direction !in location.exits {
        return Err(CannotGo(direction));
      }
      var next := location.exits[direction];
      if next !in currentWorld.locations {
        return Err(DoesNotExist(next));
      }
      currentPlayer.locationId := next;
      r := Ok(currentWorld.locations[next]);
    }

    /** `GetNPCsInLocation`: the NPC ids of the stored location `locationId`, or none. */
    method GetNPCsInLocation(locationId: string) returns (ids: seq<string>)
      ensures ids == NpcsAt(currentWorld.Contents(), locationId)
    {
      if locationId in currentWorld.locations {
        return currentWorld.locations[locationId].npcs;
      }
      return [];
    }

    /** `IsRunning`. */
    method IsRunning() returns (running: bool)
      ensures running == isRunning
    {
      running := isRunning;
    }
  }
}
