/**
 * `game.GameState`: the id of the location the player is in, starting at
 * `"start"`. The setter accepts any id; it is not checked against a world.
 */
module GameStates {

  /** The id of the location a new game starts at. */
  const StartLocationId: string := "start"

  class GameState {
    var currentLocationId: string

    /** `NewGameState`: the game starts at the starting location. */
    constructor NewGameState()
      ensures currentLocationId == StartLocationId
    {
      currentLocationId := StartLocationId;
    }

    /** `GetCurrentLocationID`: the stored id; nothing changes. */
    method GetCurrentLocationId() returns (id: string)
      ensures id == currentLocationId
    {
      id := currentLocationId;
    }

    /**
     * `SetCurrentLocationID`: afterwards the stored id is `locationId`,
     * whatever it was before, so setting the same id again changes nothing.
     */
    method SetCurrentLocationId(locationId: string)
      modifies this
      ensures currentLocationId == locationId
    {
      currentLocationId := locationId;
    }
  }
}
