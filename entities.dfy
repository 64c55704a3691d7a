/**
 * The two plain records of the domain, `entities.Location` and `entities.NPC`.
 *
 * Both are classes because the program updates them through pointers: the
 * NPC builder appends to a location's NPC list after the location is already
 * stored in the world, and the game engine moves the player by rewriting the
 * player NPC's location id. Fields the program never reassigns are `const`.
 * Each class has a `Record()` view, the value the generator is specified by.
 */
module Entities {

  /** The contents of a location at one moment. */
  datatype LocationRecord = LocationRecord(
    id: string,
    name: string,
    description: string,
    locType: string,
    exits: map<string, string>,  // direction -> target location id
    npcs: seq<string>)           // ids of the NPCs standing here, in order

  /** The contents of an NPC at one moment. */
  datatype NpcRecord = NpcRecord(
    id: string,
    name: string,
    race: string,
    locationId: string,
    description: string)

  class Location {
    const id: string
    const name: string
    const description: string
    const locType: string
    var exits: map<string, string>
    var npcs: seq<string>

    /** `&entities.Location{...}` built from a record. */
    constructor (r: LocationRecord)
      ensures Record() == r
    {
      id, name, description, locType := r.id, r.name, r.description, r.locType;
      exits, npcs := r.exits, r.npcs;
    }

    function Record(): LocationRecord
      reads this
    {
      LocationRecord(id, name, description, locType, exits, npcs)
    }
  }

  class NPC {
    const id: string
    const name: string
    const race: string
    var locationId: string
    const description: string

    /** `&entities.NPC{...}` built from a record. */
    constructor (r: NpcRecord)
      ensures Record() == r
    {
      id, name, race, description := r.id, r.name, r.race, r.description;
      locationId := r.locationId;
    }

    function Record(): NpcRecord
      reads this
    {
      NpcRecord(id, name, race, locationId, description)
    }
  }

  /** The ids of a sequence of NPC records, in order. */
  function Ids(rs: seq<NpcRecord>): (ids: seq<string>)
    ensures |ids| == |rs|
    ensures forall i :: 0 <= i < |rs| ==> ids[i] == rs[i].id
  {
    seq(|rs|, i requires 0 <= i < |rs| => rs[i].id)
  }
}
