/**
 * `aggregates.World`: the game world, two keyed stores of locations and
 * NPCs plus a name and a seed.
 *
 * The stores hold pointers, as the Go maps do, so `World` is a class with
 * map fields that `AddLocation` and `AddNPC` overwrite. `Contents()` is the
 * value the world holds at one moment: every stored object replaced by its
 * record, which is what the generator is specified by.
 */
module Aggregates {
  import opened Random
  import opened Entities

  /** What a world holds at one moment. */
  datatype WorldRecord = WorldRecord(
    name: string,
    locations: map<string, LocationRecord>,
    npcs: map<string, NpcRecord>,
    seed: int64)

  /** The records behind a map of location pointers. */
  function LocationRecords(m: map<string, Location>): (r: map<string, LocationRecord>)
    reads m.Values
    ensures r.Keys == m.Keys
    ensures forall id :: id in m ==> r[id] == m[id].Record()
  {
    map id | id in m :: m[id].Record()
  }

  /** The records behind a map of NPC pointers. */
  function NpcRecords(m: map<string, NPC>): (r: map<string, NpcRecord>)
    reads m.Values
    ensures r.Keys == m.Keys
    ensures forall id :: id in m ==> r[id] == m[id].Record()
  {
    map id | id in m :: m[id].Record()
  }

  /** The same insertions on records: each record stored under its id, a later one overwriting. */
  function WithRecords(m: map<string, NpcRecord>, rs: seq<NpcRecord>): map<string, NpcRecord>
  {
    if rs == [] then m else WithRecords(m, rs[..|rs| - 1])[rs[|rs| - 1].id := rs[|rs| - 1]]
  }

  /**
   * Inserting records with pairwise distinct ids: every record is found under
   * its own id, the keys are the old keys plus those ids, and every other key
   * keeps its old entry.
   */
  lemma {:induction false} WithRecordsContents(m: map<string, NpcRecord>, rs: seq<NpcRecord>)
    requires forall i, j :: 0 <= i < j < |rs| ==> rs[i].id != rs[j].id
    ensures forall id :: id in WithRecords(m, rs) <==> id in m || id in Ids(rs)
    ensures forall i :: 0 <= i < |rs| ==> rs[i].id in WithRecords(m, rs) && WithRecords(m, rs)[rs[i].id] == rs[i]
    ensures forall id :: id in m && id !in Ids(rs) ==> WithRecords(m, rs)[id] == m[id]
  {
    if rs != [] {
      var prefix := rs[..|rs| - 1];
      WithRecordsContents(m, prefix);
      assert Ids(rs) == Ids(prefix) + [rs[|rs| - 1].id];
      forall i | 0 <= i < |prefix|
        ensures rs[i].id in WithRecords(m, rs) && WithRecords(m, rs)[rs[i].id] == rs[i]
      {
        assert rs[i] == prefix[i] && rs[i].id != rs[|rs| - 1].id;
      }
    }
  }

  /** The NPC store after `AddNPC` of each of `ns` in turn. */
  function WithNpcs(m: map<string, NPC>, ns: seq<NPC>): map<string, NPC>
  {
    if ns == [] then m else WithNpcs(m, ns[..|ns| - 1])[ns[|ns| - 1].id := ns[|ns| - 1]]
  }

  /** Storing NPC objects stores their records. */
  lemma {:induction false} NpcRecordsWithNpcs(m: map<string, NPC>, ns: seq<NPC>, rs: seq<NpcRecord>)
    requires |ns| == |rs| && forall k :: 0 <= k < |ns| ==> ns[k].Record() == rs[k]
    ensures NpcRecords(WithNpcs(m, ns)) == WithRecords(NpcRecords(m), rs)
  {
    if ns != [] {
      var n := |ns| - 1;
      NpcRecordsWithNpcs(m, ns[..n], rs[..n]);
      assert ns[n].id == rs[n].id by { assert ns[n].Record() == rs[n]; }
    }
  }

  /** Storing one location object stores its record. */
  lemma LocationRecordsUpdate(m: map<string, Location>, id: string, location: Location)
    ensures LocationRecords(m[id := location]) == LocationRecords(m)[id := location.Record()]
  {
  }

  class World {
    const name: string
    var locations: map<string, Location>
    var npcs: map<string, NPC>
    const seed: int64

    /** The world's contents, every pointer replaced by the record it points to. */
    function Contents(): WorldRecord
      reads this, locations.Values, npcs.Values
    {
      WorldRecord(name, LocationRecords(locations), NpcRecords(npcs), seed)
    }

    /**
     * `NewEmptyWorld`: the name, empty stores, and the seed, where a zero seed
     * is replaced by the clock reading `clock` (`time.Now().UnixNano()`).
     */
    constructor NewEmptyWorld(name: string, seed: int64, clock: int64)
      ensures locations == map[] && npcs == map[]
      ensures Contents() == WorldRecord(name, map[], map[], if seed == 0 then clock else seed)
    {
      this.name := name;
      locations, npcs := map[], map[];
      this.seed := if seed == 0 then clock else seed;
    }

    /** `GetLocations`: the location store. */
    method GetLocations() returns (m: map<string, Location>)
      ensures m == locations
    {
      m := locations;
    }

    /** `AddLocation`: stores `location` under `id`, replacing any previous entry. */
    method AddLocation(id: string, location: Location)
      modifies this`locations
      ensures locations == old(locations)[id := location]
    {
      locations := locations[id := location];
    }

    /** `AddNPC`: stores `npc` under its own id, replacing any previous entry. */
    method AddNPC(npc: NPC)
      modifies this`npcs
      ensures npcs == old(npcs)[npc.id := npc]
      ensures NpcRecords(npcs) == old(NpcRecords(npcs))[npc.id := npc.Record()]
    {
      npcs := npcs[npc.id := npc];
    }
  }
}
