/**
 * `services.WorldGenerationService`: creates an empty world and lets the
 * location builder populate it from a generator seeded with the caller's seed.
 *
 * `rand.NewSource` is the parameter `source`, and `time.Now().UnixNano()`,
 * which `NewEmptyWorld` reads when the seed is zero, is the parameter `clock`.
 */
module Services {
  import opened Random
  import opened Entities
  import opened NpcBuilders
  import opened Aggregates
  import opened LocationBuilders

  datatype WorldGenerationService = WorldGenerationService(locationBuilder: LocationBuilder)
  {
    /**
     * The world `GenerateWorld` returns: named `name`, stamped with the seed
     * (the clock when it is zero), populated from a generator seeded with
     * `seed` itself.
     */
    function GeneratedWorld(name: string, seed: int64, source: int64 -> Stream, clock: int64): WorldRecord
      requires locationBuilder.Valid()
    {
      locationBuilder.Populate(
        WorldRecord(name, map[], map[], if seed == 0 then clock else seed),
        locationBuilder.StartSpec(NewRand(source, seed)))
    }

    /** `GenerateWorld`: a new world, populated by `GenerateRandomLocations(world, rng, 3)`. */
    method GenerateWorld(name: string, seed: int64, source: int64 -> Stream, clock: int64) returns (world: World)
      requires locationBuilder.Valid()
      ensures fresh(world)
      ensures world.Contents() == GeneratedWorld(name, seed, source, clock)
    {
      world := new World.NewEmptyWorld(name, seed, clock);
      var rng := NewRand(source, seed);
      var rng';
      ghost var npcs: seq<NPC>;
      rng', npcs := locationBuilder.GenerateRandomLocations(world, rng, 3);
      LocationRecordsUpdate(map[], StartId, world.locations[StartId]);
      NpcRecordsWithNpcs(map[], npcs, locationBuilder.StartSpec(rng).npcs);
    }

    /**
     * A generated world holds one location, `"start"`, with no exits, and
     * three to five NPCs, stored under their own ids, which are exactly the
     * location's NPC ids, and all located at `"start"`; it carries its name
     * and its seed, or the clock reading for seed zero.
     */
    lemma GeneratedWorldShape(name: string, seed: int64, source: int64 -> Stream, clock: int64)
      requires locationBuilder.Valid()
      ensures var w := GeneratedWorld(name, seed, source, clock);
        && w.name == name
        && w.seed == (if seed == 0 then clock else seed)
        && w.locations.Keys == {StartId}
        && w.locations[StartId].id == StartId
        && w.locations[StartId].exits == map[]
        && 3 <= |w.locations[StartId].npcs| <= 5
        && (forall id :: id in w.npcs <==> id in w.locations[StartId].npcs)
        && (forall id :: id in w.npcs ==> w.npcs[id].id == id && w.npcs[id].locationId == StartId)
    {
      var s := locationBuilder.StartSpec(NewRand(source, seed));
      locationBuilder.StartSpecProperties(NewRand(source, seed));
      WithRecordsContents(map[], s.npcs);
      var w := GeneratedWorld(name, seed, source, clock);
      forall id | id in w.npcs
        ensures w.npcs[id].id == id && w.npcs[id].locationId == StartId
      {
        var i :| 0 <= i < |s.npcs| && Ids(s.npcs)[i] == id;
        assert locationBuilder.npcBuilder.WellFormed(s.npcs[i], StartId, i + 1);
      }
    }

    /**
     * The clock only stamps the world: two generations with the same seed hold
     * the same locations and NPCs, and with a non-zero seed they are equal.
     */
    lemma ClockOnlyStampsSeed(name: string, seed: int64, source: int64 -> Stream, clock1: int64, clock2: int64)
      requires locationBuilder.Valid()
      ensures var w1 := GeneratedWorld(name, seed, source, clock1);
        var w2 := GeneratedWorld(name, seed, source, clock2);
        && w1.locations == w2.locations && w1.npcs == w2.npcs
        && (seed != 0 ==> w1 == w2)
    {
    }
  }

  /** `NewWorldGenerationService`: a service over the program's location builder. */
  function NewWorldGenerationService(): WorldGenerationService {
    WorldGenerationService(NewLocationBuilder())
  }
}
