/**
 * `LocationBuilder`: draws a location's type, an unused name and a
 * description, and populates a world with its starting location.
 *
 * As with the NPC builder, the builder is an immutable value holding its
 * pools and `NewLocationBuilder` is the program's one. The used-name set is
 * a local Go map; here it is passed in and handed back. The re-roll loop of
 * `buildRandomLocation` has no bound in Go, so the model gives it a number of
 * draws (`fuel`) and reports when they run out; the one caller in the program
 * starts from an empty set, where the first draw always succeeds.
 */
module LocationBuilders {
  import opened Wrappers
  import opened Random
  import opened Entities
  import opened NpcBuilders
  import opened Aggregates

  /** The id `GenerateRandomLocations` builds and stores its one location under. */
  const StartId: string := "start"

  /** Draws allowed to the re-roll loop by `GenerateRandomLocations`; one suffices on an empty set. */
  const RerollFuel: nat := 1

  /** Go's `usedNames[name]`: a missing key reads as `false`. */
  predicate IsUsed(used: map<string, bool>, name: string) {
    name in used && used[name]
  }

  /** A location record together with the used-name set and the generator after building it. */
  datatype Built = Built(location: LocationRecord, usedNames: map<string, bool>, rng: Rng)

  /** The starting location with its NPC ids, its NPCs, and the generator after both. */
  datatype Start = Start(location: LocationRecord, npcs: seq<NpcRecord>, rng: Rng)

  datatype LocationBuilder = LocationBuilder(
    locationTypes: seq<string>,
    locationNames: seq<string>,
    descriptions: map<string, seq<string>>,
    npcBuilder: NpcBuilder)
  {
    /** Every pool a draw can index is non-empty, so no `Intn` call can panic. */
    predicate Valid() {
      && |locationTypes| > 0 && |locationNames| > 0
      && (forall t :: t in descriptions ==> |descriptions[t]| > 0)
      && npcBuilder.Valid()
    }

    /** Every location type has a description list. */
    predicate Covers() {
      forall t :: t in locationTypes ==> t in descriptions
    }

    /**
     * The re-roll loop: draws names until one is unused, giving that name and
     * the generator after it, or `None` if `fuel` draws all hit used names.
     */
    function PickUnusedName(used: map<string, bool>, fuel: nat, rng: Rng): Option<Drawn<string>>
      requires Valid()
      decreases fuel
    {
      if fuel == 0 then None
      else
        var name := Pick(locationNames, rng);
        if !IsUsed(used, name.value) then Some(name) else PickUnusedName(used, fuel - 1, name.rng)
    }

    /** A name the loop settles on is in the pool, was unused, and came from the same stream. */
    lemma {:induction false} PickUnusedNameProperties(used: map<string, bool>, fuel: nat, rng: Rng)
      requires Valid()
      ensures PickUnusedName(used, fuel, rng).Some? ==>
        var d := PickUnusedName(used, fuel, rng).value;
        d.value in locationNames && !IsUsed(used, d.value) && d.rng.stream == rng.stream
      decreases fuel
    {
      if fuel > 0 {
        PickUnusedNameProperties(used, fuel - 1, Pick(locationNames, rng).rng);
      }
    }

    /** On an empty set the loop stops at its first draw, whatever the number of draws allowed. */
    lemma PickUnusedNameFresh(fuel: nat, rng: Rng)
      requires Valid() && fuel > 0
      ensures PickUnusedName(map[], fuel, rng) == Some(Pick(locationNames, rng))
    {
    }

    /** `buildRandomLocation` as a value: type, then the re-roll loop, then the description. */
    function BuildRandomLocationSpec(rng: Rng, locationId: string, used: map<string, bool>, fuel: nat): Option<Built>
      requires Valid()
    {
      var locType := Pick(locationTypes, rng);
      match PickUnusedName(used, fuel, locType.rng)
      case None => None
      case Some(name) =>
        var description :=
          if locType.value in descriptions then Pick(descriptions[locType.value], name.rng)
          else Drawn("Загадочное место типа " + locType.value, name.rng);
        Some(Built(LocationRecord(locationId, name.value, description.value, locType.value, map[], []),
                   used[name.value := true], description.rng))
    }

    /**
     * A built location has the given id, a type from the list, a pooled name
     * that was unused and is now the only addition to the set, a description
     * from its type's list when the builder covers its types, and no exits
     * and no NPCs.
     */
    lemma BuildRandomLocationProperties(rng: Rng, locationId: string, used: map<string, bool>, fuel: nat)
      requires Valid()
      ensures BuildRandomLocationSpec(rng, locationId, used, fuel).Some? ==>
        var b := BuildRandomLocationSpec(rng, locationId, used, fuel).value;
        && b.location.id == locationId
        && b.location.locType in locationTypes
        && b.location.name in locationNames && !IsUsed(used, b.location.name)
        && b.usedNames == used[b.location.name := true]
        && (Covers() ==> b.location.description in descriptions[b.location.locType])
        && b.location.exits == map[] && b.location.npcs == []
        && b.rng.stream == rng.stream
    {
      var locType := Pick(locationTypes, rng);
      PickUnusedNameProperties(used, fuel, locType.rng);
    }

    /** With an empty set and at least one draw allowed, a location is always built. */
    lemma BuildRandomLocationFresh(rng: Rng, locationId: string, fuel: nat)
      requires Valid() && fuel > 0
      ensures BuildRandomLocationSpec(rng, locationId, map[], fuel).Some?
    {
      PickUnusedNameFresh(fuel, Pick(locationTypes, rng).rng);
    }

    /** `buildRandomLocation` as the program runs it, with the re-roll loop bounded by `fuel` draws. */
    method BuildRandomLocation(rng: Rng, locationId: string, usedNames: map<string, bool>, fuel: nat)
      returns (location: Location?, usedNames': map<string, bool>, rng': Rng)
      requires Valid()
      ensures match BuildRandomLocationSpec(rng, locationId, usedNames, fuel)
        case None => location == null
        case Some(b) =>
          && location != null && fresh(location) && location.Record() == b.location
          && usedNames' == b.usedNames && rng' == b.rng
    {
      var typeDraw := Pick(locationTypes, rng);
      var locType := typeDraw.value;
      rng', usedNames' := typeDraw.rng, usedNames;
      var name: string := "";
      var found := false;
      var left: nat := fuel;
      while !found && left > 0
        invariant left <= fuel
        invariant PickUnusedName(usedNames, fuel, typeDraw.rng) ==
          if found then Some(Drawn(name, rng')) else PickUnusedName(usedNames, left, rng')
        invariant usedNames' == if found then usedNames[name := true] else usedNames
        decreases left
      {
        var draw := Pick(locationNames, rng');
        name, rng', left := draw.value, draw.rng, left - 1;
        if !IsUsed(usedNames', name) {
          usedNames' := usedNames'[name := true];
          found := true;
        }
      }
      if !found {
        return null, usedNames', rng';
      }
      var description: string;
      if locType in descriptions {
        var d := Pick(descriptions[locType], rng');
        description, rng' := d.value, d.rng;
      } else {
        description := "Загадочное место типа " + locType;
      }
      location := new Location(LocationRecord(locationId, name, description, locType, map[], []));
    }

    /** The starting location drawn from a fresh set, then its NPCs, as `GenerateRandomLocations` does. */
    function StartSpec(rng: Rng): (s: Start)
      requires Valid()
    {
      BuildRandomLocationFresh(rng, StartId, RerollFuel);
      var b := BuildRandomLocationSpec(rng, StartId, map[], RerollFuel).value;
      var npcs := npcBuilder.NpcsForLocation(StartId, b.location.locType, b.rng);
      Start(b.location.(npcs := Ids(npcs.value)), npcs.value, npcs.rng)
    }

    /** The world after `GenerateRandomLocations`: the start location under `"start"`, its NPCs under their ids. */
    function Populate(w: WorldRecord, s: Start): WorldRecord {
      w.(locations := w.locations[StartId := s.location], npcs := WithRecords(w.npcs, s.npcs))
    }

    /**
     * The starting location is `"start"`, of a listed type, with a pooled name,
     * no exits, and as NPC ids exactly the ids of its three to five NPCs, which
     * are numbered from 1, are located there and have distinct ids; with a
     * covering builder its description comes from its type's list.
     */
    lemma StartSpecProperties(rng: Rng)
      requires Valid()
      ensures var s := StartSpec(rng);
        && s.location.id == StartId
        && s.location.locType in locationTypes
        && s.location.name in locationNames
        && (Covers() ==> s.location.description in descriptions[s.location.locType])
        && s.location.exits == map[]
        && s.location.npcs == Ids(s.npcs)
        && 3 <= |s.npcs| <= 5
        && (forall i :: 0 <= i < |s.npcs| ==> npcBuilder.WellFormed(s.npcs[i], StartId, i + 1))
        && (forall i, j :: 0 <= i < j < |s.npcs| ==> s.npcs[i].id != s.npcs[j].id)
        && s.rng.stream == rng.stream
    {
      BuildRandomLocationFresh(rng, StartId, RerollFuel);
      BuildRandomLocationProperties(rng, StartId, map[], RerollFuel);
      var b := BuildRandomLocationSpec(rng, StartId, map[], RerollFuel).value;
      npcBuilder.NpcsForLocationProperties(StartId, b.location.locType, b.rng);
    }

    /**
     * `GenerateRandomLocations`: builds the start location from a fresh used-name
     * set, stores it, generates its NPCs (appending their ids to the stored
     * location) and stores each NPC. `count` is not used. `npcs` are the NPC
     * objects it creates.
     */
    method GenerateRandomLocations(world: World, rng: Rng, count: int) returns (rng': Rng, ghost npcs: seq<NPC>)
      requires Valid()
      modifies world`locations, world`npcs
      ensures StartId in world.locations && fresh(world.locations[StartId])
      ensures world.locations == old(world.locations)[StartId := world.locations[StartId]]
      ensures world.locations[StartId].Record() == StartSpec(rng).location
      ensures |npcs| == |StartSpec(rng).npcs|
      ensures forall k :: 0 <= k < |npcs| ==> fresh(npcs[k]) && npcs[k].Record() == StartSpec(rng).npcs[k]
      ensures world.npcs == WithNpcs(old(world.npcs), npcs)
      ensures rng' == StartSpec(rng).rng
    {
      var usedNames: map<string, bool> := map[];
      BuildRandomLocationFresh(rng, StartId, RerollFuel);
      BuildRandomLocationProperties(rng, StartId, usedNames, RerollFuel);
      var startLocation, _, r := BuildRandomLocation(rng, StartId, usedNames, RerollFuel);
      ghost var b := BuildRandomLocationSpec(rng, StartId, usedNames, RerollFuel).value;
      assert startLocation.Record() == b.location && r == b.rng;
      world.AddLocation(StartId, startLocation);
      rng', npcs := PopulateLocation(world, startLocation, r);
    }

    /** Generates the NPCs of the stored `location`, appending their ids to it, and stores each of them. */
    method PopulateLocation(world: World, location: Location, rng: Rng) returns (rng': Rng, ghost npcs: seq<NPC>)
      requires Valid()
      modifies world`npcs, location`npcs
      ensures var drawn := npcBuilder.NpcsForLocation(location.id, location.locType, rng);
        && location.npcs == old(location.npcs) + Ids(drawn.value)
        && |npcs| == |drawn.value|
        && (forall k :: 0 <= k < |npcs| ==> fresh(npcs[k]) && npcs[k].Record() == drawn.value[k])
        && world.npcs == WithNpcs(old(world.npcs), npcs)
        && rng' == drawn.rng
    {
      var created;
      created, rng' := npcBuilder.GenerateNPCsForLocation(location, rng);
      AddNpcs(world, created);
      npcs := created;
    }
  }

  /** The loop over the generated NPCs: `world.AddNPC(npc)` for each in turn. */
  method AddNpcs(world: World, npcs: seq<NPC>)
    modifies world`npcs
    ensures world.npcs == WithNpcs(old(world.npcs), npcs)
  {
    var i := 0;
    while i < |npcs|
      invariant 0 <= i <= |npcs|
      invariant world.npcs == WithNpcs(old(world.npcs), npcs[..i])
    {
      world.AddNPC(npcs[i]);
      assert npcs[..i + 1][..i] == npcs[..i];
      i := i + 1;
    }
    assert npcs[..i] == npcs;
  }

  /** `NewLocationBuilder`: the program's type, name and description tables and its NPC builder. */
  function NewLocationBuilder(): LocationBuilder {
    LocationBuilder(
      ["forest", "cave", "village", "ruins", "swamp", "mountain"],
      ["Темный лес", "Забытые руины", "Старая пещера",
       "Заброшенная деревня", "Мрачные болота", "Скалистый утес",
       "Древний храм", "Глухая чаща", "Каменные врата",
       "Проклятый алтарь", "Железный рудник", "Кладбище волков"],
      map[
        "forest" := [
          "Густой темный лес, где ветви переплетаются над головой",
          "Древний лес, полный тайн и опасностей",
          "Мрачная чаща с едва заметными тропами",
          "Заколдованный лес, где шепчутся деревья"],
        "cave" := [
          "Сырая пещера с эхом капающей воды",
          "Глубокая пещера с множеством ходов",
          "Темная пещера, откуда веет холодом",
          "Пещера с блестящими кристаллами на стенах"],
        "village" := [
          "Заброшенная деревня с полуразрушенными домами",
          "Пустая деревня, где никто не живет уже много лет",
          "Старая деревня с призрачной атмосферой",
          "Деревня, покинутая жителями в спешке"],
        "ruins" := [
          "Древние руины, поросшие плющом",
          "Остатки величественного замка",
          "Руины храма неизвестного божества",
          "Разрушенная башня мага"],
        "swamp" := [
          "Мрачное болото с ядовитыми испарениями",
          "Топкие болота, где легко заблудиться",
          "Болото, где обитают странные создания",
          "Затопленный лес с торчащими стволами"],
        "mountain" := [
          "Скалистая вершина, овеваемая ветрами",
          "Горный перевал между острыми пиками",
          "Пещера в горном склоне",
          "Плато на вершине горы"]],
      NewNpcBuilder())
  }

  /**
   * The program's builder can never panic and has a description list for
   * every type, so the `"Загадочное место типа"` fallback is never produced.
   */
  lemma NewLocationBuilderValid()
    ensures NewLocationBuilder().Valid() && NewLocationBuilder().Covers()
    ensures NewLocationBuilder().locationTypes == ["forest", "cave", "village", "ruins", "swamp", "mountain"]
    ensures NewLocationBuilder().npcBuilder == NewNpcBuilder()
  {
    NewNpcBuilderValid();
    var lb := NewLocationBuilder();
    assert lb.descriptions.Keys == {"forest", "cave", "village", "ruins", "swamp", "mountain"};
  }
}
