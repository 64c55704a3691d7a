/**
 * `NPCBuilder`: populates one location with three to five NPCs whose race,
 * name and description come from the builder's pools.
 *
 * The builder is an immutable value holding its pools, as the Go struct is;
 * `NewNpcBuilder` is `NewNPCBuilder` with the program's tables. Generation is
 * specified for every builder whose pools are non-empty (Go's `Intn` panics on
 * an empty pool) and the default builder is shown to be such a builder. The
 * table lookups with their draws are functions from a generator state to a
 * value and the next state; `GenerateNPCsForLocation` is the counted loop that
 * allocates the NPCs and appends their ids to the location in place.
 */
module NpcBuilders {
  import opened Random
  import opened Entities
  import Format

  /** A draw of `Intn(100)` below this gives a location type's primary race. */
  const PrimaryRaceChance: nat := 80

  /** Name returned for a race the name switch does not know. */
  const UnknownName: string := "Неизвестный"

  /** `fmt.Sprintf("%s_npc_%d", locationId, index)`. */
  function NpcId(locationId: string, index: nat): string {
    locationId + "_npc_" + Format.NatToString(index)
  }

  /** Within one location, distinct indices give distinct ids. */
  lemma NpcIdInjective(locationId: string, i: nat, j: nat)
    ensures NpcId(locationId, i) == NpcId(locationId, j) ==> i == j
  {
    var p := locationId + "_npc_";
    if NpcId(locationId, i) == NpcId(locationId, j) {
      assert Format.NatToString(i) == NpcId(locationId, i)[|p|..];
      assert Format.NatToString(j) == NpcId(locationId, j)[|p|..];
      Format.NatToStringInjective(i, j);
    }
  }

  datatype NpcBuilder = NpcBuilder(
    raceNames: seq<string>,
    humanNames: seq<string>,
    dwarfNames: seq<string>,
    skavenNames: seq<string>,
    descriptions: map<string, seq<string>>,
    locationRaceMap: map<string, string>)  // the primary race of a location type
  {
    /** Every pool a draw can index is non-empty, so no `Intn` call can panic. */
    predicate Valid() {
      && |raceNames| > 0
      && |humanNames| > 0 && |dwarfNames| > 0 && |skavenNames| > 0
      && forall race :: race in descriptions ==> |descriptions[race]| > 0
    }

    /** Every race the builder can draw has a name pool and a description list. */
    predicate Covers() {
      && (forall t :: t in locationRaceMap ==> locationRaceMap[t] in raceNames)
      && (forall race :: race in raceNames ==> race in ["human", "dwarf", "skaven"] && race in descriptions)
    }

    /** The name pool behind each arm of the name switch. */
    function NamePool(race: string): seq<string>
      requires race in ["human", "dwarf", "skaven"]
    {
      if race == "human" then humanNames else if race == "dwarf" then dwarfNames else skavenNames
    }

    /** What NPC number `index` of location `locationId` satisfies when the builder covers its races. */
    predicate WellFormed(n: NpcRecord, locationId: string, index: nat) {
      && n.id == NpcId(locationId, index)
      && n.locationId == locationId
      && (Covers() ==>
            && n.race in raceNames
            && n.race in ["human", "dwarf", "skaven"] && n.name in NamePool(n.race)
            && n.race in descriptions && n.description in descriptions[n.race])
    }

    /** A race drawn uniformly: `raceNames[rng.Intn(len(raceNames))]`. */
    function UniformRace(rng: Rng): (d: Drawn<string>)
      requires Valid()
      ensures d.value in raceNames
      ensures d.rng.stream == rng.stream
    {
      Pick(raceNames, rng)
    }

    /** `selectRaceForLocation`: the primary race on a draw below 80, else a uniform race. */
    function SelectRaceForLocation(locType: string, rng: Rng): (d: Drawn<string>)
      requires Valid()
      ensures Covers() ==> d.value in raceNames
      ensures d.rng.stream == rng.stream
      ensures locType in locationRaceMap && Intn(rng, 100).value < PrimaryRaceChance ==>
                d == Drawn(locationRaceMap[locType], Intn(rng, 100).rng)
      ensures locType in locationRaceMap && Intn(rng, 100).value >= PrimaryRaceChance ==>
                d == UniformRace(Intn(rng, 100).rng)
      ensures locType !in locationRaceMap ==> d == UniformRace(rng)
    {
      if locType in locationRaceMap then
        var roll := Intn(rng, 100);
        if roll.value < PrimaryRaceChance then Drawn(locationRaceMap[locType], roll.rng)
        else UniformRace(roll.rng)
      else
        UniformRace(rng)
    }

    /** `generateNameForRace`: a name from the race's pool, `"Неизвестный"` for any other race. */
    function GenerateNameForRace(race: string, rng: Rng): (d: Drawn<string>)
      requires Valid()
      ensures d.rng.stream == rng.stream
      ensures race in ["human", "dwarf", "skaven"] ==> d.value in NamePool(race) && d.rng.pos == rng.pos + 1
      ensures race !in ["human", "dwarf", "skaven"] ==> d == Drawn(UnknownName, rng)
    {
      match race
      case "human" => Pick(humanNames, rng)
      case "dwarf" => Pick(dwarfNames, rng)
      case "skaven" => Pick(skavenNames, rng)
      case _ => Drawn(UnknownName, rng)
    }

    /** `generateDescriptionForRace`: a description from the race's list, or a synthesized one. */
    function GenerateDescriptionForRace(race: string, rng: Rng): (d: Drawn<string>)
      requires Valid()
      ensures d.rng.stream == rng.stream
      ensures race in descriptions ==> d.value in descriptions[race] && d.rng.pos == rng.pos + 1
      ensures race !in descriptions ==> d == Drawn("Загадочный представитель расы " + race, rng)
    {
      if race in descriptions then Pick(descriptions[race], rng)
      else Drawn("Загадочный представитель расы " + race, rng)
    }

    /** `generateSingleNPC`: race, then name, then description, then the record. */
    function GenerateSingleNpc(locationId: string, locType: string, index: nat, rng: Rng): (d: Drawn<NpcRecord>)
      requires Valid()
      ensures d.value.id == NpcId(locationId, index) && d.value.locationId == locationId
      ensures d.rng.stream == rng.stream
    {
      var race := SelectRaceForLocation(locType, rng);
      var name := GenerateNameForRace(race.value, race.rng);
      var description := GenerateDescriptionForRace(race.value, name.rng);
      Drawn(NpcRecord(NpcId(locationId, index), name.value, race.value, locationId, description.value),
            description.rng)
    }

    /** The first `n` iterations of the generation loop: NPCs number 1 to `n`, in order. */
    function GenerateFirst(locationId: string, locType: string, n: nat, rng: Rng): (d: Drawn<seq<NpcRecord>>)
      requires Valid()
      ensures |d.value| == n
      ensures d.rng.stream == rng.stream
      decreases n
    {
      if n == 0 then Drawn([], rng)
      else
        var prev := GenerateFirst(locationId, locType, n - 1, rng);
        var npc := GenerateSingleNpc(locationId, locType, n, prev.rng);
        Drawn(prev.value + [npc.value], npc.rng)
    }

    /** Every NPC `generateSingleNPC` builds has the location's id, its own index and pooled contents. */
    lemma SingleNpcWellFormed(locationId: string, locType: string, index: nat, rng: Rng)
      requires Valid()
      ensures WellFormed(GenerateSingleNpc(locationId, locType, index, rng).value, locationId, index)
    {
      var race := SelectRaceForLocation(locType, rng);
      var name := GenerateNameForRace(race.value, race.rng);
      var description := GenerateDescriptionForRace(race.value, name.rng);
      assert Covers() ==> race.value in raceNames;
    }

    /** NPC number `i + 1` of the loop is well formed for its index, for every `i < n`. */
    lemma {:induction false} GenerateFirstWellFormed(locationId: string, locType: string, n: nat, rng: Rng)
      requires Valid()
      ensures forall i :: 0 <= i < n ==> WellFormed(GenerateFirst(locationId, locType, n, rng).value[i], locationId, i + 1)
      decreases n
    {
      if n > 0 {
        var prev := GenerateFirst(locationId, locType, n - 1, rng);
        GenerateFirstWellFormed(locationId, locType, n - 1, rng);
        SingleNpcWellFormed(locationId, locType, n, prev.rng);
      }
    }

    /** NPCs generated as numbers 1, 2, ... of one location have pairwise distinct ids. */
    lemma WellFormedIdsDistinct(npcs: seq<NpcRecord>, locationId: string)
      requires forall i :: 0 <= i < |npcs| ==> WellFormed(npcs[i], locationId, i + 1)
      ensures forall i, j :: 0 <= i < j < |npcs| ==> npcs[i].id != npcs[j].id
    {
      forall i, j | 0 <= i < j < |npcs|
        ensures npcs[i].id != npcs[j].id
      {
        NpcIdInjective(locationId, i + 1, j + 1);
      }
    }

    /** The NPC count draw followed by the generation loop: what `GenerateNPCsForLocation` produces. */
    function NpcsForLocation(locationId: string, locType: string, rng: Rng): (d: Drawn<seq<NpcRecord>>)
      requires Valid()
      ensures 3 <= |d.value| <= 5
      ensures d.rng.stream == rng.stream
    {
      var count := Intn(rng, 3);
      GenerateFirst(locationId, locType, 3 + count.value, count.rng)
    }

    /**
     * The NPCs of one location: three to five of them, NPC `i` (from 1) with
     * id `locationId_npc_i` and the location's id, and therefore pairwise
     * distinct ids, each with a race, name and description from the pools.
     */
    lemma NpcsForLocationProperties(locationId: string, locType: string, rng: Rng)
      requires Valid()
      ensures var npcs := NpcsForLocation(locationId, locType, rng).value;
        && 3 <= |npcs| <= 5
        && (forall i :: 0 <= i < |npcs| ==> WellFormed(npcs[i], locationId, i + 1))
        && (forall i, j :: 0 <= i < j < |npcs| ==> npcs[i].id != npcs[j].id)
    {
      var count := Intn(rng, 3);
      var npcs := NpcsForLocation(locationId, locType, rng).value;
      GenerateFirstWellFormed(locationId, locType, 3 + count.value, count.rng);
      WellFormedIdsDistinct(npcs, locationId);
    }

    /**
     * `GenerateNPCsForLocation`: allocates the NPCs of `NpcsForLocation`, in
     * order, and appends their ids to `location.npcs` after what was there.
     */
    method GenerateNPCsForLocation(location: Location, rng: Rng) returns (npcs: seq<NPC>, rng': Rng)
      requires Valid()
      modifies location`npcs
      ensures var drawn := NpcsForLocation(location.id, location.locType, rng);
        && |npcs| == |drawn.value|
        && (forall k :: 0 <= k < |npcs| ==> npcs[k].Record() == drawn.value[k])
        && (forall k :: 0 <= k < |npcs| ==> fresh(npcs[k]))
        && location.npcs == old(location.npcs) + Ids(drawn.value)
        && rng' == drawn.rng
    {
      var drawn := NpcsForLocation(location.id, location.locType, rng);
      npcs := AllocateNpcs(location, drawn.value);
      rng' := drawn.rng;
    }
  }

  /**
   * The allocating half of the generation loop: one `NPC` per record, in
   * order, each id appended to `location.npcs` as its NPC is created.
   */
  method AllocateNpcs(location: Location, records: seq<NpcRecord>) returns (npcs: seq<NPC>)
    modifies location`npcs
    ensures |npcs| == |records|
    ensures forall k :: 0 <= k < |npcs| ==> npcs[k].Record() == records[k]
    ensures forall k :: 0 <= k < |npcs| ==> fresh(npcs[k])
    ensures location.npcs == old(location.npcs) + Ids(records)
  {
    npcs := [];
    var i := 0;
    while i < |records|
      invariant 0 <= i <= |records| && |npcs| == i
      invariant forall k :: 0 <= k < i ==> npcs[k].Record() == records[k]
      invariant forall k :: 0 <= k < i ==> fresh(npcs[k])
      invariant location.npcs == old(location.npcs) + Ids(records[..i])
    {
      var npc := new NPC(records[i]);
      assert Ids(records[..i + 1]) == Ids(records[..i]) + [npc.id] by {
        assert records[..i + 1] == records[..i] + [records[i]];
      }
      npcs := npcs + [npc];
      location.npcs := location.npcs + [npc.id];
      i := i + 1;
    }
    assert records[..i] == records;
  }

  /** `NewNPCBuilder`: the program's race, name and description tables. */
  function NewNpcBuilder(): NpcBuilder {
    NpcBuilder(
      ["human", "dwarf", "skaven"],
      ["Артур", "Гвендолин", "Роланд", "Изабелла", "Гарет", "Элеонора",
       "Торвальд", "Бригитта", "Алрик", "Катарина", "Дункан", "Морген"],
      ["Торин", "Дайн", "Балин", "Двалин", "Кили", "Фили",
       "Грои", "Нали", "Дори", "Ори", "Бифур", "Бофур"],
      ["Скритч", "Снеак", "Гнаурр", "Скиттер", "Твитч", "Читтер",
       "Скурк", "Нибблз", "Визкил", "Клок", "Снифф", "Ратти"],
      map[
        "human" := [
          "Усталый путешественник с мешком за спиной",
          "Местный торговец, знающий все дороги",
          "Бывший солдат, ищущий приключений",
          "Мудрый старик с длинной бородой",
          "Молодая женщина с решительным взглядом"],
        "dwarf" := [
          "Крепкий дварф с могучей киркой",
          "Бородатый мастер с молотом в руках",
          "Дварф-шахтер, весь в угольной пыли",
          "Воин клана с боевым топором",
          "Старый дварф с мудрыми глазами"],
        "skaven" := [
          "Подозрительный крыс-человек с красными глазами",
          "Юркий скавен с острыми когтями",
          "Старый скавен-чародей с посохом",
          "Скавен-разведчик в потрепанном плаще",
          "Зловещий крысолюд с кривой ухмылкой"]],
      map["mountain" := "dwarf", "ruins" := "skaven", "village" := "human"])
  }

  /**
   * The program's builder can never panic and covers all its races, so the
   * `"Неизвестный"` name and the synthesized description are never produced.
   */
  lemma NewNpcBuilderValid()
    ensures NewNpcBuilder().Valid() && NewNpcBuilder().Covers()
    ensures NewNpcBuilder().raceNames == ["human", "dwarf", "skaven"]
    ensures NewNpcBuilder().locationRaceMap == map["mountain" := "dwarf", "ruins" := "skaven", "village" := "human"]
  {
    var nb := NewNpcBuilder();
    assert nb.descriptions.Keys == {"human", "dwarf", "skaven"};
  }
}
