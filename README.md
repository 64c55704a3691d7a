# A verified model of the world generator and the commit-message helper

This project models two parts of a small Wails text-adventure, in Dafny.

The first is the Go world generator and its game layer:

- the NPC builder, which populates a location with three to five NPCs. Each NPC's race depends on the location type, with an 80% bias. Its name and description come from fixed pools;
- the location builder, which draws a location's type, a name not yet used and a description. It then stores the starting location and its NPCs in a world;
- the `World` aggregate, with its keyed location and NPC stores;
- `WorldGenerationService`, which seeds a generator and fills an empty world;
- `GameEngine`, which holds the generated world and a player NPC and moves the player along exits;
- `GameState`, which stores the current location id.

The second is the line classification and message generation of `scripts/smart-commit.js`. That script reads `git status --porcelain`. It sorts each path into the added, modified or deleted list and counts it under the first area of the code base whose patterns occur in it. From that summary it writes a conventional-commit message.

Objects that the program updates through pointers are classes:

- `Location`, whose NPC id list is appended to after the location is already stored in the world;
- `NPC`, whose location id the engine rewrites when the player moves;
- `World`;
- `GameEngine`;
- `GameState`.

`Location` and `NPC` have a `Record()` value view and `World` has a `Contents()` view. The methods of these classes, and of the builders that fill a world, tie their new state to a specification function on those values. The properties are then proved as lemmas about the functions. `GameEngine` has no view of its own. Its player's position is `PlayerAt()`, and its methods are stated against the world's `Contents()` through the functions `LocationAt`, `Move` and `NpcsAt`. `GameState` holds a single string, and its methods state that field directly.

The pools-and-draws code of the builders is written as functions. Each takes a generator state and returns a value together with the next state. The random generator is abstract: an arbitrary stream of raw values and a position in it. Every property therefore holds for every seed and every seeding algorithm.

`GenerateRandomLocations` (`app/infrastructure/builders/location_builder.go:78-89`) ignores its `count` argument. It builds one location, `"start"`, which is an ordinary random location with no exits. The model proves that a generated world has exactly this one location (`Services.WorldGenerationService.GeneratedWorldShape`). It also proves that every move from it fails with "cannot go" (`Engine.GeneratedWorldIsClosed`).

## Model

| member | source | states |
|---|---|---|
| Random.NewRand | app/domain/services/world_generation_service.go:27 | the generator starts at the beginning of the stream its seed selects |
| Random.Intn | app/infrastructure/builders/npc_builder.go:70 | `Intn(n)` yields a value below `n` and consumes exactly one draw of the same stream |
| Random.Pick | app/infrastructure/builders/npc_builder.go:116 | indexing a pool with `Intn(len(pool))` yields a member of the pool and consumes one draw |
| Format.NatToStringInjective | app/infrastructure/builders/npc_builder.go:97 | distinct numbers print as distinct decimal strings under `%d` |
| Entities.Location.constructor | app/domain/entities/location.go:4-11 | a new location holds exactly the given id, name, description, type, exits and NPC ids |
| Entities.NPC.constructor | app/domain/entities/npc.go:4-10 | a new NPC holds exactly the given id, name, race, location id and description |
| Entities.Ids | app/infrastructure/builders/npc_builder.go:79 | the ids appended to a location are those of its NPCs, one per NPC, in order |
| NpcBuilders.NpcId | app/infrastructure/builders/npc_builder.go:97 | an NPC's id: the location id, then `_npc_`, then the index in decimal |
| NpcBuilders.NpcIdInjective | app/infrastructure/builders/npc_builder.go:97 | within one location, `<location>_npc_<i>` ids of distinct indices differ |
| NpcBuilders.NpcBuilder.UniformRace | app/infrastructure/builders/npc_builder.go:116 | the fallback race is one of the builder's races |
| NpcBuilders.NpcBuilder.SelectRaceForLocation | app/infrastructure/builders/npc_builder.go:106-117 | a mapped type gives its primary race on a roll below 80, else a uniform race drawn after the roll; an unmapped type draws a uniform race without rolling |
| NpcBuilders.NpcBuilder.GenerateNameForRace | app/infrastructure/builders/npc_builder.go:120-131 | a known race gets a name from its own pool with one draw; any other race gets "Неизвестный" and consumes nothing |
| NpcBuilders.NpcBuilder.GenerateDescriptionForRace | app/infrastructure/builders/npc_builder.go:134-139 | a race with a description list gets one of them with one draw; any other race gets the synthesized text and consumes nothing |
| NpcBuilders.NpcBuilder.GenerateSingleNpc | app/infrastructure/builders/npc_builder.go:86-103 | the NPC has id `<location>_npc_<index>` and stands at the location |
| NpcBuilders.NpcBuilder.GenerateFirst | app/infrastructure/builders/npc_builder.go:74-80 | `n` iterations of the loop produce exactly `n` NPCs from the same stream |
| NpcBuilders.NpcBuilder.SingleNpcWellFormed | app/infrastructure/builders/npc_builder.go:86-103 | a single NPC has its index's id and the location's id; with a covering builder, its race is a listed race and its name and description come from that race's pools |
| NpcBuilders.NpcBuilder.GenerateFirstWellFormed | app/infrastructure/builders/npc_builder.go:74-80 | NPC number `i + 1` of the loop is well formed for index `i + 1` |
| NpcBuilders.NpcBuilder.WellFormedIdsDistinct | app/infrastructure/builders/npc_builder.go:97 | NPCs numbered 1, 2, … in one location have pairwise distinct ids |
| NpcBuilders.NpcBuilder.NpcsForLocation | app/infrastructure/builders/npc_builder.go:70-80 | the count `3 + Intn(3)` gives three to five NPCs |
| NpcBuilders.NpcBuilder.NpcsForLocationProperties | app/infrastructure/builders/npc_builder.go:68-83 | a location gets three to five NPCs; each is well formed for its index, and their ids are pairwise distinct |
| NpcBuilders.NpcBuilder.GenerateNPCsForLocation | app/infrastructure/builders/npc_builder.go:68-83 | returns new NPC objects holding the specified records in order; the location's NPC list is its old list followed by their ids |
| NpcBuilders.AllocateNpcs | app/infrastructure/builders/npc_builder.go:72-80 | one new NPC per record, in order, with each id appended to the location as its NPC is created |
| NpcBuilders.NewNpcBuilderValid | app/infrastructure/builders/npc_builder.go:21-65 | the program's builder has no empty pool, so no draw can panic; it covers every race it can draw, and its races and primary-race map are the program's |
| NpcBuilders.NewNpcBuilder | app/infrastructure/builders/npc_builder.go:21-65 | the program's race list, name pools, description lists and primary-race map, as written, entry for entry and in order |
| LocationBuilders.LocationBuilder.PickUnusedNameProperties | app/infrastructure/builders/location_builder.go:96-102 | a name the re-roll loop settles on is from the pool and was not used |
| LocationBuilders.LocationBuilder.PickUnusedNameFresh | app/infrastructure/builders/location_builder.go:96-102 | with no used names, the loop stops at its first draw |
| LocationBuilders.LocationBuilder.BuildRandomLocationProperties | app/infrastructure/builders/location_builder.go:92-120 | a built location has the given id, a listed type and a pooled name that was unused, which is the only name added to the used set; with a covering builder its description comes from its type's list; it has no exits and no NPCs |
| LocationBuilders.LocationBuilder.BuildRandomLocationFresh | app/infrastructure/builders/location_builder.go:80-81 | from a fresh used-name set, building a location always succeeds |
| LocationBuilders.LocationBuilder.BuildRandomLocation | app/infrastructure/builders/location_builder.go:92-120 | the type draw, the re-roll loop and the description draw give a new location holding the specified record, the updated used-name set and the next generator state |
| LocationBuilders.LocationBuilder.StartSpecProperties | app/infrastructure/builders/location_builder.go:78-89 | the start location is `"start"` with a listed type, a pooled name and no exits; its NPC ids are exactly the ids of its three to five well-formed NPCs, which are pairwise distinct |
| LocationBuilders.LocationBuilder.GenerateRandomLocations | app/infrastructure/builders/location_builder.go:78-89 | stores a new start location holding the specified record under `"start"`; stores each new NPC under its id; changes no other entry |
| LocationBuilders.LocationBuilder.PopulateLocation | app/infrastructure/builders/location_builder.go:85-88 | the stored location's NPC list grows by the generated ids, and every generated NPC is stored under its id |
| LocationBuilders.AddNpcs | app/infrastructure/builders/location_builder.go:86-88 | the NPC store after adding each NPC in turn |
| LocationBuilders.NewLocationBuilderValid | app/infrastructure/builders/location_builder.go:26-75 | the program's builder has no empty pool, describes every type, has the program's six types, and uses the program's NPC builder |
| LocationBuilders.NewLocationBuilder | app/infrastructure/builders/location_builder.go:26-75 | the program's location types, names and description lists, as written, entry for entry and in order, with the program's NPC builder |
| Aggregates.WithRecordsContents | app/domain/aggregates/world.go:41-43 | after adding NPCs with distinct ids, each is found under its own id, the keys are the old keys plus those ids, and every other entry is unchanged |
| Aggregates.NpcRecordsWithNpcs | app/domain/aggregates/world.go:41-43 | storing NPC objects stores their records |
| Aggregates.LocationRecordsUpdate | app/domain/aggregates/world.go:36-38 | storing a location object stores its record |
| Aggregates.World.NewEmptyWorld | app/domain/aggregates/world.go:17-28 | an empty world with the name, and the seed, or the clock reading when the seed is zero |
| Aggregates.World.GetLocations | app/domain/aggregates/world.go:31-33 | returns the location store itself |
| Aggregates.World.AddLocation | app/domain/aggregates/world.go:36-38 | the location is stored under the id, replacing any previous entry; nothing else changes |
| Aggregates.World.AddNPC | app/domain/aggregates/world.go:41-43 | the NPC is stored under its own id, replacing any previous entry; nothing else changes |
| Services.WorldGenerationService.GenerateWorld | app/domain/services/world_generation_service.go:23-33 | a new world whose contents are the named, seed-stamped empty world populated from a generator seeded with the caller's seed |
| Services.WorldGenerationService.GeneratedWorldShape | app/domain/services/world_generation_service.go:23-33 | a generated world has exactly one location, `"start"`, with no exits and three to five NPCs; the NPC store holds exactly those NPCs, each under its own id and located at `"start"` |
| Services.WorldGenerationService.ClockOnlyStampsSeed | app/domain/services/world_generation_service.go:23-27 | the clock only stamps the seed: with equal seeds the locations and NPCs are equal, and with a non-zero seed the worlds are equal |
| Services.NewWorldGenerationService | app/domain/services/world_generation_service.go:16-20 | a service over the program's location builder |
| Engine.MoveProperties | app/game/engine.go:70-88 | the three checks in order: no current location exactly when the move fails with "no current location"; a missing exit gives "cannot go" (and only a missing exit does); an exit to an unstored id gives "does not exist" with that id; an exit to a stored id succeeds with that id, and a successful move always follows the current location's exit to a stored location |
| Engine.GeneratedWorldIsClosed | app/game/engine.go:21-30 | in the engine's generated world every move from `"start"` fails with "cannot go", and the NPCs at `"start"` are all the world's NPCs |
| Engine.PlayerRecord | app/game/engine.go:42-49 | the player NPC: id `player_<name>`, the given name, race `human`, location `start` and the fixed hero description |
| Engine.GameEngine.NewGameEngine | app/game/engine.go:21-30 | the engine holds a new world generated as `"Default World"` with seed 0; there is no player and it is not running |
| Engine.GameEngine.Initialize | app/game/engine.go:33-38 | the engine is running |
| Engine.GameEngine.CreatePlayer | app/game/engine.go:41-53 | a new human NPC `player_<name>` at `"start"` becomes the current player |
| Engine.GameEngine.GetCurrentPlayer | app/game/engine.go:56-58 | returns the current player |
| Engine.GameEngine.GetCurrentLocation | app/game/engine.go:61-67 | nil when there is no player or no location is stored under the player's location id; otherwise that stored location |
| Engine.GameEngine.MovePlayer | app/game/engine.go:70-88 | on success the player stands at the exit's target, which is returned; on each of the three errors the player does not move |
| Engine.GameEngine.GetNPCsInLocation | app/game/engine.go:91-96 | the NPC ids of the stored location, or none for an unknown id |
| Engine.GameEngine.IsRunning | app/game/engine.go:99-101 | returns the running flag |
| GameStates.GameState.NewGameState | app/game/game_state.go:13-17 | a new state starts at `"start"` |
| GameStates.GameState.GetCurrentLocationId | app/game/game_state.go:20-22 | returns the stored id |
| GameStates.GameState.SetCurrentLocationId | app/game/game_state.go:25-27 | the stored id becomes the given id |
| SmartCommit.Trim | scripts/smart-commit.js:43 | the result is a slice of the text with only white space outside it; it is empty exactly when the text is all white space, and otherwise it starts and ends with a non-white character |
| SmartCommit.SplitJoin | scripts/smart-commit.js:42 | splitting joined lines that hold no line feed gives the lines back |
| SmartCommit.JoinSplit | scripts/smart-commit.js:42 | joining the pieces of a split gives the text back |
| SmartCommit.StatusCode | scripts/smart-commit.js:45 | the status code is the line's first two characters, or the whole line when it is shorter |
| SmartCommit.IsBlank | scripts/smart-commit.js:43 | a line is skipped when trimming leaves nothing, that is when it is all white space |
| SmartCommit.FilePath | scripts/smart-commit.js:46 | the path: the line from its fourth character on, empty when the line has at most three characters |
| SmartCommit.KindOf | scripts/smart-commit.js:48-59 | after trimming the code: `A` or `??` gives the added list, `M` the modified list, `D` the deleted list; any other code gives no list |
| SmartCommit.CategoryOf | scripts/smart-commit.js:62-70 | the first area, tried in the order frontend, backend, config, docs, one of whose literal patterns occurs in the path; no area when none occurs |
| SmartCommit.ContainsAnyMember | scripts/smart-commit.js:62-69 | an alternation of literals matches when any one of them occurs |
| SmartCommit.ContainsAnyMeaning | scripts/smart-commit.js:62-69 | an alternation of literals matches exactly when one of its literals occurs |
| SmartCommit.GitChanges | scripts/smart-commit.js:25-30 | no summary exactly when the command failed or printed nothing |
| SmartCommit.RecordLine | scripts/smart-commit.js:42-71 | one turn of the callback applies that line's reading to the summary |
| SmartCommit.GetGitChanges | scripts/smart-commit.js:25-74 | the loop over the lines computes the summary of their readings |
| SmartCommit.SummarizeContents | scripts/smart-commit.js:42-71 | each list holds exactly the paths of the non-blank lines whose code names it, in line order; each counter is the number of lines whose first matching area it is |
| SmartCommit.SummarizeBounds | scripts/smart-commit.js:42-71 | the paths listed and the counts added each total at most the number of lines |
| SmartCommit.JsonCountsAsFrontend | scripts/smart-commit.js:62-66 | any path containing `.json` is counted as frontend, because `.js` is tried first |
| SmartCommit.CommitType | scripts/smart-commit.js:77-83 | `fix` exactly when more paths are modified than added; `refactor` exactly when not and some are deleted; `feat` otherwise |
| SmartCommit.Labels | scripts/smart-commit.js:85-90 | an area's label appears exactly when its counter is non-zero, each at most once, in the fixed area order |
| SmartCommit.Description | scripts/smart-commit.js:92 | `project updates` exactly when all counters are zero; otherwise the labels joined by `, ` |
| SmartCommit.GenerateCommitMessage | scripts/smart-commit.js:76-95 | the message reads back as the commit type before `: ` and the description after it |
| SmartCommit.ProposedMessage | scripts/smart-commit.js:118-130 | with git's output trimmed at both ends as the script reads it: there is no message (the script exits) exactly when there are no changes; otherwise it is a non-empty argument when one is given, else the generated message |
| SmartCommit.TrimmedStatus | scripts/smart-commit.js:17-23 | `execCommand`: a failed command gives nothing, otherwise its output trimmed at both ends |
| SmartCommit.CorrectedProposedMessage | scripts/smart-commit.js:118-130 | the same proposal, computed from git's output with only its trailing white space removed |
| SmartCommit.TrimmedStatusLosesFirstPathCharacter | scripts/smart-commit.js:19 | as written, git's line ` M app.go` is read as the modified path `pp.go` |
| SmartCommit.CorrectedStatusRoundTrip | scripts/smart-commit.js:45-46 | with only trailing white space removed, every path git reports lands in the list its code names, exactly as printed and in git's order |

## Left out

- Random.Intn: Go's `math/rand` algorithm and `rand.NewSource` are not modelled. The generator is an arbitrary stream of raw values, and `Intn(n)` is the raw value modulo `n`. Every property holds for every stream, but the exact values for a given seed are not reproduced.
- Aggregates.World.NewEmptyWorld: `time.Now().UnixNano()` is the parameter `clock`.
- LocationBuilders.LocationBuilder.BuildRandomLocation: the re-roll loop has no bound in Go. The model allows it `fuel` draws and returns nothing when they all hit used names. Non-termination on an exhausted name pool is not modelled. The program's only caller starts from an empty used-name set, where one draw always succeeds (`BuildRandomLocationFresh`).
- NpcBuilders.NpcBuilder.GenerateNPCsForLocation: the Go loop interleaves the draws of each NPC with its allocation and the append of its id. The model draws all NPCs first (`NpcsForLocation`) and then allocates and appends them (`AllocateNpcs`). No draw reads the location's NPC list or any NPC, so the results and the final state are the same.
- Engine.GameEngine.CreatePlayer: the `Level: 1` field the source sets is not modelled, because `entities.NPC` declares no such field.
- Engine.GameEngine.Initialize: the `context.Context` it saves is not modelled; it always returns nil.
- JSON tags, the frontend DTOs `LocationInfo` and `NPCInfo`, and the generated TypeScript bindings are not modelled. They are serialization only.
- `app.go` (the Wails binding, including its `GetCurrentLocationInfo`, which `engine.go` does not define) and `scripts/quick-commit.js` are not part of this model.
- smart-commit.js I/O is not modelled: the prompts, `showChangesPreview`, the console output, `git add` and `git commit`, and `process.exit`. The output of `git status --porcelain` is a parameter, where `None` stands for a failed command. `ProposedMessage` is the message before the user confirms or edits it.
- GameStates.GameState.NewGameState: the `"start"` it begins at is its own constant, equal to the builders' `StartId`; the model does not link the two.
- SmartCommit.CategoryOf: the regular expressions are alternations of literals and are modelled as substring search. Their `\.` escapes are literal dots.
- SmartCommit.IsWhite: JavaScript's `trim` white-space set is modelled by code point. UTF-16 surrogate pairs are not distinguished, because no character outside the basic plane is white space.
- SmartCommit.StatusCode and SmartCommit.FilePath: JavaScript's `substring` counts UTF-16 code units, while the model counts characters (code points). The two differ only when a character outside the basic plane falls in the first three units of a line. Git quotes such paths by default, unless `core.quotePath` is off.
- LocationBuilders.LocationBuilder.GenerateRandomLocations: the `WorldInterface` it accepts (`app/infrastructure/builders/location_builder.go:10-15`) is modelled by its one implementation, the `World` class. The model takes a `World` and does not cover other implementations of the interface.
- Aggregates.World.GetLocations: Go returns the `Locations` map by reference, so a caller's writes through it would reach the world. The model returns the map as a value, and this map aliasing is not modelled. No caller in the program writes through the returned map.

## Findings

| source | as written | input that shows it | evidently intended | confidence | as-written member | corrected member |
|---|---|---|---|---|---|---|
| scripts/smart-commit.js:19 | `execCommand` trims the whole porcelain output at both ends, so the leading space of the first line's two-column status code is removed; lines 45-46 then read the code and path one column off | one unstaged modification, git's output ` M app.go\n`: the modified list is `["pp.go"]` | only the trailing line feed is removed, so every line keeps its `XY path` layout and the list is `["app.go"]` | not executed | SmartCommit.TrimmedStatusLosesFirstPathCharacter | SmartCommit.CorrectedStatusRoundTrip |
