# AsyncParser: a Dafny model of the demo-timeline façade

This project models the read side of the replay viewer's `AsyncParser`. That is
the façade which hands a recorded demo to a parse worker, waits for the parsed
timeline, adopts it, and answers per-tick queries for players, buildings and
projectiles. Three pieces are modelled:

- **Players at a tick** (`players.dfy`, module `Players`). The parser walks the
  slots `0 .. nextMappedPlayer-1` in order. For each slot that has an entity in
  `entityPlayerMap`, it asks the player cache for that slot's snapshot. Then it
  applies the "fake teams in a one-versus-one free-for-all" rewrite: when
  exactly two players come back and the first has team number 0, they become
  red (2) and blue (3).
- **Worker messages** (`dispatch.dfy`, module `Dispatch`). Every message falls
  into exactly one case. A truthy `error` rejects. Otherwise a truthy
  `progress` calls the progress callback. Anything else has its three caches
  rehydrated and resolves the promise with the message's own object. If a
  `rehydrate` call throws, `resolve` is never reached and the promise stays
  pending. JavaScript truthiness is modelled explicitly (`js_values.dfy`). A
  promise settles at most once; the handler stays attached after that.
- **`cache()` and the accessors** (`async_parser.dfy`, module `AsyncParser`).
  This covers the constructor's initial state, copying the result's fields onto
  the parser, and `getBuildingAtTick` / `getProjectilesAtTick` passing the
  query to their caches.

The caches (`PlayerCache`, `BuildingCache`, `ProjectileCache`), their
`rehydrate` operations and the decoding library's types are not part of this
model. Each cache is represented by its query function alone
(`demo_types.dfy`). Each `rehydrate` is given as a function from plain data to
a live cache, together with a flag saying whether it returns normally or
throws when handed `undefined`. The library's values are abstract types.

A message's result fields, and so the object the promise resolves with, may
each be missing, that is `undefined`. `cache()` copies them as they are. Where
the source would throw a TypeError by reading a property of `undefined`, the
accessors return `Failure(ReadOfUndefined)`.

Behaviour of the code worth knowing, reproduced by the model:

- The rewrite condition on line 111 tests `players[0].teamId === 0` twice and
  never reads player 1's team. So it is not a "both players on the same team"
  rule. `Players.FixUpIsNotSameTeamRule` exhibits a pair the two rules treat
  differently.
- Querying players before `cache()` does not fail. A fresh parser has no
  mapped slots, so it returns an empty list. Building and projectile reads do
  fail before `cache()`.
- `progress` is tested for truthiness, so a report of exactly 0 is read as the
  result (`Dispatch.ZeroProgressIsDelivered`). The consequence is in
  `AsyncParser.ZeroProgressBeforeResult`. If every `rehydrate` accepts
  `undefined`, `cache()` succeeds with all eleven fields `undefined` and the
  real result that follows is ignored. Otherwise the handler throws on the
  message and `cache()` proceeds as if it had never arrived.

## Model

| member | source | states |
|---|---|---|
| Players.MappedSlots | src/components/Analyse/Data/AsyncParser.ts:103-105 | the slots the walk finds mapped, in strictly increasing order; a slot is listed iff it lies in [0, nextMappedPlayer) and has an entity; at most nextMappedPlayer of them |
| Players.MappedSlotsCoverSlotSet | src/components/Analyse/Data/AsyncParser.ts:103-105 | the walk finds exactly as many mapped slots as there are mapped slots in range, each once |
| Players.CollectPlayers | src/components/Analyse/Data/AsyncParser.ts:103-108 | before the rewrite there is one entry per mapped slot, and the k-th entry is the cache's snapshot for the k-th mapped slot, looked up with that slot's entity's user |
| Players.FakeTeams | src/components/Analyse/Data/AsyncParser.ts:111-117 | the rewrite keeps the length and every non-team field; when it applies, entry 0 is red/2 and entry 1 is blue/3; otherwise the list is returned as given |
| Players.PlayersAtTick | src/components/Analyse/Data/AsyncParser.ts:101-118 | the players at a tick, given a defined cache and slot map: one entry per mapped slot, in slot order, each with its slot's snapshot apart from the team fields; PlayersAtTickShape and PlayersAtTickFixUp state the rest |
| Players.PlayersAtTickShape | src/components/Analyse/Data/AsyncParser.ts:101-118 | the players at a tick: at most nextMappedPlayer entries, one per mapped slot in slot order, empty when nextMappedPlayer <= 0; each entry's non-team fields are its slot's snapshot; without the rewrite each entry is exactly that snapshot |
| Players.PlayersAtTickFixUp | src/components/Analyse/Data/AsyncParser.ts:111-116 | with exactly two mapped slots and the first slot's snapshot on team 0, the result is the two snapshots relabelled red/2 and blue/3, whatever the second one's team was |
| Players.FakeTeamsChangesIff | src/components/Analyse/Data/AsyncParser.ts:111-117 | the rewrite changes the list if and only if there are exactly two players and the first is on team 0 |
| Players.FakeTeamsIdempotent | src/components/Analyse/Data/AsyncParser.ts:111-116 | rewriting an already rewritten list changes nothing |
| Players.FakeTeamsIgnoresSecondTeam | src/components/Analyse/Data/AsyncParser.ts:111 | whether the rewrite fires does not depend on the second player's team, and when it fires, neither does what it produces |
| Players.FixUpIsNotSameTeamRule | src/components/Analyse/Data/AsyncParser.ts:111 | the code's rule differs from "two players on the same team": teams 0 and 2 are relabelled, teams 5 and 5 are not |
| DemoTypes.RehydrateField | src/components/Analyse/Data/AsyncParser.ts:93-95 | one cache's rehydration: present data becomes that cache's live form; a missing cache stays missing when rehydrate accepts undefined, and throws otherwise |
| DemoTypes.Rehydrate | src/components/Analyse/Data/AsyncParser.ts:92-96 | the three rehydrate calls succeed iff every missing cache's rehydrate accepts undefined; then the caches are rehydrated and every other field is as delivered; CacheEndToEnd and ZeroProgressBeforeResult use it |
| DemoTypes.RehydrateComplete | src/components/Analyse/Data/AsyncParser.ts:92-96 | a result carrying every field always rehydrates, to live caches and a defined slot map and death log |
| DemoTypes.RehydrateNoFields | src/components/Analyse/Data/AsyncParser.ts:92-96 | a message with no result fields rehydrates iff all three rehydrate calls accept undefined, and then yields the object with every field undefined |
| Dispatch.Classify | src/components/Analyse/Data/AsyncParser.ts:84-92 | a message is an error iff `error` is truthy; progress iff `error` is falsy and `progress` truthy; the result otherwise; each case carries that field |
| Dispatch.ZeroProgressIsDelivered | src/components/Analyse/Data/AsyncParser.ts:88-96 | a message with a falsy error, progress 0 and no result fields is read as the result; it resolves a pending promise with the all-undefined object iff every rehydrate accepts undefined, and otherwise leaves it pending |
| Dispatch.Settle | src/components/Analyse/Data/AsyncParser.ts:85-96 | definition of the promise rule that resolve or reject settles a pending promise and is ignored by a settled one; SettledIsFinal and FirstSettlingMessageDecides state its consequences |
| Dispatch.OnMessage | src/components/Analyse/Data/AsyncParser.ts:83-97 | the handler on one message: an error rejects a pending promise with no callback call; progress calls the callback once and leaves the promise as it was; a result starts rehydration, then resolves a pending promise with the rehydrated object, or leaves the promise as it was if a rehydrate call throws; a settled promise never changes |
| Dispatch.Run | src/components/Analyse/Data/AsyncParser.ts:83-97 | the handler stays attached across a message sequence, and the promise changes only from pending |
| Dispatch.SettlesIff | src/components/Analyse/Data/AsyncParser.ts:84-96 | a message settles a pending promise iff it is an error or a result whose rehydration returns, and then to exactly one of rejected-with-the-error or resolved-with-the-rehydrated-object; a progress message never settles |
| Dispatch.SettledIsFinal | src/components/Analyse/Data/AsyncParser.ts:83-97 | once rejected or resolved, no sequence of later messages changes the promise |
| Dispatch.NonSettlingKeepsPending | src/components/Analyse/Data/AsyncParser.ts:83-97 | a sequence of progress messages and results whose rehydration throws leaves the promise pending |
| Dispatch.FirstSettlingMessageDecides | src/components/Analyse/Data/AsyncParser.ts:83-97 | the first settling message decides the promise: rejected with its error or resolved with its rehydrated object |
| Dispatch.CallbackSeesEveryReport | src/components/Analyse/Data/AsyncParser.ts:88-90 | the progress callback gets the values of exactly the progress messages, in delivery order, even after settlement |
| AsyncParser.NewParser | src/components/Analyse/Data/AsyncParser.ts:39-54 | a new parser keeps the buffer and the callback, has nextMappedPlayer 0, an empty slot map, no deaths, and every other field undefined |
| AsyncParser.FreshParserReads | src/components/Analyse/Data/AsyncParser.ts:39-43 | a new parser reports no players at any tick; its building and projectile reads fail on the undefined caches |
| AsyncParser.Adopt | src/components/Analyse/Data/AsyncParser.ts:57-69 | on success, ticks, header, the three caches, deaths, rounds, intervalPerTick, world, nextMappedPlayer and entityPlayerMap are copied from the result, undefined or not; buffer and progressCallback are unchanged |
| AsyncParser.AdoptForgetsPriorState | src/components/Analyse/Data/AsyncParser.ts:57-69 | two parsers adopting the same result become equal iff they had the same buffer and callback |
| AsyncParser.AdoptIdempotent | src/components/Analyse/Data/AsyncParser.ts:57-69 | adopting a result twice is the same as adopting it once |
| AsyncParser.ReadsAfterAdopt | src/components/Analyse/Data/AsyncParser.ts:101-126 | after adopting a result that carries its caches and slot map, all three reads are answered from them |
| AsyncParser.ReadsAfterEmptyAdopt | src/components/Analyse/Data/AsyncParser.ts:57-69 | adopting the all-undefined object leaves every adopted field undefined; the player walk then reports no players and the building and projectile reads fail |
| AsyncParser.CacheOutcome | src/components/Analyse/Data/AsyncParser.ts:56-70 | definition of the `.then` step: adopt on resolution, propagate a rejection's reason with the parser unchanged, wait while pending; CacheEndToEnd states the consequences |
| AsyncParser.Cache | src/components/Analyse/Data/AsyncParser.ts:56-97 | `cache()` over a message sequence never touches the buffer or the callback, and leaves the parser unchanged unless it succeeds |
| AsyncParser.CacheEndToEnd | src/components/Analyse/Data/AsyncParser.ts:56-97 | across a message sequence: an error as the first settling message fails `cache()` with the parser unchanged; a complete result there makes `cache()` succeed and the parser read from that result's rehydrated caches and slot map |
| AsyncParser.CacheWaitsWhileUnsettled | src/components/Analyse/Data/AsyncParser.ts:83-97 | while no settling message has arrived, `cache()` waits with the parser unchanged |
| AsyncParser.ZeroProgressBeforeResult | src/components/Analyse/Data/AsyncParser.ts:88-96 | a progress-0 message ahead of the real result either makes `cache()` succeed with every field undefined, so no players are reported and building reads fail, or, when a rehydrate throws on undefined, is as if it had never arrived |
| AsyncParser.PlayersOf | src/components/Analyse/Data/AsyncParser.ts:101-118 | the players at a tick are none when nextMappedPlayer is undefined or not positive; the read fails iff the walk runs and either the slot map is undefined or a mapped slot is in range while the player cache is undefined; otherwise there is one entry per mapped slot |
| AsyncParser.GetPlayersAtTick | src/components/Analyse/Data/AsyncParser.ts:101-118 | the step-by-step slot walk and rewrite compute exactly PlayersOf, including where they fail |
| AsyncParser.GetBuildingAtTick | src/components/Analyse/Data/AsyncParser.ts:120-122 | exactly the building cache's answer for the tick; fails only while that cache is undefined |
| AsyncParser.GetProjectilesAtTick | src/components/Analyse/Data/AsyncParser.ts:124-126 | exactly the projectile cache's answer for the tick; fails only while that cache is undefined |

## Left out

- Worker creation, `postMessage` and asynchronous delivery (AsyncParser.ts:75-83). These are browser concurrency and I/O. Messages are modelled as a sequence handled in delivery order.
- The transfer of `buffer` to the worker, which detaches it. The parser keeps the same buffer reference; that it is now empty is not modelled.
- `PlayerCache`, `BuildingCache`, `ProjectileCache`, their `rehydrate`, and `ParseWorker`, including slot allocation, hold-last-value lookup and progress computation. These files are not part of this model.
  - The caches are represented only by their query functions.
  - `rehydrate` is represented by its result on present data and by whether it throws on `undefined`.
  - A `rehydrate` that throws on malformed but present data is not modelled.
- `Players.CollectPlayers`: assumes `getPlayer` returns a fresh snapshot. The source writes the rewrite into the returned objects. If the cache hands out shared objects, that write would also change the cache; this is not modelled.
- The `demo` and `match` fields are declared but never assigned in this file, so they are left out.
- `intervalPerTick` and `now` are stored only as reals. Their floating-point meaning and any tick-to-time conversion are outside the model.
- A progress value of NaN, which is falsy in JavaScript, is not representable in the model.
- A result field is modelled as either missing or of its declared type. Fields of other types, such as a `nextMappedPlayer` that is not an integer, are not modelled.
- An exception thrown by the message handler is modelled only as the promise staying pending. Its report to the browser console is not modelled.
- Calling `cache()` again on the same parser is not modelled. Invariants that only the worker can establish are not modelled either: death ticks in range, ordered rounds, increasing progress.
- The settings panel and the nameplate are React presentation, not modelled. The panel's only logic is a library `clamp` on slider values; the nameplate's overheal width is a floating-point clamp.
