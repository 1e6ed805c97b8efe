# whodat-server handler: a Dafny model

whodat-server is one AWS Lambda handler. Its `initData` job reads team
standings, game schedules and player statistics for several sports leagues
from an upstream sports-data feed. It normalises the keys of every parsed
JSON document, tags each record with its league and swaps team stubs for the
full team records. It adds colours to the teams from a colour table kept in
an S3 bucket, then stores teams, games and players back in the bucket. Three
read endpoints serve those documents: all teams, the players of one team,
and today's games.

The repository holds two revisions of the handler:

- `handler.ts` is the earlier one, with the leagues nhl, nba and nfl.
- `handler.js` is the later one. It adds mlb, translates position codes
  through a positions table, and guards the players filter against players
  that have no team.

The model covers both revisions through `Records.Revision = HandlerTs | HandlerJs`.

Modules, in dependency order:

- `Wrappers`: `Option`.
- `Json`: the parsed JSON tree. An object is its ordered list of own
  properties. The module also defines property read, write and delete. A
  write keeps an existing key in its place and appends a new key at the
  end; JavaScript's rule that integer-like keys come first is not modelled.
- `KeyNormalizer`: the `normalizeKeys` reviver. The `for…in` loop is a
  method over the object's properties, proved equal to a specification
  function. `Revive` applies the reviver bottom-up to a whole tree, the way
  `JSON.parse` does (section 25.5.1.1 of ECMA-262, InternalizeJSONProperty).
- `Records`: teams, games, players and their stubs. Also `findTeam`,
  `convertPosition` and the per-record shaping, as value functions.
- `Rgb`: splitting, decimal and hex helpers for the `rgb` branch of
  `extractHex`.
- `Colours`: `normalizeName`, `extractHex`, `addColoursToTeam` and
  `addColoursToTeams`.
- `Shaping`: the `.tap(xs => xs.forEach(...))` passes. Each is an in-place
  loop over an `array`, proved against the value functions of `Records`.
- `Queries`: the players and games filters.
- `Pipeline`: the bucket, as a `Store` class holding a key→document map.
  Also `readAllDataFromApi` as a sequential method, and the three read
  endpoints.

Behaviour a reader might not expect, which the model follows:

- `normalizeName` (handler.ts:195-197) does not fold case, so a colour entry
  whose name differs from the team's only in letter case is not matched
  (`Colours.NamesMatch`).
- A colour entry with neither `hex` nor `rgb` sets `colour` to `null`
  (`ColourField.Null`). This differs from a team that has no matching entry
  at all, which is left without a `colour` field (`ColourField.Absent`).
- An upper-case key overwrites a lower-case key already present under its
  new name (`KeyNormalizer.ReviverMovesValue`). When an object holds both
  `ID` and `Id`, `id` takes the value of the later one in property order
  (`KeyNormalizer.ReviverIdAndId`).
- `findTeam` compares only `id` and ignores the league. A stub can therefore
  resolve to a team of another league that has the same id and comes first
  in merge order (`Records.FindTeamIgnoresLeague`).
- `findTeam` reads the reference's `.id` only when the team list is not
  empty. With an empty list, a game or player without a team field is kept
  with the field undefined (`Records.Findable`,
  `Pipeline.GamesUsableWithoutTeams`). With a non-empty list, such a record
  makes its league's fetch fail.
- In both revisions, `readAllDataFromApi` does not return the promise it
  builds. `Pipeline.InitData` returns the value that promise would settle
  with; its main effect is on the store.

## Model

| member | source | states |
|---|---|---|
| KeyNormalizer.NormalizeKeys | handler.ts:58-72 | the in-place loop over the object's keys gives exactly the specification `Reviver` value; non-objects come back unchanged (the same loop is at handler.js:28-43) |
| KeyNormalizer.Reviver | handler.ts:58-72 | the reviver keeps the kind of value; null, primitives and arrays pass through unchanged; the effect on objects is stated by `ReviverMeaning` |
| KeyNormalizer.Revive | handler.ts:78 | the bottom-up walk keeps the kind of every value and the length of arrays, and leaves primitives unchanged; `ReviveNormalizes` and `ReviveIdempotent` state what it achieves |
| KeyNormalizer.ReviverMeaning | handler.ts:60-68 | after the reviver, every key holds the value `Expected` gives: a removed upper-case key is gone, a key that received a moved value holds the last such value, every other key keeps its value; keys stay distinct |
| KeyNormalizer.ReviverMovesValue | handler.ts:61-67 | an upper-case key is deleted, and its value appears under `id` (for `ID`) or under the key with its first letter lower-cased, overwriting any existing value there; this holds for every upper-case key except `ID` and `Id` in an object that holds both |
| KeyNormalizer.ReviverIdAndId | handler.ts:62-67 | with both `ID` and `Id` present, `id` ends up holding the value of the one later in property order |
| KeyNormalizer.ReviverKeepsOtherKeys | handler.ts:61 | a key not starting with `A`–`Z`, onto which no upper-case key is moved, keeps its value |
| KeyNormalizer.ReviverLeavesNoUpperKey | handler.ts:59-71 | no own key of the result starts with `A`–`Z` |
| KeyNormalizer.ReviverIdempotent | handler.ts:59-71 | applying the reviver to its own result changes nothing; non-objects pass through |
| KeyNormalizer.ReviveNormalizes | handler.ts:78 | after `JSON.parse(b, normalizeKeys)`, no key anywhere in the tree starts with `A`–`Z` |
| KeyNormalizer.ReviveFixesNormalized | handler.ts:78 | a tree that has no upper-case key comes out of parsing unchanged |
| KeyNormalizer.ReviveIdempotent | handler.ts:88 | reviving an already revived tree changes nothing |
| KeyNormalizer.ReviveMembers | handler.ts:78 | reviving the property values keeps the keys and their order |
| Json.RenamedKeyCollision | handler.ts:62-66 | two different upper-case keys are renamed to the same key only when they are `ID` and `Id` |
| Json.IdOnlyFrom | handler.ts:62-66 | apart from `ID`, only `Id` is renamed to `id` |
| Json.LowerFirstInjective | handler.ts:65 | away from `ID`, lower-casing the first character is one-to-one |
| Json.RenamedKey | handler.ts:62-66 | the new key does not start with `A`–`Z` and has the old key's length |
| Json.Get | handler.ts:63 | `obj[k]` is present exactly when some property has key `k`, and then it is that property's value |
| Json.Set | handler.ts:63-65 | after `obj[k] = v`, `k` reads `v` and every other key reads as before; keys stay distinct |
| Json.SetAppendsNewKey | handler.ts:63-65 | writing a key the object lacks appends the property after all others |
| Json.SetKeepsKeys | handler.ts:63-65 | writing an existing key leaves every property, that key included, in its place |
| Json.Remove | handler.ts:67 | after `delete obj[k]`, `k` is absent and every other key reads as before |
| Records.FindTeam | handler.ts:199-201 | `undefined` exactly when no team has the id; otherwise a team with that id that comes before every other team with it (same in handler.js:177-179) |
| Records.FindTeamUnique | handler.ts:200 | when ids are unique, the team with the stub's id is found |
| Records.FindTeamIgnoresLeague | handler.ts:200 | a stub whose id occurs in an earlier league resolves to that earlier league's team |
| Records.ResolveRef | handler.ts:92-93 | an undefined field stays undefined (allowed only with an empty team list); otherwise the reference becomes undefined exactly when no team has the stub's id; a resolved team is an element of the list, has that id, and comes before every other team with that id; no stub remains |
| Records.ConvertPosition | handler.js:79-88 | on a non-empty hit for `league + "-" + position` the mapped name is returned, and on a miss the raw code; the position changes only on a hit |
| Records.TagTeam | handler.ts:80-81 | the team taken from a standings entry has the league set and every other field of `entry.team` kept |
| Records.ShapeGame | handler.ts:90-94 | a shaped game has the league set and both team fields replaced by `findTeam` of the old references; no other field changes |
| Records.ShapePlayer | handler.js:71-77 | a shaped entry has the fetching league, the team `findTeam` gives for the stub, `gamesPlayed` from `stats.gamesPlayed["#text"]` and no `stats`; its position is translated through `league + "-" + code` using the new league tag in handler.js and kept in handler.ts; no other player field changes |
| Records.LeagueTeams | handler.ts:80-81 | keeps the list's length; each team is the entry's `team` with the league set and every other field kept |
| Records.LeagueGames | handler.ts:89-94 | shaping keeps the list's length; each game is tagged with the league, its two team fields become `findTeam` of the old stubs, and no other field changes |
| Records.LeaguePlayers | handler.ts:102-108 | shaping keeps the list's length and order; each entry is tagged with the league, its team becomes `findTeam` of the old stub, `gamesPlayed` comes from the old stats, `stats` is gone, the position is translated in handler.js (handler.js:70-77) and kept in handler.ts, and no other player field changes |
| Shaping.TagTeams | handler.ts:81 | each array slot becomes its old team with `league` set, and nothing else changes |
| Shaping.TagGames | handler.ts:90 | each array slot becomes its old game with `league` set |
| Shaping.ResolveGames | handler.ts:91-94 | each game's `awayTeam` and `homeTeam` become `findTeam` of the old stubs; the other fields are unchanged |
| Shaping.TagPlayers | handler.ts:103 | each entry's `player.league` is set, and nothing else changes |
| Shaping.HoistPlayers | handler.ts:104-108 | each entry's team is resolved, `gamesPlayed` is hoisted from the old stats, and `stats` is deleted |
| Shaping.TranslatePositions | handler.js:77 | each entry's `player.position` becomes `convertPosition` of the player |
| Shaping.FetchTeams | handler.ts:80-81 | the fetched teams equal `LeagueTeams`, the entries' teams tagged with the league (same passes in handler.js:50-51) |
| Shaping.FetchGames | handler.ts:89-94 | running the two in-place passes gives the value-level `LeagueGames` (same passes in handler.js:58-63) |
| Shaping.FetchPlayers | handler.js:70-77 | running the tag, resolve-and-hoist and (handler.js only) position passes gives `LeaguePlayers` of the revision; handler.ts stops after the hoist (handler.ts:102-108) |
| Rgb.Split | handler.ts:115 | `split(" ")` gives at least one part and no part holds the separator; `JoinSplit` and `SplitJoin` state that it inverts `join` |
| Rgb.ParseRgb | handler.ts:115 | the channels parsed from `rgb[0]` are each below 256; `ParseRgbRoundTrip` states that they are the ones written in the text |
| Rgb.JoinSplit | handler.ts:115 | joining the parts of `split(" ")` again gives back the text |
| Rgb.SplitJoin | handler.ts:115 | splitting the join of separator-free parts gives back the parts |
| Rgb.DecimalRoundTrip | handler.ts:115 | `parseInt` of a number's decimal digits gives the number |
| Rgb.ParseRgbRoundTrip | handler.ts:115 | the `"r g b"` text of three channels below 256 parses back to those channels |
| Rgb.RgbHex | handler.ts:115 | the hex encoding of three channels is six lower-case hex digits |
| Rgb.RgbHexRoundTrip | handler.ts:115 | decoding the six hex digits gives back the three channels, red first |
| Colours.NormalizeName | handler.ts:195-197 | the result is never longer than the name, and empty only for the empty name; its full meaning is stated by `NormalizeNameShape`, `NormalizedUnique` and `NormalizeNameIdempotent` |
| Colours.NormalizeNameShape | handler.ts:195-197 | the result keeps every word character, in order and with its case, and keeps the positions of the non-word runs; it has single spaces only between word characters |
| Colours.NormalizedUnique | handler.ts:196 | a normalised name is determined by its word characters and its gap positions |
| Colours.NamesMatch | handler.ts:188 | two names normalise equal exactly when they have the same word characters, case included, and non-word runs at the same places |
| Colours.NormalizeNameFixpoint | handler.ts:196 | a name is left unchanged exactly when it already has the normalised shape |
| Colours.NormalizeNameIdempotent | handler.js:174-176 | normalising twice is normalising once |
| Colours.ExtractHex | handler.ts:111-120 | when `hex` is present, the result is `hex[0]` (absent for an empty list), even if `rgb` is present too; otherwise, when `rgb` is present, six hex digits that decode to the parsed `rgb[0]` channels; otherwise `null` (same cases in handler.js:89-100) |
| Colours.ExtractHexOfRgbText | handler.ts:114-115 | an entry with only `"r g b"` text yields the hex encoding of those channels |
| Colours.TeamName | handler.ts:187 | the name matched against colour entries is the city, one space, then the team name |
| Colours.FindColour | handler.ts:188 | finds the first colour entry whose normalised name equals the team's, or none when no entry matches |
| Colours.AddColoursToTeam | handler.ts:186-193 | only `colour` can change; with no matching entry the team is returned unchanged; otherwise `colour` is `extractHex` of the first matching entry (same in handler.js:166-173) |
| Colours.AddColoursToTeams | handler.ts:182-184 | keeps the length and the order; each team becomes `addColoursToTeam` of the same team; no field other than `colour` changes |
| Queries.Filter | handler.ts:284 | keeps exactly the elements that pass the test, and is never longer than its input |
| Queries.FilterAppend | handler.ts:284 | filtering distributes over concatenation, so relative order is preserved |
| Queries.FilterIdempotent | handler.ts:284 | filtering twice with the same test is filtering once |
| Queries.RequestedTeam | handler.ts:224-246 | a team is requested exactly when the query parameters exist and `team` is non-empty |
| Queries.UnguardedFilter | handler.ts:261 | fails exactly when some player has no team; otherwise equals the filter on `team.id` |
| Queries.PlayersQuery | handler.ts:223-263 | gives `[]` without a requested team; handler.ts fails exactly when a player has no team; handler.js (198-235) never fails; a result holds exactly the players whose defined `team.id` is the parameter |
| Queries.GuardedFilter | handler.js:233 | keeps exactly the players whose defined team has the parameter's id |
| Queries.PlayersQueryRevisionsAgree | handler.js:233 | when every player has a team, both revisions answer the same |
| Queries.UnguardedFilterFailsOnMissingTeam | handler.ts:261 | one player without a team makes handler.ts's filter fail, while handler.js returns the requested team's player |
| Queries.GamesOn | handler.ts:284 | keeps exactly the games whose `date` equals the day string (same filter at handler.js:255) |
| Queries.GamesOnAppend | handler.js:255 | today's games of two concatenated lists are today's games of each list, in order |
| Pipeline.Store.Put | handler.ts:145-150 | `putObject` replaces the object under the key and leaves every other key as it was |
| Pipeline.Store.Get | handler.ts:131-138 | `getObject` returns the stored document, or fails when the key is absent |
| Pipeline.MergedTeams | handler.ts:123-129 | every merged team carries one of the merged leagues |
| Pipeline.MergedTeamsOrder | handler.js:102-109 | the merged teams are nhl, then nba, then nfl, and handler.js appends mlb after those three (handler.ts:123-129 has the first three) |
| Pipeline.MergedGames | handler.ts:152-158 | every merged game carries one of the leagues, has no stub left, and any resolved team is an element of the coloured teams list |
| Pipeline.MergedGamesAppend | handler.js:132-139 | merging one more league appends that league's shaped games at the end |
| Pipeline.MergedPlayersAppend | handler.ts:165-171 | merging one more league appends that league's shaped players at the end, so the merged list runs league by league in the order of the leagues list |
| Pipeline.MergedPlayers | handler.ts:165-171 | every merged player carries one of the leagues, has `gamesPlayed` set and no `stats`, and has no stub; any resolved team is an element of the teams list |
| Pipeline.ColouredTeams | handler.ts:139-144 | the teams promise succeeds exactly when every standings feed and the colour table are present and every matched entry can be converted; it then gives `addColoursToTeams` of the merged teams |
| Pipeline.Persisted | handler.ts:145-177 | after a run, the teams document is always replaced, games and players documents are replaced only when their legs succeed, and nothing else changes |
| Pipeline.FetchAllTeams | handler.ts:123-129 | succeeds exactly when every league's standings are present, and then gives `MergedTeams` |
| Pipeline.FetchAllGames | handler.ts:152-158 | succeeds exactly when every league's schedule is usable, and then gives `MergedGames` |
| Pipeline.FetchAllPlayers | handler.ts:165-171 | succeeds exactly when every league's stats are usable, and then gives `MergedPlayers` |
| Pipeline.InitData | handler.ts:122-180 | without the coloured teams the store is untouched; otherwise the store becomes `Persisted` with the merged games and players of each leg that succeeds; the teams are settled on only when both legs succeed (handler.js:101-162 is the same with four leagues) |
| Pipeline.GamesUsableWithoutTeams | handler.ts:199-201 | with an empty team list, every present schedule can be shaped, because `findTeam` then never reads a team field |
| Pipeline.GamesOnMerged | handler.ts:284 | the games endpoint over the merged schedule answers league by league, in merge order |
| Pipeline.ServeTeams | handler.ts:205-221 | the teams endpoint returns the stored teams document verbatim, and fails when there is none |
| Pipeline.ServePlayers | handler.ts:223-263 | returns `[]` without reading the store when no team is requested; otherwise gives `PlayersQuery` of the stored players document, and fails when there is none (handler.js:198-235 with the guarded filter) |
| Pipeline.ServeGames | handler.ts:265-286 | returns `GamesOn` of the stored games document, so exactly the games dated on the given day in stored order; fails when there is no games document |

## Left out

- HTTP fetching (`request.getAsync`, `getRequestOptions`, basic auth, the
  URLs from the environment) is left out. Each league's feed is an input,
  already parsed. A league missing from a feed map stands for a request or
  parse that fails.
- `JSON.parse` and `JSON.stringify` as text transformations are left out.
  The reviver's effect is modelled on a parsed tree. Numbers are integers,
  because the core never computes with them.
- The conversion from the parsed tree to the record types is left out,
  along with the nested paths such as
  `overallteamstandings.teamstandingsentry`. The record modules start from
  the records. Record fields the core never reads or writes are not
  modelled.
- The bucket is a map from key to document. Bucket names, content types and
  failures of a `putObject` are left out.
- The Bluebird `Promise.all`, `tap` and `spread` concurrency is modelled as
  a sequential composition with the same outcome. The fetches inside a leg,
  and the colour read, run one after another in the model.
- A failed promise in a read endpoint is modelled as `None`. The handlers
  never call the callback in that case.
- `Expires` headers, the Pacific-time "today" computation (`Date.now`,
  `setHours`, `dateformat`), status codes and the response envelope are
  left out. The day string is a parameter.
- Colours.ExtractHex: the `rgb` branch requires `rgb[0]` to be three
  decimal integers below 256 separated by single spaces. `parseInt`'s
  leniency (signs, leading spaces, trailing garbage, NaN) and `rgb-hex`'s
  other input forms and errors are not modelled.
- Pipeline.ColouredTeams: a matched colour entry outside that `rgb` form
  makes the teams leg fail, standing for the library's error.
- The contents of the `./positions` module are not part of this model. The
  table is a parameter.
- `console.log` diagnostics are left out.
- Colours.AddColoursToTeam: the source assigns `team.colour` on the shared
  team object. The model returns the updated team as a value. Nothing else
  holds the team objects at that point, so no aliasing is lost.
- Pipeline.InitData: some malformed upstream payloads make the source
  throw and are not modelled: a standings entry without `team`, a team list
  that is not an array, a schedule or stats payload whose list is not an
  array (handler.ts:89-90), a stats entry without `player` (handler.ts:103),
  and stats without `gamesPlayed` (handler.ts:106).
- Pipeline.InitData: the source throws part-way through a league's
  passes. This happens on a player without `stats`, and, when the team list
  is not empty, on a game or player without a team field. The model checks
  for these cases before the passes run, and the shaping methods require
  that they are absent. Either way the league's leg fails and its document
  is not written; the half-shaped records the source leaves behind are
  discarded and not modelled.

## Findings

| source | as written | input that shows it | evidently intended | confidence | as-written member | corrected member |
|---|---|---|---|---|---|---|
| handler.ts:261 | `players.filter(player => player.team.id === team1)` reads `.id` of an undefined `team`. A player whose team stub matched no standings entry is stored without `team`, and then every request for a team's players fails. | stored players `[orphan, member]`, where `orphan` has no team and `member`'s team id is the requested one | skip players without a team and return `[member]`, as the guard at handler.js:233 does | high (the later revision adds exactly this guard); not executed | Queries.UnguardedFilterFailsOnMissingTeam | Queries.GuardedFilter |
