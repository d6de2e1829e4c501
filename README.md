# MysAvatar: syncing a player's avatars from the miHoYo community service

This project models `models/player/MysAvatar.js` of miao-plugin. That file keeps a
player's cached avatar records in step with the community service ("mys"). It has three parts:

- **The staleness gate.** `needRefresh` decides, from a stored timestamp, a force
  level and a table of minutes per level, whether a category of data must be
  fetched again.
- **The two syncs.**
  - `refreshMysDetail` and `setMysCharData` merge per-avatar detail: level,
    constellations, fetter, element, costume, weapon and artifacts. When more
    than eight distinct ids arrive, cached avatars that are neither listed nor
    profile-pinned are evicted.
  - `refreshMysInfo` and `setMysInfo` merge the account summary: avatar stubs,
    the stats table, the exploration table and the home level.
- **Talent refresh.**
  - `getNeedRefreshIds` picks the avatars whose talent data is stale.
  - `refreshTalent` runs `refreshAvatarTalent` over them, behind a breaker that
    stops remote calls once more than five refreshes have failed.
  - `refreshAvatarTalent` sorts the skill list by id, fills the a/e/q slots and
    hands them to the character's resolver.

The counting part of `getInfo` (avatar count, 5-star count, gold count) is modelled too.

Layout, one module per file:

| module | file | what it holds |
|---|---|---|
| `Wrappers` | wrappers.dfy | `Option` |
| `Tables` | tables.dfy | `Tabulate`, a keyed table built by scanning a list where the last write wins; the ascending order of integer object keys |
| `Strings` | strings.dfy | `toLowerCase`, `includes`, and `replace` with a string pattern |
| `Staleness` | staleness.dfy | `needRefresh` and its properties |
| `Records` | records.dfy | avatars, patches, `setAvatar` as an upsert, `setTalent` |
| `Players` | players.dfy | the `Player` class: fields, `setBasicData`, `setAvatar`, `save` |
| `DetailMerge` | detail.dfy | what `setMysCharData` computes, as functions, with lemmas |
| `SummaryMerge` | summary.dfy | what `setMysInfo` computes, as functions, with lemmas |
| `Talents` | talents.dfy | the slot heuristic, the sort, one talent refresh |
| `TalentRefresh` | refresh.dfy | stale-id selection and the breaker run, as functions, with lemmas |
| `AvatarCounts` | counting.dfy | the counters of `getInfo` |
| `MysAvatar` | mysavatar.dfy | the operations as methods on a `Player`, each proved against the functions above |

Modelling choices:

- **Player and avatars.** The player is a class whose methods update its fields
  in place. An avatar is a value stored in the player's `avatars` map.
- **Timestamps.** A stored timestamp is `Unset`, `At(ms)` or `NotANumber`.
  `At(0)` is falsy, as in JavaScript.
- **The clock and remote answers.** The clock is a parameter `now` in epoch
  milliseconds. Remote answers are parameters:
  - `getCharacter` and `getIndex` each give one optional payload;
  - `getDetail` gives a list of answers, and the k-th remote call receives the k-th answer.
- **Foreign code.** `lodash.camelCase` is a function parameter `camel`. The
  character's `getAvatarTalent` is a `Resolver` parameter.
- **Sync outcomes.** `SyncOutcome` records how a sync call ended:
  - `NoSession`, `Fresh` and `NoData` are the three `return false` exits;
  - `Merged` is the `undefined` the function resolves to after merging;
  - `Threw` is the TypeError from reading `role.level` when the role is missing.

Behaviours of the code worth noting, which the model follows:

- `refreshMysDetail` and `refreshMysInfo` resolve to `undefined`, not `true`,
  after merging (`RefreshMysDetail`, `RefreshMysInfo`).
- `setMysCharData` does not check the role. A payload with avatars but no role
  throws before anything changes (`SetMysCharData`, outcome `Threw`).
- **Slot a.** The basic-attack slot is overwritten by every matching skill, so it
  holds the LAST matching skill, not the first (`Talents.SlotAIsLastBasic`).
- **Slots e and q.** They are tested with `!talent.e` and `!talent.q`, so a slot
  holding level 0 counts as empty and can be taken again (`Talents.Unfilled`).
  `Talents.SlotsEAndQ` states the first-and-second reading only for non-zero levels.
- **A threshold of 0.** It means "stale once any time has passed", not "always
  stale": an elapsed time of exactly 0 is fresh (`Staleness.ZeroThresholdMeansAnyAge`).
- **`getInfo` with no `avatar` stat.** `Math.max(undefined, n)` is NaN, so the
  `avatar` stat is NaN, shown as `None` (`AvatarCounts.AvatarStat`).

## Model

| member | source | states |
|---|---|---|
| Staleness.NeedRefresh | models/player/MysAvatar.js:8-21 | a falsy time, force level 2 or a non-numeric time is stale; a time in the future is stale |
| Staleness.NeedRefreshInMillis | models/player/MysAvatar.js:15-20 | for a usable past time, stale exactly when the elapsed milliseconds exceed the level's minutes times 60000 |
| Staleness.ZeroThresholdMeansAnyAge | models/player/MysAvatar.js:19-20 | a level whose entry is 0 is stale exactly when some time has passed |
| Staleness.MissingLevelIsHourly | models/player/MysAvatar.js:19 | a level the table lacks is gated at one hour |
| Staleness.TrueIsLevelZero | models/player/MysAvatar.js:12-14 | `force === true` gives the same answer as level 0 |
| Staleness.StaysStale | models/player/MysAvatar.js:15-20 | once stale, a past time stays stale as the clock advances |
| Staleness.HourlyExamples | models/player/MysAvatar.js:19-20 | with {0: 60} at level 0, 1800 s old is fresh and 3700 s old is stale |
| Tables.TabulateKeys | models/player/MysAvatar.js:87-96 | a key is in a scanned table exactly when some element writes it |
| Tables.TabulateLast | models/player/MysAvatar.js:87-96 | a key's value comes from the last element that writes it |
| Tables.SortedKeys | models/player/MysAvatar.js:163-165 | the keys in ascending order, each exactly once: the order `lodash.keys` gives integer keys |
| Strings.ToLower | models/player/MysAvatar.js:79 | same length; each upper-case ASCII letter becomes its lower-case letter; every other character is kept |
| Strings.ReplaceFirst | models/player/MysAvatar.js:131 | unchanged without an occurrence; one pattern's length shorter with one; a leading occurrence is cut |
| Strings.FirstIndex | models/player/MysAvatar.js:131 | the position of an occurrence with none before it |
| Strings.ReplaceFirstCutsFirst | models/player/MysAvatar.js:131 | the result is the input with exactly its first occurrence removed |
| Records.Upsert | models/player/MysAvatar.js:98 | adds only the patch's id and changes no other avatar (the field-wise `Merge`); copies level, constellations, fetter and element; a non-zero costume replaces the old one and 0 keeps it; keeps weapon and artifacts when the patch has none; keeps the profile flag, talent and character; a new avatar starts unpinned, without talent or stamp, with its catalog character; keeps the map's invariant |
| Records.PatchIds | models/player/MysAvatar.js:99 | exactly the ids of the patches |
| Records.UpsertAllFrame | models/player/MysAvatar.js:77-100 | upserting a list in order (`UpsertAll`) adds exactly its ids, drops none, leaves unnamed avatars alone, and keeps every avatar's profile flag |
| Records.UpsertAllKeepsTalent | models/player/MysAvatar.js:77-128 | patches carry no talent data: every cached avatar keeps its talent, talent stamp and character through any list of upserts |
| Records.UpsertAllValid | models/player/MysAvatar.js:77-100 | upserting valid patches keeps keys equal to ids and artifacts in slots 1..5 |
| Records.UpsertAllLastWins | models/player/MysAvatar.js:77-100 | an id's avatar carries the level, constellations, fetter, element, weapon and artifacts of its last patch, and its costume when that patch has one |
| Records.SetTalent | models/player/MysAvatar.js:207 | stores the talent and stamps it with now, and changes nothing else |
| Players.Player.SetBasicData | models/player/MysAvatar.js:72-75 | level and name become the role's |
| Players.Player.SetAvatar | models/player/MysAvatar.js:98 | the avatar map becomes its upsert with the patch, and the map's invariant holds |
| Players.Player.Save | models/player/MysAvatar.js:110 | one more save |
| DetailMerge.ArtisInSlots | models/player/MysAvatar.js:87-96 | an artifact map only ever uses slots 1..5 |
| DetailMerge.ArtisFromReliquaries | models/player/MysAvatar.js:88-96 | each slot holds the name and level of the last named reliquary with that position |
| DetailMerge.SlottedIsKept | models/player/MysAvatar.js:90-95 | every named reliquary with a known position fills its slot |
| DetailMerge.DetailPatch | models/player/MysAvatar.js:78-97 | a remote avatar's patch has its id, level, constellations and fetter, the lower-cased element, the first costume's id (0, which keeps the old costume, when there is none), its weapon and the artifact map of its reliquaries |
| DetailMerge.RosterIds | models/player/MysAvatar.js:98-99 | the ids upserted, which are exactly the ids of the remote avatars |
| DetailMerge.DetailValid | models/player/MysAvatar.js:77-108 | the merge keeps keys equal to ids and artifacts in slots 1..5 |
| DetailMerge.SmallRosterEvictsNothing | models/player/MysAvatar.js:102 | with at most eight distinct ids, the keys are the old keys plus the incoming ids |
| DetailMerge.FullRosterEvicts | models/player/MysAvatar.js:102-108 | with more than eight distinct ids, an avatar stays in the merged map (`DetailAvatars`, through `Evict`) exactly when it is incoming or was profile-pinned |
| DetailMerge.UnlistedKeepsValue | models/player/MysAvatar.js:77-108 | an avatar the payload does not name is either evicted or kept exactly as it was |
| DetailMerge.IncomingNeverEvicted | models/player/MysAvatar.js:102-107 | every incoming id is present after the merge |
| DetailMerge.IncomingTakesLastEntry | models/player/MysAvatar.js:77-100 | an incoming avatar carries the level, constellations, fetter, lower-cased element, weapon and artifacts of its last entry, and that entry's first costume when it has one |
| SummaryMerge.StubPatch | models/player/MysAvatar.js:125-127 | a stub's patch has its id, level, constellations and fetter and the lower-cased element, and carries no weapon, artifacts or costume |
| SummaryMerge.StubsKeepGear | models/player/MysAvatar.js:124-128 | stub upserts keep every cached avatar's weapon and artifacts |
| SummaryMerge.StatsOrigin | models/player/MysAvatar.js:130-135 | every stat stored by `StatsOf` comes from the last kept pair whose key, with its first `_number` removed and then camel-cased, is that key |
| SummaryMerge.KeptStatStored | models/player/MysAvatar.js:130-135 | every pair whose stripped key is not `spiral_abyss` is stored |
| SummaryMerge.AbyssNotStored | models/player/MysAvatar.js:131-133 | when no kept key collides with it, the abyss counter's key is absent |
| SummaryMerge.ChasmComesFromMines | models/player/MysAvatar.js:138-144 | in `ExplorationOf`, the sub-region name is never a key; the chasm key exists exactly when the sub-region is listed and holds its last percentage |
| SummaryMerge.OtherRegionsDirect | models/player/MysAvatar.js:138-144 | any other region is stored under its own name exactly when listed, with its last percentage |
| Talents.SlotAIsLastBasic | models/player/MysAvatar.js:232-237 | after the slot loop (`SlotFold` of `SlotStep`), slot a is unset exactly when no skill is a normal attack, and otherwise holds the level of the last one |
| Talents.QualifiedLevels | models/player/MysAvatar.js:238-245 | with non-zero skill levels, every qualifying level is non-zero |
| Talents.SlotsEAndQ | models/player/MysAvatar.js:238-245 | with non-zero levels, e and q are the first and second qualifying skills (maximum level at least 10, not a normal attack) |
| Talents.InsertById | models/player/MysAvatar.js:231 | inserting grows the list by one |
| Talents.InsertKeepsSorted | models/player/MysAvatar.js:231 | inserting into an id-sorted list keeps it sorted |
| Talents.InsertAddsOne | models/player/MysAvatar.js:231 | inserting adds exactly the new skill |
| Talents.SortById | models/player/MysAvatar.js:231 | sorting keeps the length |
| Talents.SortByIdSorted | models/player/MysAvatar.js:231 | the sorted skill list is in ascending id order |
| Talents.SortByIdPermutes | models/player/MysAvatar.js:231 | the sorted skill list is a permutation of the input |
| Talents.RawTalentBasic | models/player/MysAvatar.js:230-246 | the slots handed to the resolver (`RawTalentOf`) have a filled exactly when the response lists a normal attack, and then with the level of the normal attack with the highest id |
| Talents.TalentOutcome | models/player/MysAvatar.js:222-251 | the remote call happens exactly when the character is known; without one, failure and no change; with one, the avatar stores what the resolver makes of the id-sorted slots, stamped now, and success means that result is a talent; id, artifacts and character are kept |
| TalentRefresh.Candidates | models/player/MysAvatar.js:163-167 | a missing id or id 0 gives every cached id once; a single id gives itself; a list is taken as is |
| TalentRefresh.StaleIdsKeepOrder | models/player/MysAvatar.js:168-178 | the selected ids are a subsequence of the candidates |
| TalentRefresh.StaleIdsExactly | models/player/MysAvatar.js:168-178 | an id is selected by the candidate loop (`StaleIds`) exactly when it is a candidate, cached and stale under its talent thresholds |
| TalentRefresh.TalentLevelZero | models/player/MysAvatar.js:173-174 | at level 0 a talent goes stale after 48 hours when one is stored and after 3 hours when none is |
| TalentRefresh.TalentTask | models/player/MysAvatar.js:202-214 | one pool task keeps the keys, touches only its own avatar, makes at most one remote call and never lowers the failure count; once tripped it makes no call, counts nothing and gives its avatar no talent, stamped now |
| TalentRefresh.TalentRun | models/player/MysAvatar.js:199-215 | the tasks run in list order keep the cached ids |
| TalentRefresh.FailuresBounded | models/player/MysAvatar.js:199-214 | the run never records more than six failures, and so never more than six failing remote calls |
| TalentRefresh.TrippedMakesNoCalls | models/player/MysAvatar.js:206-209 | a run that starts tripped makes no remote call and records no failure |
| TalentRefresh.RunAppend | models/player/MysAvatar.js:201-214 | running two lists one after the other is running their concatenation |
| TalentRefresh.TrippedPlaceholder | models/player/MysAvatar.js:206-208 | a run that starts tripped leaves every listed cached avatar with no talent, stamped now |
| TalentRefresh.BreakerStopsCalls | models/player/MysAvatar.js:201-214 | once a prefix of the list has recorded more than five failures, the rest makes no remote call and every avatar it lists ends with no talent, stamped now |
| TalentRefresh.CallsBounded | models/player/MysAvatar.js:201-214 | at most one remote call per listed id |
| TalentRefresh.RunFrame | models/player/MysAvatar.js:201-214 | the run keeps the invariant, leaves unlisted avatars alone, and keeps every character |
| TalentRefresh.RunStampsListed | models/player/MysAvatar.js:201-214 | every listed avatar with a known character gets its talent stamped now |
| AvatarCounts.AvatarListEnumerates | models/player/MysAvatar.js:291 | the visiting order (`AvatarList`) lists every cached avatar exactly once, in ascending id order |
| AvatarCounts.FiveStarsAmongAll | models/player/MysAvatar.js:288-294 | the 5-star count never exceeds the avatar count |
| AvatarCounts.CountsAdd | models/player/MysAvatar.js:291-303 | both counters (`FiveStarCount`, and `GoldCount` summing each avatar's `GoldShare`) add up over any split of the list |
| AvatarCounts.AvatarStat | models/player/MysAvatar.js:304 | a missing stat gives NaN; otherwise the result is the larger of the stored value and the count |
| MysAvatar.BuildArtis | models/player/MysAvatar.js:87-97 | the loop builds the artifact map of the reliquaries |
| MysAvatar.MergeRoster | models/player/MysAvatar.js:76-100 | the loop upserts every remote avatar's patch in order and collects exactly their ids |
| MysAvatar.EvictUnlisted | models/player/MysAvatar.js:102-108 | the loop removes exactly the cached avatars that are neither listed nor profile-pinned |
| MysAvatar.SetMysCharData | models/player/MysAvatar.js:70-111 | a missing role changes nothing; otherwise level and name, the merged and evicted avatars, the detail stamp and one save |
| MysAvatar.RefreshMysDetail | models/player/MysAvatar.js:29-42 | each exit and its condition: no session, fresh, no avatar list, missing role; the player is unchanged unless merged, and then holds the role's level and name, the merged detail, the detail stamp and one more save |
| MysAvatar.BuildStats | models/player/MysAvatar.js:129-135 | the loop builds the stats table of the pairs |
| MysAvatar.BuildExploration | models/player/MysAvatar.js:137-144 | the loop builds the exploration table of the entries |
| MysAvatar.MergeStubs | models/player/MysAvatar.js:124-128 | the loop upserts every stub in order |
| MysAvatar.SetMysInfo | models/player/MysAvatar.js:113-152 | the role is applied only when present; the stubs are upserted; the summary (`SummaryInfo`: the first home's level from `HomeLevel`, the stats and exploration tables), its stamp and one save |
| MysAvatar.RefreshMysInfo | models/player/MysAvatar.js:50-63 | each exit and its condition; never throws; unchanged unless merged, and then holds the role's level and name, the upserted stubs, the merged summary, its stamp and one more save |
| MysAvatar.GetNeedRefreshIds | models/player/MysAvatar.js:161-179 | the selected ids, in candidate order, are exactly the cached candidates that are stale |
| MysAvatar.RefreshAvatarTalent | models/player/MysAvatar.js:220-252 | without a self-owned session, failure and no change; otherwise the outcome of one talent refresh |
| MysAvatar.TalentTaskBody | models/player/MysAvatar.js:202-213 | one pool task: skip an unknown id, stamp the placeholder once tripped, or refresh and count |
| MysAvatar.RunPool | models/player/MysAvatar.js:199-215 | the pool leaves the avatars and call count of the breaker run, and keeps the invariant |
| MysAvatar.RefreshTalent | models/player/MysAvatar.js:188-218 | without a self-owned session, false and no change; otherwise the breaker run over the stale ids, then exactly one save |
| MysAvatar.GetInfo | models/player/MysAvatar.js:288-306 | the `avatar` stat from the stored one (`PriorAvatarStat`), and `goldCount` and `avatar5` as the counters define them, with `avatar5` at most the avatar count |

## Left out

- The remote client (`getCharacter`, `getIndex`, `getDetail`) and the clock: they are inputs. `now` is one value for a whole call.
- `Data.asyncPool` with a concurrency of 5: tasks run one after the other in list order. The concurrent overshoot of the breaker, up to four calls already in flight when it trips, is not modelled.
- The progress message `e.reply` for more than eight stale ids: it is user-facing messaging.
- `getDate`, the `chestMap` and the `activeDay` text of `getInfo`: formatting, and `activeDay` uses floating-point division by 30.41.
- `getInfo` writes the counters back into the `stats` object of `player.info`, through aliasing. `MysAvatar.GetInfo` returns them instead.
- The internals of `Player` and `AvatarData` are not part of this model:
  - `setAvatar` is a field-wise upsert;
  - `isProfile` is a stored flag;
  - `hasTalent` means a talent is stored;
  - `avatar.star` is the character's rarity.
- `lodash.camelCase` and the character's `getAvatarTalent` are foreign code, taken as parameters.
- `Strings.ToLower`: only ASCII letters are lowered, not the full Unicode mapping.
- `Staleness.NeedRefresh`: only the integer levels and `true` are modelled as `force`. Other values such as `false` are not, and thresholds are whole minutes.
- Avatar ids are assumed non-negative. JavaScript enumerates integer keys in ascending order only for array-index keys, so `Tables.SortedKeys` would misorder a negative id.
- Exploration percentages and stat values are integers, not JavaScript numbers.
- Remote avatars carry only the weapon fields the projection reads. A `null` entry in a reliquary list is not modelled. A missing `element`, which would throw in `toLowerCase`, is not modelled either.
- `Talents.SlotsEAndQ`: proved only for skill lists whose levels are all non-zero, because a level of 0 leaves the slot open again.
- `Talents.SortById`: stability among equal ids (`lodash.orderBy` is stable) is not stated, only order and permutation.
- `SummaryMerge.AbyssNotStored`: needs that no other kept key camel-cases to the same key as `spiral_abyss`, because `camelCase` is a parameter.
