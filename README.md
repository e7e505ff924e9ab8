# leptos-broken-gg core, modelled in Dafny

This project models the sequential core of the leptos-broken-gg League of Legends
statistics site and proves properties of that model. The parts modelled are:

- **Live-game cache.** `LiveGames` models `src/backend/live_game_cache.rs`.
  - It holds two indexes: `game_cache` (match id ↦ snapshot and capture instant) and `puuid_to_game` (player ↦ match id).
  - The lookup is meant to heal itself, and an explicit clock decides expiry. As written it deadlocks on the two paths that should heal (see Findings). `GetAsWritten` models the lookup as written. `Get` models it as intended, and the lookup lemmas and the class describe `Get`.
  - `set_game_data` overwrites.
  - One round of the cleanup task is one sweep.
  - Pure specification functions (`Get`, `Set`, `Swept`) carry the lemmas. The class `LiveGameCache` has two `map` fields, and each of its methods, loops included, is proved to act exactly as its function does.
- **Summoner table.** `Summoners` models `src/models/db/summoner.rs`.
  - It covers the seven bind columns and both `UNNEST` batch statements: `bulk_update`, which matches by puuid with no guard, and `bulk_insert`, which upserts with `ON CONFLICT … WHERE updated_at <` and `RETURNING id`.
  - The `VARCHAR(n)` casts truncate, and the `INT[]` cast of `i64` levels fails out of range.
  - The positional zip of returned ids back to puuids is modelled as written.
  - Also modelled: the two id lookups, `fetch_existing_summoners`, the single-row update and insert, and the find-then-update-or-insert dispatch.
  - The table is a sequence of rows with a unique id and a unique puuid (`Valid`). The class `SummonerTable` holds it as fields.
- **Participant insert.** `Participants` models `bulk_lol_match_participants.rs`.
  - Four `multiunzip` passes transpose N participants into 41 column arrays.
  - The arrays are bound in order to one `INSERT … SELECT * FROM UNNEST(...)` with typed placeholders (`INT[]`, `BOOL[]`, `FLOAT8[]`).
  - The statement appends rows, pads short arrays with NULL the way `UNNEST` does, and fails as a whole on a store error.
- **Slugs and URLs.** `Slugs` models the helpers in `src/lib.rs`.
  - It covers `version_to_major_minor`, both directions of the summoner slug, and the two URL builders.
  - `str::split` is a total `Split` with its inverse `Join`.
  - `urlencoding` is a codec value whose percent-encoding laws (section 2.3 of RFC 3986: `-` is unreserved and is left as is) are stated as a predicate.
- **Perk codes.** `Perks` models `src/consts/perk.rs`: the 78-variant `Perk` enum with its discriminants, `From<u16>` and `Display`.
- **Skill codec.** `Skills` models the `Skill` enum of `src/views/summoner_page/match_details.rs`: the 1..4 ↔ Q/W/E/R mapping and its one-letter `Display`.
- **Shared modules.** `Wrappers` holds `Option` and `Result`. `Ints` holds the fixed-width integer types and the wrapping `as` casts.

Notes on semantics:

- Rust's `Instant` subtraction saturates at zero, and the model's `Elapsed` does the same.
- `game_length += secs as u16` wraps, as a release build does.
- `as i32` keeps the low 32 bits.

The clock (`Instant::now()`, `Utc::now()`) is an explicit parameter. Store failures that the core only passes on (a connection error, a constraint the schema adds) are an explicit `failure` parameter.

The code departs from the intended behaviour in places. The model follows the code except for the lookup's deadlock, where it models both readings:

- **Shifted ids.** Intended: `bulk_insert` maps each puuid to the id of its own row. The code's positional zip can shift ids when the guard skips a record (see Findings). With no record skipped it is right (`ZipAlignsWhenAllReturned`).
- **Stale mappings after expiry.** Intended: after an expired `get`, no index holds the match. Even the deadlock-free lookup removes only the queried player's mapping, so other players keep pointing at the evicted match until their own lookup (`GetExpired`).
- **Sweep boundary.** Intended: the sweep removes entries strictly older than the threshold. The code evicts at `>=` (age equal to the expiry counts as expired), and so does the model.
- **Lookup deadlock.** Intended: `get_game_data` drops a mapping to a missing match and evicts an expired one. The code still holds the `DashMap` read guards taken at lines 25 and 27 when it calls `remove` at lines 36, 37 and 41. Those calls need write locks on the same shards, so the call blocks forever (see Findings).

## Model

| member | source | states |
|---|---|---|
| Skills.Discriminant | src/views/summoner_page/match_details.rs:172-177 | The declared discriminant, always in 1..4 |
| Skills.Display | src/views/summoner_page/match_details.rs:179-188 | One letter for each skill; `DisplayInjective` and `DisplayByCode` state which |
| Skills.FromU8 | src/views/summoner_page/match_details.rs:190-199 | Defined only for 1..4 (any other value panics); the skill it returns has discriminant `v` |
| Skills.FromDiscriminant | src/views/summoner_page/match_details.rs:172-177 | `from(s as u8) == s` for every skill |
| Skills.FromU8Injective | src/views/summoner_page/match_details.rs:190-199 | Distinct codes in 1..4 give distinct skills, and equal codes give equal skills |
| Skills.DisplayInjective | src/views/summoner_page/match_details.rs:179-188 | Two skills display alike exactly when they are the same skill |
| Skills.DisplayByCode | src/views/summoner_page/match_details.rs:179-199 | Code `v` displays as the one letter at position `v-1` of "QWER" (1→Q, 2→W, 3→E, 4→R) |
| Perks.Discriminant | src/consts/perk.rs:5-84 | The declared discriminant of each variant; `DiscriminantsDistinct` states it is injective |
| Perks.FromU16 | src/consts/perk.rs:86-130 | `From<u16>`; stated by `FromUnlisted`, `FromZero`, `FromListed` and `FromDiscriminant` |
| Perks.Display | src/consts/perk.rs:132-216 | `Display`; stated by `DisplayIsName` and `DisplayUnknown` |
| Perks.FromUnlisted | src/consts/perk.rs:86-130 | Every `u16` outside the 38 codes the match lists maps to `UNKNOWN` |
| Perks.FromZero | src/consts/perk.rs:6 | 0 is not a listed code and maps to `UNKNOWN` |
| Perks.FromListed | src/consts/perk.rs:89-126 | Each listed code maps to a variant other than `UNKNOWN` whose declared discriminant is that code |
| Perks.FromDiscriminant | src/consts/perk.rs:5-130 | `from(p as u16) == p` exactly for `UNKNOWN` and the 38 variants declared up to `Precision`; every variant declared after it maps to `UNKNOWN` |
| Perks.DiscriminantsDistinct | src/consts/perk.rs:5-84 | Two variants share a discriminant only when they are the same variant |
| Perks.TrimTrailingSpace | src/consts/perk.rs:132-216 | Removing a trailing space gives the string itself or the string minus exactly one final space |
| Perks.DisplayIsName | src/consts/perk.rs:132-216 | Every variant displays as a non-empty string that, with one trailing space removed, is the variant's identifier (`StatsArmor` shows "StatsArmor ") |
| Perks.DisplayUnknown | src/consts/perk.rs:135 | `UNKNOWN` displays as exactly "UNKNOWN" |
| Perks.FromMissesPressTheAttack | src/consts/perk.rs:45-130 | `PressTheAttack` is declared as 8005, yet `from(8005)` is `UNKNOWN` |
| Perks.FromU16CompleteRoundTrip | src/consts/perk.rs:5-84 | The conversion listing every declared code is a left inverse of `as u16` on every variant |
| Perks.FromU16CompleteExtends | src/consts/perk.rs:89-126 | On the 38 codes the source lists, the completed conversion agrees with the source's |
| Slugs.Split | src/lib.rs:44 | `str::split`: at least one part, no part holds the separator, and joining the parts with it gives back the input |
| Slugs.SplitUnique | src/lib.rs:44 | Any separator-free parts that join to `s` are exactly `Split(s)` |
| Slugs.SplitNoSeparator | src/lib.rs:63 | A string without the separator splits into itself alone |
| Slugs.SplitAfterFirst | src/lib.rs:63 | A separator-free first part followed by the separator splits off as the first part |
| Slugs.SplitPair | src/lib.rs:63 | Two separator-free parts around one separator split back into exactly those two parts |
| Slugs.SplitConcat | src/lib.rs:63 | Splitting `a + sep + b` gives the parts of `a` followed by the parts of `b` |
| Slugs.SplitCount | src/lib.rs:45 | The separator occurs in `s` exactly when `s` splits into two or more parts |
| Slugs.JoinAppend | src/lib.rs:44 | Joining a concatenation puts one separator between the joins of the two halves |
| Slugs.JoinCons | src/lib.rs:44 | Joining `[x] + rest` is `x`, the separator, then the join of `rest` |
| Slugs.JoinPrefix | src/lib.rs:48-50 | The first two parts with one separator between them are a prefix of the joined string |
| Slugs.VersionToMajorMinor | src/lib.rs:43-51 | Requires at least two `.` parts (fewer panics); the result splits into exactly the first two parts of the version and is a prefix of it |
| Slugs.VersionIdempotent | src/lib.rs:43-51 | The result has exactly two parts, so truncating it again changes nothing |
| Slugs.VersionWithoutDotPanics | src/lib.rs:45-47 | A version with no `.` has fewer than two parts, the case that panics |
| Slugs.SummonerToSlug | src/lib.rs:54-60 | The two encoded names joined by `-`; `SlugRoundTrip` and `SlugWithHyphenLosesTagLine` state what parsing it gives |
| Slugs.ParseSummonerSlug | src/lib.rs:62-70 | Requires every decoded part to decode (a failure panics); `SlugRoundTrip` states it inverts `SummonerToSlug` on names without `-` |
| Slugs.SlugRoundTrip | src/lib.rs:54-70 | Under the percent-encoding laws and with no `-` in either name, the slug splits into the two encoded names and parses back to `(game_name, tag_line)` |
| Slugs.SlugWithHyphenLosesTagLine | src/lib.rs:54-70 | A `-` in either name gives a slug of three or more pieces, so parsing it returns an empty tag line |
| Slugs.SummonerUrl | src/lib.rs:72-74 | The summoner page path; its segments are stated by `SummonerUrlSegments` |
| Slugs.SummonerNotFoundUrl | src/lib.rs:76-78 | The not-found path with unencoded query values; stated by `NotFoundUrlQuery` and `NotFoundUrlAmbiguous` |
| Slugs.SummonerUrlSegments | src/lib.rs:72-74 | With a platform free of `/`, the summoner URL has exactly the segments "", "platform", the platform, "summoners" and the slug |
| Slugs.NotFoundUrlQuery | src/lib.rs:76-78 | With no `?` or `&` in the values, the not-found URL splits into the path and a query whose two parameters carry the raw, unencoded names |
| Slugs.NotFoundUrlAmbiguous | src/lib.rs:76-78 | Without encoding, the names ("a&tag_line=b", "c") and ("a", "b&tag_line=c") give the same URL |
| LiveGames.Elapsed | src/backend/live_game_cache.rs:29 | `Instant` subtraction, saturating at zero: the age the lookup and the sweep compare with the expiry (used by `SetThenGetLater`, `SetThenExpire`, `GetAgreesWithSweep`) |
| LiveGames.Get | src/backend/live_game_cache.rs:24-45 | The intended lookup; its behaviour is stated by `GetUnmapped`, `GetTorn`, `GetFresh`, `GetExpired` and `GetOnlyRemoves` |
| LiveGames.GetAsWritten | src/backend/live_game_cache.rs:24-45 | The lookup as written: a value on a fresh hit, None for an unmapped player, and a deadlock on the torn and expired paths (stated by `GetAsWrittenBlocksOnRemoval`) |
| LiveGames.GetAsWrittenBlocksOnRemoval | src/backend/live_game_cache.rs:24-45 | The lookup as written deadlocks exactly when the intended lookup would remove something; otherwise both give the same value |
| LiveGames.SetThenExpiredGetDeadlocks | src/backend/live_game_cache.rs:25-54 | After `set`, a lookup as written for a listed player at or past the expiry deadlocks |
| LiveGames.Set | src/backend/live_game_cache.rs:48-54 | `set_game_data`; its effect is stated by `SetOverwrites`, `SetTwiceKeepsSecond` and `SetKeepsCoherence` |
| LiveGames.ExpiredIds | src/backend/live_game_cache.rs:64-75 | The ids the sweep collects; `CollectExpiredIds` computes exactly this set |
| LiveGames.Swept | src/backend/live_game_cache.rs:61-96 | One sweep; its effect is stated by `SweepEvicts`, `SweepRestoresInvariant` and `SetThenSweep` |
| LiveGames.Extrapolate | src/backend/live_game_cache.rs:31-32 | The hit's copy keeps every other field; while no wrap occurs, its `game_length` grows by the whole seconds of age |
| LiveGames.Assign | src/backend/live_game_cache.rs:51-53 | After the insert loop every listed player maps to the match; every other player keeps its mapping or its absence |
| LiveGames.GetUnmapped | src/backend/live_game_cache.rs:25-44 | A player without a mapping gets None, and both maps stay as they were |
| LiveGames.GetTorn | src/backend/live_game_cache.rs:39-42 | Intended lookup: a mapping to a missing match gives None and removes only that player's mapping; `game_cache` is unchanged |
| LiveGames.GetFresh | src/backend/live_game_cache.rs:29-33 | Age below the expiry gives the snapshot with `game_length` advanced by the whole seconds of age modulo 2^16, and both maps unchanged |
| LiveGames.GetExpired | src/backend/live_game_cache.rs:34-38 | Intended lookup: age at or past the expiry gives None and removes the match and the queried mapping; another player of that match still points at it, and that player's next `get` heals it as a torn mapping |
| LiveGames.GetOnlyRemoves | src/backend/live_game_cache.rs:24-45 | `get` only deletes entries and never alters one; it returns a value exactly when nothing changes and the mapped match is present and unexpired |
| LiveGames.GetExpiredBreaksCoherence | src/backend/live_game_cache.rs:34-38 | Intended lookup: a concrete coherent state that an expired `get` leaves with a player pointing at a missing match |
| LiveGames.SetOverwrites | src/backend/live_game_cache.rs:48-54 | `set` replaces the match entry with (data, now) and maps every listed player to the match; every other mapping is kept |
| LiveGames.SetThenGet | src/backend/live_game_cache.rs:30-54 | With a positive expiry, `get` at the same instant for a listed player returns the stored snapshot unchanged and changes nothing |
| LiveGames.SetThenGetLater | src/backend/live_game_cache.rs:29-54 | `get` before expiry returns the snapshot with exactly the elapsed whole seconds added, when no wrap occurs |
| LiveGames.SetTwiceKeepsSecond | src/backend/live_game_cache.rs:50 | A second `set` of the same match replaces the snapshot with no merging, and every player of either call reads the second |
| LiveGames.SetThenExpire | src/backend/live_game_cache.rs:34-54 | Intended lookup: once the expiry has passed, `get` for a listed player returns None and neither index keeps that match or that player |
| LiveGames.SetKeepsCoherence | src/backend/live_game_cache.rs:48-54 | `set` keeps every mapping pointing at a cached match |
| LiveGames.SweepEvicts | src/backend/live_game_cache.rs:64-96 | After a sweep no entry is expired and no player maps to an evicted id; unexpired matches and their players' mappings are kept unchanged |
| LiveGames.SweepRestoresInvariant | src/backend/live_game_cache.rs:64-96 | From a coherent state a sweep leaves a coherent state in which every mapped match is unexpired |
| LiveGames.SetThenSweep | src/backend/live_game_cache.rs:48-96 | A sweep at or past expiry after `set` removes the match and every mapping to it |
| LiveGames.GetAgreesWithSweep | src/backend/live_game_cache.rs:30-69 | `get`'s `<` and the sweep's `>=` agree: a mapped player gets a value exactly when a sweep at that instant would keep the match and the mapping |
| LiveGames.LiveGameCache.constructor | src/backend/live_game_cache.rs:15-21 | Both maps start empty, with the given expiry |
| LiveGames.LiveGameCache.GetGameData | src/backend/live_game_cache.rs:24-45 | Intended lookup: the result and the new state are exactly those of `Get` on the old state |
| LiveGames.LiveGameCache.SetGameData | src/backend/live_game_cache.rs:48-54 | The new state is exactly `Set` of the old state, through the loop over the players |
| LiveGames.LiveGameCache.CollectExpiredIds | src/backend/live_game_cache.rs:64-75 | The collected ids are exactly the cached matches whose age is at or past the expiry |
| LiveGames.LiveGameCache.CollectPuuidsOf | src/backend/live_game_cache.rs:81-91 | The collected players are exactly those mapped to the match |
| LiveGames.LiveGameCache.RemovePuuids | src/backend/live_game_cache.rs:93-95 | Removes exactly the listed players' mappings |
| LiveGames.LiveGameCache.EvictGame | src/backend/live_game_cache.rs:77-95 | Removes the match and exactly the mappings that point at it |
| LiveGames.LiveGameCache.Sweep | src/backend/live_game_cache.rs:61-96 | The new state is exactly `Swept` of the old state at `now` |
| Summoners.ToColumns | src/models/db/summoner.rs:113-119 | The seven bind arrays, one `map().collect()` per field; `UnnestColumns` states their shape |
| Summoners.Stage | src/models/db/summoner.rs:132-138 | The `VARCHAR(16)`, `VARCHAR(5)`, `VARCHAR(78)` and `VARCHAR(4)` casts of one record (`Truncate`) |
| Summoners.Unnest | src/models/db/summoner.rs:130-139 | `UNNEST` over the cast arrays; `UnnestColumns` states its result |
| Summoners.ApplyUpdate | src/models/db/summoner.rs:121-140 | `UPDATE … FROM`; stated by `ApplyUpdateEffect` |
| Summoners.BulkUpdateStatement | src/models/db/summoner.rs:112-155 | `bulk_update`; stated by `BulkUpdateEffect`, `BulkUpdateValid` and `BulkUpdateIdempotent` |
| Summoners.UpsertStep | src/models/db/summoner.rs:185-194 | One proposed row of the upsert; `StepReturns` states what it returns |
| Summoners.StepReturns | src/models/db/summoner.rs:185-194 | A step returns no row, or exactly one more row carrying the record's puuid |
| Summoners.UpsertReturnsInOrder | src/models/db/summoner.rs:176-194 | When every record returns a row, the `i`-th returned row carries the `i`-th record's puuid |
| Summoners.BulkInsertReturnsInOrder | src/models/db/summoner.rs:165-205 | With puuids that fit `VARCHAR(78)` and one returned row per record, the `i`-th returned row carries record `i`'s puuid |
| Summoners.ZipAndPairingKeys | src/models/db/summoner.rs:194-206 | With the returned rows in record order, a puuid is a key of the positional zip exactly when some returned row carries it |
| Summoners.ZipAndPairingValues | src/models/db/summoner.rs:194-206 | With the returned rows in record order and distinct puuids, both pairings give each key the same id |
| Summoners.ZipAgreesWithPairing | src/models/db/summoner.rs:194-206 | With distinct puuids and the returned rows in record order, the positional zip and the pairing by row give the same map |
| Summoners.ZipAlignsWhenAllReturned | src/models/db/summoner.rs:157-206 | With distinct puuids that fit `VARCHAR(78)` and one returned row per record, the positional zip equals the corrected pairing `PairReturned` |
| Summoners.RowIndex | src/models/db/summoner.rs:140 | The first row with the puuid, or None when no row has it |
| Summoners.Truncate | src/models/db/summoner.rs:132-135 | The `VARCHAR(n)` cast: the string itself when it fits, otherwise its first `n` characters |
| Summoners.UnnestColumns | src/models/db/summoner.rs:113-183 | The seven columns have one entry per record. The statement fails with an out-of-range error exactly when a level exceeds `INT`; otherwise staged row `i` is record `i` after the casts |
| Summoners.StagedIndex | src/models/db/summoner.rs:140 | The first staged row with the puuid, or None |
| Summoners.ApplyUpdateEffect | src/models/db/summoner.rs:121-140 | `UPDATE … FROM`: only rows whose puuid is staged change, each taking the six fields of the first staged match; id and puuid never change and no row is added |
| Summoners.BulkUpdateEffect | src/models/db/summoner.rs:112-155 | `bulk_update` fails exactly on a level overflow. Otherwise it keeps ids, puuids and the row count, leaves rows not in the batch untouched, and overwrites each matched row's six fields with no timestamp guard |
| Summoners.BulkUpdateValid | src/models/db/summoner.rs:112-155 | `bulk_update` keeps ids and puuids unique |
| Summoners.BulkUpdateIdempotent | src/models/db/summoner.rs:112-155 | Running the same `bulk_update` twice leaves what one run leaves |
| Summoners.Upsert | src/models/db/summoner.rs:166-194 | Either the upsert fails, or it draws one id per proposed row, and the rows it returns are the earlier ones followed by at most one per record |
| Summoners.BulkInsertStatement | src/models/db/summoner.rs:165-205 | `RETURNING id` yields no more rows than there were records |
| Summoners.Ids | src/models/db/summoner.rs:194 | The returned ids, in the order the rows were returned |
| Summoners.ZipReturnedIds | src/models/db/summoner.rs:206 | Each of the first `|ids|` records' puuids is a key, and every key is one of theirs (`get(index).unwrap()` demands no more ids than records) |
| Summoners.ZipLastWins | src/models/db/summoner.rs:206 | The i-th id is what the map holds for the i-th record's puuid, unless a later paired record repeats that puuid |
| Summoners.PairReturned | src/models/db/summoner.rs:194-206 | The corrected pairing: keys are exactly the returned rows' puuids, each with its own row's id |
| Summoners.BulkInsertValid | src/models/db/summoner.rs:157-207 | A successful `bulk_insert` keeps ids and puuids unique and below the next id |
| Summoners.PairedIdsAlign | src/models/db/summoner.rs:194-206 | Pairing returned ids with the returned rows' own puuids maps each puuid to the id of its row in the table |
| Summoners.ZipShiftsIds | src/models/db/summoner.rs:193-206 | A guard-skipped first record shifts ids: puuid "a" is given the id of the new row of "b", and "b" gets no id at all |
| Summoners.BulkInsertByPuuid | src/models/db/summoner.rs:165-193 | With distinct puuids `bulk_insert` succeeds. A new puuid gets a new row with the `j`-th drawn id, and an existing row has its six fields replaced exactly when its stored `updated_at` is non-NULL and older; every other row is kept |
| Summoners.BulkInsertRepeatFails | src/models/db/summoner.rs:185-193 | The same new puuid twice in one batch fails the whole statement with a cardinality violation |
| Summoners.ExistingSummoners | src/models/db/summoner.rs:91-109 | Keys are exactly the requested puuids present in the table; a present row without `updated_at` panics, hence the precondition |
| Summoners.ExistingSummonersExact | src/models/db/summoner.rs:105-107 | Each present puuid maps to its row's id and its `updated_at` seconds cast `as i32` |
| Summoners.SummonerIdsByPuuids | src/models/db/summoner.rs:291-303 | Keys are exactly the requested puuids having a row on the given platform |
| Summoners.SummonerIdsByPuuidsExact | src/models/db/summoner.rs:291-303 | Each such puuid maps to its own row's id |
| Summoners.SummonerIdByPuuid | src/models/db/summoner.rs:305-313 | The id of a row matching puuid and platform, or `NotFound` when no row matches |
| Summoners.SingleAndBatchLookupAgree | src/models/db/summoner.rs:291-313 | The single lookup succeeds exactly when the batch lookup on that one puuid finds it, and both give the same id |
| Summoners.IdIndex | src/models/db/summoner.rs:236 | The row with the id, or None when no row has it |
| Summoners.UpdateByIdStatement | src/models/db/summoner.rs:228-259 | `update_summoner_by_id`; stated by `UpdateByIdEffect`, `UpdateReportsUnstoredLevel` and `UpdateByIdValid` |
| Summoners.InsertStatement | src/models/db/summoner.rs:261-288 | `insert_summoner`; stated by `SingleRowWritesValid` and `InsertOrUpdateOneOf` |
| Summoners.InsertOrUpdate | src/models/db/summoner.rs:315-329 | The find-then-update-or-insert dispatch; stated by `InsertOrUpdateOneOf` and `InsertOrUpdateOtherPlatform` |
| Summoners.UpdateByIdEffect | src/models/db/summoner.rs:228-259 | Updating an existing id succeeds. It rewrites only that row: names, puuid, level `as i32`, icon and platform are replaced, and `updated_at` is kept. It reports the clock's time and the uncast level |
| Summoners.UpdateReportsUnstoredLevel | src/models/db/summoner.rs:241-255 | A level outside `i32` is stored wrapped but reported as given, so the two differ |
| Summoners.UpdateByIdValid | src/models/db/summoner.rs:228-246 | A successful update by id keeps ids and puuids unique |
| Summoners.SingleRowWritesValid | src/models/db/summoner.rs:228-288 | A successful update by id or insert keeps ids and puuids unique |
| Summoners.InsertOrUpdateOneOf | src/models/db/summoner.rs:315-329 | Exactly one branch: on a found (puuid, platform) row the table keeps its size and the found id is used; otherwise exactly one row is appended with the next id |
| Summoners.InsertOrUpdateOtherPlatform | src/models/db/summoner.rs:321-327 | A puuid stored under another platform takes the insert branch and fails on the unique puuid |
| Summoners.SummonerTable.constructor | src/models/db/summoner.rs:157-207 | An empty table whose ids start at 1, satisfying `Valid` |
| Summoners.SummonerTable.BulkUpdate | src/models/db/summoner.rs:112-155 | Keeps `Valid`. The new table is the statement's; on failure the error is returned and the table is unchanged |
| Summoners.SummonerTable.BulkInsert | src/models/db/summoner.rs:157-207 | Keeps `Valid`. the new table is the statement's and the result is the positional zip of the returned ids; on failure the error is returned and the table is unchanged |
| Summoners.SummonerTable.FetchExistingSummoners | src/models/db/summoner.rs:91-109 | Returns the map `ExistingSummoners` gives and changes nothing |
| Summoners.SummonerTable.FindSummonerIdsByPuuids | src/models/db/summoner.rs:291-303 | Returns the map `SummonerIdsByPuuids` gives |
| Summoners.SummonerTable.FindSummonerIdByPuuid | src/models/db/summoner.rs:305-313 | Returns what `SummonerIdByPuuid` gives |
| Summoners.SummonerTable.UpdateSummonerById | src/models/db/summoner.rs:228-259 | Keeps `Valid`. the table and the reported summoner are the update statement's; on failure the table is unchanged |
| Summoners.SummonerTable.InsertSummoner | src/models/db/summoner.rs:261-288 | Keeps `Valid`. the table and the reported summoner are the insert statement's; on failure the table is unchanged |
| Summoners.SummonerTable.InsertOrUpdateAccountAndSummoner | src/models/db/summoner.rs:315-329 | Keeps `Valid`. the lookup, then the branch it picks, with the effect of `InsertOrUpdate`; on failure the table is unchanged |
| Participants.UnzipPass1 | ruche/src/backend/tasks/update_matches/bulk_lol_match_participants.rs:9-47 | The first `multiunzip`: every vector has one entry per participant; `UnzipPass1At` states entry `i` is participant `i`'s field |
| Participants.UnzipPass2 | ruche/src/backend/tasks/update_matches/bulk_lol_match_participants.rs:49-87 | The second `multiunzip`: every vector has one entry per participant; `UnzipPass2At` states entry `i` is participant `i`'s field |
| Participants.UnzipPass3 | ruche/src/backend/tasks/update_matches/bulk_lol_match_participants.rs:89-127 | The third `multiunzip`: every vector has one entry per participant; `UnzipPass3At` states entry `i` is participant `i`'s field |
| Participants.UnzipPass4 | ruche/src/backend/tasks/update_matches/bulk_lol_match_participants.rs:129-170 | The fourth `multiunzip`: every vector has one entry per participant; `UnzipPass4At` states entry `i` is participant `i`'s field |
| Participants.Binds | ruche/src/backend/tasks/update_matches/bulk_lol_match_participants.rs:261-302 | The 41 bound arrays in `.bind` order; stated by `BindShape`, `BindOrder`, `BindsAligned` and `BindsWellShaped` |
| Participants.ColumnIndex | ruche/src/backend/tasks/update_matches/bulk_lol_match_participants.rs:173-215 | Every column has a position among the 41 |
| Participants.BindShape | ruche/src/backend/tasks/update_matches/bulk_lol_match_participants.rs:9-302 | The four passes give 41 arrays, each with one entry per participant and of the type its `UNNEST` placeholder casts to |
| Participants.BindOrder | ruche/src/backend/tasks/update_matches/bulk_lol_match_participants.rs:31-302 | Entry `i` of the `k`-th bound array is participant `i`'s field for the `k`-th column of the `INSERT` list |
| Participants.ColumnPosition | ruche/src/backend/tasks/update_matches/bulk_lol_match_participants.rs:173-215 | The `k`-th listed column sits at position `k` |
| Participants.ColumnListIndex | ruche/src/backend/tasks/update_matches/bulk_lol_match_participants.rs:173-215 | Every column is listed exactly once, at its position |
| Participants.ColumnListDistinct | ruche/src/backend/tasks/update_matches/bulk_lol_match_participants.rs:173-215 | No column is listed twice |
| Participants.BindsAligned | ruche/src/backend/tasks/update_matches/bulk_lol_match_participants.rs:9-302 | For each column, entry `i` of the array bound at its placeholder is that field of participant `i` |
| Participants.PlaceholderTyping | ruche/src/backend/tasks/update_matches/bulk_lol_match_participants.rs:216-258 | `won` alone is `BOOL`. `kill_participation`, `kda` and `cs_per_minute` are exactly the `FLOAT8` ones, and every other column is `INT`. Every field is non-NULL and fits its placeholder's type |
| Participants.RowCount | ruche/src/backend/tasks/update_matches/bulk_lol_match_participants.rs:216-258 | `UNNEST` yields as many rows as its longest array |
| Participants.FirstMismatch | ruche/src/backend/tasks/update_matches/bulk_lol_match_participants.rs:216-258 | The first placeholder whose bound array has the wrong type, or None when all 41 match |
| Participants.InsertStatement | ruche/src/backend/tasks/update_matches/bulk_lol_match_participants.rs:172-306 | Succeeds exactly when the store does not fail and the parameters pass the model's own guard (41 arrays of exactly the placeholder types, which the one caller always binds, see `BindsWellShaped`); on success the old rows are kept and one row per `UNNEST` row is appended |
| Participants.InsertedRowsMatch | ruche/src/backend/tasks/update_matches/bulk_lol_match_participants.rs:172-306 | A plain `INSERT` with no conflict clause: the table gains exactly N rows, appended row `i` holds participant `i`'s field in every column, and existing rows are unchanged |
| Participants.InsertSucceeds | ruche/src/backend/tasks/update_matches/bulk_lol_match_participants.rs:261-306 | Without a store failure the binds always type-check and the insert appends exactly one row per participant |
| Participants.InsertFailureIsTotal | ruche/src/backend/tasks/update_matches/bulk_lol_match_participants.rs:303-306 | A store error is returned as the one error from the single `execute`; no partial success is reported |
| Participants.BindsWellShaped | ruche/src/backend/tasks/update_matches/bulk_lol_match_participants.rs:9-302 | All 41 bound arrays have one entry per participant and their placeholder's type |
| Participants.ParticipantTable.BulkInsertLolMatchParticipants | ruche/src/backend/tasks/update_matches/bulk_lol_match_participants.rs:5-308 | On success the rows become the statement's result; on failure its error is returned and the rows are unchanged |
| Ints.AsU16 | src/backend/live_game_cache.rs:32 | `as u16` keeps a value already in range and is congruent to its input modulo 2^16 |
| Ints.WrappingAddU16 | src/backend/live_game_cache.rs:32 | `u16 +=` in a release build: the sum when it fits, the sum minus 2^16 otherwise |
| Ints.AsI32 | src/models/db/summoner.rs:106-274 | `as i32` keeps a value already in range and is congruent to its input modulo 2^32 |

## Left out

- **Concurrency.** `DashMap` sharding and locking, `tokio::spawn`, `sleep` and the interval loop are not modelled. The cache is sequential, one `Sweep(now)` is one round of the cleanup task, and torn states between the two maps appear only as arbitrary starting states of `get`.
- **Clocks.** `Instant::now()` and `Utc::now()` are the `now` parameter, in nanoseconds for the cache and whole seconds for the tables; sub-second timestamp precision is not modelled.
- **Percent-encoding.** `urlencoding::encode`/`decode` are a codec value with stated laws (`PercentEncodingLaws`), not an implementation. A decode failure, which panics through `.ok().unwrap()`, is a precondition of `ParseSummonerSlug`.
- **Date formatting.** `chrono` formatting with `DATE_FORMAT`: the reported `updated_at` is the clock value itself.
- **Platform names.** `PlatformRoute::as_region_str`/`from_region_str` and `Summoner::to_route_path` are not modelled; their source is not part of this model. A platform is its region string.
- **Queries outside the core.** `find_by_exact_details`, `find_by_details` and `find_by_id` in summoner.rs are not modelled, and neither is `src/models/db.rs` (an `Id` row type and a constant).
- **Participant field widths.** The definition of `TempParticipant` is not part of this model. Its integer fields are unbounded integers, and an `INT` overflow of a participant field is not modelled.
- **Floating point.** Floating-point values are opaque (`Float8` holds an uninterpreted bit pattern), and `round_to_2_decimal_places` is not modelled.
- **Store failures.** Failures the schema or the connection could raise in a statement the model does not otherwise fail are the `failure` parameter, or are not modelled at all for the summoner statements. The schema is assumed to make `puuid` unique, `id` an increasing primary key, and the single-row writes' columns wide enough. The `VARCHAR` widths of `update_summoner_by_id` and `insert_summoner` are not enforced.
- **Id sequence.** A failed statement leaves the table unchanged, including the id sequence (PostgreSQL would still consume sequence values).
- LiveGames.GetTorn: describes the intended lookup `Get`; the source as written deadlocks on this path (see Findings and `GetAsWritten`).
- LiveGames.GetExpired: describes the intended lookup `Get`; the source as written deadlocks on this path (see Findings and `GetAsWritten`).
- LiveGames.GetExpiredBreaksCoherence: describes the intended lookup `Get`; the source as written deadlocks before it can leave this state (see Findings).
- LiveGames.SetThenExpire: describes the intended lookup `Get`; the source as written deadlocks here instead (`SetThenExpiredGetDeadlocks`).
- LiveGames.LiveGameCache.GetGameData: implements the intended lookup `Get`, not the deadlocking one; a method cannot block forever in this model, so the as-written outcome is the value `GetAsWritten`.
- Summoners.Upsert: `RETURNING` rows are taken to come out in the order of the `UNNEST` input, which PostgreSQL does not document; `UpsertReturnsInOrder` and `ZipAlignsWhenAllReturned` rest on that order.
- Summoners.ApplyUpdate: when several staged rows share a puuid, `UPDATE … FROM` takes an unspecified one in PostgreSQL; the model takes the first.
- **Leptos UI.** The UI components, bootstrapping and image generation are outside the core.

## Findings

| source | as written | input that shows it | evidently intended | confidence | as-written member | corrected member |
|---|---|---|---|---|---|---|
| src/models/db/summoner.rs:206 | `RETURNING id` omits rows the `WHERE summoners.updated_at < EXCLUDED.updated_at` guard skips, yet the i-th returned id is paired with the i-th input record | Table with puuid "a" stored at `updated_at` 10 (id 1); batch ["a" at 5, new "b" at 5]. One id (3, for "b") is returned and paired with "a"; "b" gets none | Each puuid maps to the id of its own row: pair returned ids with the returned rows' puuids (`RETURNING id, puuid`) | not executed | Summoners.ZipShiftsIds | Summoners.PairedIdsAlign |
| src/backend/live_game_cache.rs:25-42 | The `Ref` guards from `puuid_to_game.get` and `game_cache.get` are still alive when `remove` is called on the same maps, and `remove` needs a write lock on the shard the guard holds | `set_game_data(m, [p], g)` at time 0, then `get_game_data(p)` once the expiry has passed: `game_cache.remove(&m)` waits on the guard of its own caller | Drop the guards first, then remove the expired match and the mapping (or the torn mapping) and return None | not executed | LiveGames.SetThenExpiredGetDeadlocks | LiveGames.SetThenExpire |
| src/consts/perk.rs:86-130 | `From<u16>` lists only the 38 codes up to `Precision`; the 39 variants declared after it (`PressTheAttack` = 8005 … `GatheringStorm` = 8236) fall to `UNKNOWN` | `Perk::from(8005)` is `UNKNOWN`, although `PressTheAttack as u16` is 8005 | `from` inverts `as u16` on every variant | not executed | Perks.FromMissesPressTheAttack | Perks.FromU16CompleteRoundTrip |
