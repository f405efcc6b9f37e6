# VRFS league bot: stat ledger, points and rank

This project models the statistics engine of the VRFS/VFA.GG league bot
(`Main.py`). Moderators record events such as goals, assists, clean sheets,
MOTM and TOTW for a player in a gameweek, season and division. `/profile`
turns a player's events into per-kind totals, division-weighted points and a
rank tier (Bronze, Silver, Gold or Platinum).

The model is split into these modules:

- `Domain` (`domain.dfy`): the six stat kinds and three divisions as enumerations, and their stored names. It holds the gameweek range 1..22 and the seasons 1, 2, 3. It also holds the parse step that lower-cases the moderator's stat type and accepts only the six names.
- `PointsTable` (`points_table.dfy`): the 3 × 6 points table, and the guarded lookup on stored strings that `/profile` performs.
- `Ranks` (`ranks.dfy`): the rank classifier, which uses inclusive thresholds 300, 194 and 84.
- `Validation` (`validation.dfy`): the checks of `/set`, `/addstat` and `/removestats`. They run in the source's order, and the first failing check is the one reported.
- `Ledger` (`ledger.dfy`): the stat table as a sequence of rows.
  - Kind and division are kept as the stored strings, so rows the table could hold with other strings are representable.
  - Every total is one `Sum` over the rows. Lemmas cover sums over appends, deletions and permutations.
- `Aggregation` (`aggregation.dfy`): what the totals promise.
  - Points equal the grouped `(kind, division)` evaluation, and they do not depend on row order.
  - Recording a stat raises the kind's total by the count, and the points by the table value times the count.
  - Deleting one matching row lowers each total by that row's share.
- `Store` (`store.dfy`): the class `StatStore`, holding the config table, the players table and the ledger. Its methods are `/set` (`SetPeriod`), `/addstat` (`AddStat`), `/removestats` (`RemoveStats`), `/profile` (`Profile`) and start-up seeding (`InitDb`).

Behaviour of `Main.py` worth noting:

- A count of zero or less is reported as `NonPositiveCount` only when gameweek, season and stat type are all valid. The checks run in order, so a bad gameweek is reported first.
- A stored row whose division or kind is not in the points table is skipped when points are summed (it adds 0). It is not treated as a fatal error.
- `/removestats` deletes one whole row whatever its stored count. The reply repeats the moderator's `count` argument, and that argument only has to be positive.

The one-row delete has no `ORDER BY`, so it leaves open which matching row goes. The model deletes the first matching row in ledger order, which is insertion order.

## Model

| member | source | states |
|---|---|---|
| Domain.KindOfName | Main.py:238-250 | A stored kind string is recognised exactly when it equals one of the six names (case-sensitive dictionary membership) |
| Domain.DivisionOfName | Main.py:271-273 | A stored division string is recognised exactly when it equals "Div 1", "Div 2" or "Div 3" |
| Domain.ParseKind | Main.py:353-356 | A stat type is accepted as kind k exactly when its lower-cased form is k's name; anything else is rejected |
| Domain.ParseKindIgnoresCase | Main.py:354 | Parsing is insensitive to letter case, and every stored name parses back to its own kind |
| Domain.KindNameInjective | Main.py:353 | The six kind names are pairwise distinct |
| PointsTable.Points | Main.py:253-257 | Every one of the 18 (division, kind) entries exists and lies between 2 and 12 |
| PointsTable.HigherDivisionPaysMore | Main.py:253-257 | For every kind, Div 1 pays more than Div 2, which pays more than Div 3 |
| PointsTable.LookupPoints | Main.py:271-273 | The guarded lookup yields a value exactly when both the division string and the kind string are keys of the table |
| PointsTable.LookupPointsTotal | Main.py:392-397 | Looking up the stored names of any division and kind yields that table entry |
| Ranks.RankOf | Main.py:276-283 | Platinum iff points ≥ 300, Gold iff 194 ≤ points < 300, Silver iff 84 ≤ points < 194, Bronze iff points < 84 (zero and negatives included) |
| Ranks.RankMonotone | Main.py:276-283 | More points never give a lower tier |
| Validation.CheckPeriod | Main.py:309-314 | Accepts exactly gw in 1..22 and season in {1,2,3}; reports the gameweek error first, the season error only for a valid gameweek |
| Validation.CheckFields | Main.py:346-360 | Accepts exactly when gameweek, season, stat type and count > 0 all pass; each error is reported iff every earlier check passed and its own fails; on success the lower-cased stat type is the kind's stored name |
| Validation.CheckRecord | Main.py:362-370 | Succeeds iff the field checks pass and (gw, season) is the current period; a field error wins over the period gate; otherwise the gate reports the current period |
| Domain.Lower | Main.py:354 | `stat_type.lower()`: the result has the same length, holds no character whose lower-case form is ASCII but which is not already lower case, and keeps every other character |
| Ledger.EventPoints | Main.py:271-273 | A row worth nothing when its division or kind is not in the table; otherwise between 2 and 12 points per counted occurrence |
| Ledger.KindTotal | Main.py:230-236 | SUM(count) of a player's rows of one kind, all divisions: zero when the player has no such row, never negative when no count is |
| Ledger.DivisionKindTotal | Main.py:384-390 | SUM(count) of a player's rows of one kind in one division: zero when there is no such row |
| Ledger.TotalPoints | Main.py:260-273 | A player's points: zero when the player has no rows, never negative when no count is |
| Ledger.MatchCount | Main.py:464-469 | COUNT(*) of the rows matching the removal key lies between zero and the number of rows |
| Ledger.DivisionTotals | Main.py:383-390 | Per-kind totals in one division with every kind present (the `.get(kind, 0)` default), each between zero and the kind's total over all divisions when counts are non-negative |
| Ledger.FirstMatch | Main.py:476-480 | Returns the position of the first row matching the key (no earlier row matches), or nothing when no row matches |
| Ledger.SumRemoveAt | Main.py:476-480 | Deleting one row lowers every total by exactly that row's share |
| Ledger.SumPermutation | Main.py:229-236 | Every total depends only on the multiset of rows, not on their order |
| Aggregation.GroupedPoints | Main.py:260-273 | The grouped evaluation over the 18 (division, kind) groups: zero when the player has no rows, as the `points = 0` start when the query returns nothing |
| Aggregation.AppendRowShare | Main.py:247-273 | One more row raises the player's total of its recognised kind by its count, raises the points by its points, and changes nothing else |
| Aggregation.GroupedPointsIsTotalPoints | Main.py:260-273 | Summing table value × SUM(count) over the (kind, division) groups equals summing each row's points |
| Aggregation.OrderIndependent | Main.py:260-273 | A player's points and per-kind totals are the same for any reordering of the ledger |
| Aggregation.RecordEffect | Main.py:372-378 | Appending a row for (k, d, count) raises the player's k total and (d, k) total by count, and points by Points(d, k) × count; other kinds and other players are unchanged |
| Aggregation.UnrecognisedRowScoresNothing | Main.py:271-273 | A row with an unknown division or kind adds no points; one with an unknown kind adds to no kind total |
| Aggregation.TotalsNonNegative | Main.py:358-360 | On a ledger of rows that passed the checks, no per-kind total and no point sum is negative |
| Aggregation.MatchCountZeroIffNoMatch | Main.py:462-473 | The COUNT(*) pre-check is zero exactly when no row matches, so NotFound is reported exactly then |
| Aggregation.RemovalDeletesOneMatch | Main.py:476-480 | The deleted first-matching row matches the key; the ledger loses exactly that one row (as a multiset) and the match count drops by one |
| Aggregation.RemovalLowersTotals | Main.py:476-481 | Deleting a row lowers its player's points by that row's points and the total of its kind by its count; other kinds are unchanged |
| Store.Seeded | Main.py:50-51 | After seeding both config keys exist; existing values are kept; only missing keys get value 1 |
| Store.SeedingIdempotent | Main.py:50-51 | Seeding twice is the same as seeding once |
| Store.RegisterPlayer | Main.py:373 | After insert-or-ignore the player has a row, new rows have no position, and every existing row is kept |
| Store.RegisterPlayerIdempotent | Main.py:373 | Registering a player twice is the same as registering once |
| Store.PositionOf | Main.py:224-227 | The shown position is the stored one when non-empty, otherwise "Not set"; it is never empty |
| Store.StatStore.Open | Main.py:17-52 | Opening the tables keeps players and ledger, seeds the config, and leaves both config keys present |
| Store.StatStore.InitDb | Main.py:49-52 | Start-up seeding sets the config to its seeded form and never overwrites an existing value |
| Store.StatStore.SetPeriod | Main.py:305-319 | Non-moderators and out-of-range values are refused with the first failing check, leaving the config unchanged; otherwise both values are updated |
| Store.StatStore.AddStat | Main.py:333-397 | On any refusal the ledger and players are unchanged. Otherwise it registers the player and appends exactly one row, with the lower-cased stat type. It reports Points(d, k) × count and the fresh per-kind totals in the division. Rows stay well-formed |
| Store.StatStore.RemoveStats | Main.py:433-481 | Same field checks as /addstat and no period gate. NotFound, with the ledger unchanged, when nothing matches. Otherwise exactly the first matching row is deleted. The count argument does not choose the row |
| Store.StatStore.Profile | Main.py:219-283 | Reports all six per-kind totals (zero when absent, divisions ignored), the division-weighted points, the rank of those points and the position |

## Left out

- The moderation and role commands (`ping`, `kick`, `ban`, `mute`, `unmute`, `clear`, `deletechannels`, `sign`, `release`, `welcome`, `goodbye`) are platform API calls with no stat logic.
- `is_moderator` is a platform permission query. It becomes the boolean parameter `isModerator`, checked first. `NotModerator` stands for "refused, nothing changed", not for the reply text. As written the query reads `interaction.user.guild.permissions`, which the platform library does not appear to define, so a non-administrator may get an exception instead of the permission reply; no table changes either way.
- The database connections and SQL text are left out. Tables are in-memory state: a map for config, a map for players, a sequence for the stat table. Config values are integers, not the stored text that is parsed back with `int()`.
- The auto-increment row id is not modelled. A row's position in the ledger sequence stands for its insertion order.
- The `player_stats` columns `goals` through `totw` are never written or read by the stat commands and are not modelled. No command in this file writes `position`, so it only comes from the opened table.
- Embeds, emoji maps and the direct message to the player are left out. `AddStat` returns the values the message is built from: the kind, its points and the per-division totals.
  - The source computes these inside a `try` that swallows every error. The model always computes them.
- Bot start-up, the token and the event loop are process plumbing.
- Transactions and concurrent commands are left out. Each method is one atomic step.
- `DELETE ... LIMIT 1` is accepted only by SQLite builds compiled with the update/delete-limit option. The model assumes such a build.
- `Store.StatStore.Profile`: the source groups rows with SQL `GROUP BY` and then loops over the groups. The method fuses this into one pass over the rows. `Aggregation.GroupedPointsIsTotalPoints` shows the grouped evaluation gives the same points.
- `Domain.Lower`: Python's `str.lower()` is modelled only for ASCII capitals and the Kelvin sign (U+212A, which lowers to `k`). Other non-ASCII characters are kept unchanged, and length-changing mappings (U+0130) are not modelled. Their real lower-case forms are never wholly ASCII, so this does not change which stat types are accepted.
- The `division` argument is restricted by the platform to "Div 1", "Div 2" or "Div 3", so it is the `Division` enumeration. Its default of "Div 1" is left to the caller.
- `Store.StatStore.Profile`: the `member` argument of `/profile` defaults to the invoking user; the method takes the user id explicitly and leaves that default to the caller.
- `Ledger.Sum`, `Ledger.KindTotal`, `Ledger.DivisionKindTotal`, `Ledger.TotalPoints`, `Ledger.DivisionTotals`: counts and sums are unbounded integers. SQLite's 64-bit INTEGER and the "integer overflow" error that `SUM(count)` raises when a partial sum leaves that range are not modelled, nor is the platform's ±2^53 limit on the `count` option.
- `Store.StatStore.Profile`, `Store.StatStore.AddStat`: for the same reason, a ledger whose sums overflow 64 bits gets a value from the model where the source's query fails.
