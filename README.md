# A verified model of the QQ bot's pixel war and its companion cogs

This project models the core of a QQ chat bot in Dafny and proves properties of that model.

The centre is the **pixel war** cog, a shared canvas that members of many channels paint one pixel at a time. It has four parts:

- the canvas, an `array2` of RGB cells indexed `[y, x]` as numpy indexes it;
- the ledger of who painted each cell, a `map`;
- the write-back batch, a `seq` that a periodic task upserts into the `pixels` table;
- the one-off hydration of canvas and ledger from that table at start-up.

The `view_canvas` window arithmetic (slice bounds and padding) is modelled as pure functions.

Around it sit smaller cores:

- **The bot** (`bot.py`):
  - the command prefixes;
  - the validation of a guild's custom prefixes;
  - the in-place pruning of week-old gateway timestamps;
  - the blacklist and auto-ban spam counter of `process_commands`.
- **The Bilibili cog** (`cogs/bilibili.py`):
  - the subscription tables `push_uid`, `room_states` and `push_times`;
  - message truncation;
  - the feed cut-off;
  - the picture-layout decision;
  - the live on/off state.
- **The stats cog** (`cogs/stats.py`):
  - the command counter and the batch of command uses;
  - the `commandstats` slice;
  - the daily outcome partition;
  - the gateway issue count and colour;
  - the per-command and per-cog usage tables.
- **The admin cog** (`cogs/admin.py`):
  - code-fence clean-up;
  - the reload list built after `git pull`;
  - the one-REPL-per-channel session set;
  - the multi-statement test of `sql`.
- **The command context** (`cogs/context.py`):
  - `tick`;
  - the `entry_to_code` listing;
  - the `disambiguate` choice;
  - the lazily held database connection.

Python's own behaviour is written out where the code relies on it:

- negative list and array indices wrap;
- `sorted(..., reverse=True)` and `Counter.most_common` are stable;
- `str` compares by code point;
- `split`, `join`, `strip`, `count` and `os.path.splitext` behave as in Python.

These live in `common.dfy`, `strings.dfy` and `sorting.dfy`. Each source file has one module:

| file | module |
|---|---|
| `pixel_war.dfy` | `PixelWar` |
| `bot.dfy` | `Bot` |
| `bilibili.dfy` | `Bilibili` |
| `stats.dfy` | `Stats` |
| `admin.dfy` | `Admin` |
| `context.dfy` | `Context` |

Everything outside the bot's own code is a parameter of the methods that use it:

- the database;
- the QQ and Bilibili APIs;
- the clock;
- the rate limiter;
- the replies users send.

## Model

| member | source | states |
|---|---|---|
| `PixelWar.PixelWar.constructor` | cogs/pixel_war/__init__.py:44-46 | the canvas starts all white, with an empty ledger and an empty batch, not yet hydrated |
| `PixelWar.PixelWar.Draw` | cogs/pixel_war/__init__.py:149-171 | the guard rejects only on a degenerate canvas; a bad colour or cell index returns before any batch or ledger write; on success exactly the one cell `[y, x]` takes `Colors[color]`, exactly one record with the same x, y, colour, painter, guild and time is appended, the ledger entry is overwritten, `CheckPixel` then reports that draw, and nothing else changes; with no guild the cell is painted but nothing is recorded |
| `PixelWar.PixelWar.CellOf` | cogs/pixel_war/__init__.py:154 | `pixels[y, x]` succeeds exactly for indices within the bounds under negative wrap-around, and names cell `(y, x)` for non-negative ones |
| `Common.PyIndex` | cogs/pixel_war/__init__.py:154 | a Python index is valid exactly in `-n..n-1` and lands on `i` or `i + n` |
| `PixelWar.PixelWar.CheckPixel` | cogs/pixel_war/__init__.py:184-186 | "not painted" exactly when the ledger has no entry for `(x, y)`, otherwise that entry |
| `PixelWar.GuardOnlyWhenDegenerate` | cogs/pixel_war/__init__.py:151 | the chained guard rejects exactly when `max <= coordinate <= 0` on some axis, so never on a canvas of positive size |
| `PixelWar.GuardLetsNegativeThrough` | cogs/pixel_war/__init__.py:151-154 | `x = -1` and `x = 9` on a 10-wide canvas both pass the guard and paint the same column, under two different ledger keys |
| `PixelWar.GuardIntendedNoWrap` | cogs/pixel_war/__init__.py:151-154 | a draw past the intended guard indexes exactly the typed coordinates, so ledger key and cell agree; every negative coordinate is refused by it and let through by the guard as written |
| `PixelWar.PixelWar.FillInPixels` | cogs/pixel_war/__init__.py:77-90 | every row up to and including the first failing one enters the ledger; each earlier row paints its cell unless its colour is 31 (white); the canvas equals the rows' paint applied in order |
| `PixelWar.PixelWar.HydrateRow` | cogs/pixel_war/__init__.py:80-89 | one stored row writes its ledger entry first; the canvas changes only at the cell that row paints, and the step fails exactly when the colour or the cell does not index |
| `PixelWar.PixelWar.EffectOf` | cogs/pixel_war/__init__.py:87-89 | a stored row keeps the cell white exactly when its colour is 31, and otherwise paints a cell inside the canvas or fails to index |
| `PixelWar.PaintedByLast` | cogs/pixel_war/__init__.py:80-89 | after hydration a cell holds the colour of the last stored row that paints it |
| `PixelWar.PaintedUntouched` | cogs/pixel_war/__init__.py:80-89 | a cell no stored row paints keeps its colour |
| `PixelWar.PixelWar.BulkInsert` | cogs/pixel_war/__init__.py:70-75 | an empty batch sends nothing; the batch is cleared only after the upsert is accepted, and kept on a lost connection or a rejection |
| `PixelWar.PixelWar.Tick` | cogs/pixel_war/__init__.py:53-58 | hydration runs at most once per run, before the first flush, because the flag is set first (a counter of hydrations begun grows by one only on the first pass and never exceeds one); a failed hydration is not retried; the loop stops on a rejected batch or a hydration error. On the first pass with rows fetched, the ledger and canvas are what `FillInPixels` leaves: the pass ends in `HydrationAborted(k)` exactly when `k` is the first row that cannot be written, with the ledger holding rows `..k` inclusive, the canvas painted by rows before `k` and the batch kept; otherwise every row is in the ledger and on the canvas and the old batch is flushed |
| `PixelWar.PixelWar.CogUnload` | cogs/pixel_war/__init__.py:48-50 | unloading clears the hydration flag and stops the loop |
| `PixelWar.Upsert` | cogs/pixel_war/__init__.py:61-71 | the upsert keyed on `(x, y)` succeeds exactly when no cell repeats; it then overwrites every batch cell and keeps every other row |
| `PixelWar.UpsertIdempotent` | cogs/pixel_war/__init__.py:61-71 | replaying an accepted batch changes nothing more |
| `PixelWar.RepeatedCellIsRejected` | cogs/pixel_war/__init__.py:61-71 | two draws of one cell in one batch make the whole upsert fail |
| `PixelWar.LedgerOfLastWins` | cogs/pixel_war/__init__.py:81 | the ledger built from rows holds, per cell, the last row for it |
| `PixelWar.LatestPerCellUpsert` | cogs/pixel_war/__init__.py:61-71 | the batch cut down to the latest record per cell is accepted and stores what applying every record in order would |
| `PixelWar.FlushThenHydrate` | cogs/pixel_war/__init__.py:77-86 | after a flush, hydrating a fresh process from the table gives the ledger the drawing process holds |
| `PixelWar.ListingLedger` | cogs/pixel_war/__init__.py:78-86 | loading a full listing of the table into an empty ledger reproduces the table |
| `PixelWar.ViewCanvas` | cogs/pixel_war/__init__.py:118-138 | a centre outside `0..max` is refused first, then a radius over 100; the resize then fails for a negative radius, whose target size `(1 + 2r) * 20` is not positive, and for a padded image with no rows or no columns; otherwise the radius is in `0..100`, and the rows are the y-window clipped to the array's `max_x` rows and the columns the x-window clipped to its `max_y` columns, as numpy slices the `[max_x, max_y]` array |
| `PixelWar.Clip` | cogs/pixel_war/__init__.py:128 | a numpy slice stays inside its axis, keeps the padding, and is unchanged when it already lies inside |
| `PixelWar.ViewSquareUnclipped` | cogs/pixel_war/__init__.py:118-133 | on a square canvas the rendered slices are exactly the computed windows |
| `PixelWar.ViewNonSquareDropsRows` | cogs/pixel_war/__init__.py:118-138 | `max_x = 5`, `max_y = 10`, centre `(0, 8)`, radius 1 passes both checks and asks for rows 7 to 9; the 5-row array yields none of them and the resize fails, while the intended shape renders them |
| `PixelWar.ViewIntendedUnclipped` | cogs/pixel_war/__init__.py:118-138 | on an array of shape `[max_y, max_x]`, with the centre on a cell, the resize fails exactly for a negative radius and every other view renders its whole window; on a square canvas this agrees with the code as written |
| `PixelWar.WindowEmptyAtBound` | cogs/pixel_war/__init__.py:122-133 | along one axis the padded window is empty exactly for radius 0 at a centre one past the last cell |
| `PixelWar.ViewSquareEmptyAtEdge` | cogs/pixel_war/__init__.py:118-138 | on a square canvas an accepted centre and radius make the resize fail exactly when the radius is 0 and the centre is on `x == max` or `y == max` |
| `PixelWar.ViewAtEdgeFails` | cogs/pixel_war/__init__.py:119 | a 10 by 10 canvas, centre `(10, 0)`, radius 0 passes the checks, slices no column and the resize fails |
| `PixelWar.WindowBefore` | cogs/pixel_war/__init__.py:122-133 | the slice stays inside the canvas, and slice plus leading pad puts exactly `r` cells before the centre |
| `PixelWar.WindowInside` | cogs/pixel_war/__init__.py:122-133 | a window inside the canvas is the whole `[c-r, c+r]` slice with no padding |
| `PixelWar.WindowWidthAsWritten` | cogs/pixel_war/__init__.py:132-133 | the padded window is `2r+1` wide except at the far edge, where it is one or two cells short |
| `PixelWar.WindowShortAtFarEdge` | cogs/pixel_war/__init__.py:132-133 | centre 9, radius 3 on a 10-cell axis gives a 5-cell window |
| `PixelWar.WindowIntendedSquare` | cogs/pixel_war/__init__.py:122-133 | with trailing pad `max(0, c+r+1-max)` the window is always `2r+1` wide, centred |
| `Bot.PrefixesFor` | bot.py:31-38 | the prefixes start with the two mention forms, followed by `/` in a direct message or the guild's stored list |
| `Bot.RawGuildPrefixes` | bot.py:140-141 | a guild without stored prefixes gets `['/']` |
| `Bot.MentionAlwaysWorks` | bot.py:31-38 | a guild that stored no prefixes is still reachable by mention only |
| `Bot.SortedSetDescending` | bot.py:149 | `sorted(set(p), reverse=True)` holds exactly the members of `p`, strictly descending, no longer than `p` |
| `Bot.NewGuildPrefixes` | bot.py:143-149 | an empty list is stored as `[]`; more than ten raw entries, duplicates included, are refused; otherwise the distinct prefixes are stored in strictly descending order, at most ten |
| `Bot.Bot.constructor` | bot.py:66-93 | the stored prefixes and blacklist are the loaded ones and the owner is fixed; no IDENTIFY, RESUME or spam strike is recorded yet, so every stored strike count is in 1..4 |
| `Bot.Bot.SetGuildPrefixes` | bot.py:143-149 | stores the validated list for the guild, or nothing when refused |
| `Bot.Bot.AddToBlacklist` | bot.py:151-152 | the id joins the blacklist |
| `Bot.Bot.RemoveFromBlacklist` | bot.py:154-158 | the id leaves the blacklist; an absent id is a silent no-op |
| `Bot.Recent` | bot.py:101-111 | only timestamps no older than the cut-off survive |
| `Bot.RecentIdempotent` | bot.py:101-111 | pruning twice prunes no more than once |
| `Bot.RecentAppend` | bot.py:101-111 | pruning distributes over concatenation, so the survivors keep their order |
| `Bot.OldIndices` | bot.py:104 | the indices to remove are exactly the positions of old timestamps, increasing |
| `Bot.PruneDates` | bot.py:104-106 | deleting the old indices in reverse in place leaves exactly the recent timestamps in order |
| `Bot.PruneShards` | bot.py:103-111 | every shard keeps its entry, holding its recent timestamps |
| `Bot.Bot.ClearGatewayData` | bot.py:101-111 | no IDENTIFY or RESUME older than a week remains, and the survivors keep their relative order |
| `Bot.Bot.BeforeIdentifyHook` | bot.py:116-119 | prunes every shard, then appends this IDENTIFY to the shard's list |
| `Bot.Bot.OnShardResumed` | bot.py:251-253 | appends this RESUME to the shard's list |
| `Bot.Bot.ProcessCommands` | bot.py:271-300 | each outcome holds exactly when its condition does: a non-command is ignored; a blacklisted author or guild returns early, with no change to the counter; a rate-limited non-owner command from an unblocked author bumps the author's counter, and the fifth (a stored count of 4) blacklists the author and deletes the counter, so a stored counter stays in 1..4; any other message clears the counter and invokes |
| `Bilibili.LimitedMessage` | cogs/bilibili.py:81-85 | the message is returned unchanged when the limit is at most 0 or not exceeded; otherwise its first `limit` characters followed by `……` |
| `Bilibili.LimitedMessageIdempotent` | cogs/bilibili.py:81-85 | cutting a cut message changes nothing |
| `Bilibili.WithChannel` | cogs/bilibili.py:320-327 | subscribing keeps the old list as a prefix and adds the channel and nothing else |
| `Bilibili.WithoutChannel` | cogs/bilibili.py:337-342 | cancelling touches only that uid and changes nothing when the channel does not follow it |
| `Bilibili.WithoutChannelFollows` | cogs/bilibili.py:337-342 | after cancelling, the channel no longer follows the uid, every other channel still does, and a remaining list is non-empty with no duplicates |
| `Bilibili.SubscribeThenCancel` | cogs/bilibili.py:315-342 | cancelling a fresh subscription restores the table |
| `Bilibili.RemoveFirstNoDuplicates` | cogs/bilibili.py:340 | `list.remove` on a duplicate-free list removes exactly that channel |
| `Bilibili.Bilibili.constructor` | cogs/bilibili.py:21-27 | the loaded configuration becomes the cog's tables |
| `Bilibili.Bilibili.Sub` | cogs/bilibili.py:315-331 | one reply per uid, where an unknown uid is reported and changes nothing; the new tables are the subscriptions applied in order |
| `Bilibili.Bilibili.SubscribeOne` | cogs/bilibili.py:320-329 | a new uid gets `[channel]` and room state off; a channel already following is refused with the list unchanged, otherwise appended; success sets the push time |
| `Bilibili.SubscribedFollows` | cogs/bilibili.py:315-331 | after `_sub`, a channel follows a uid exactly when it did before or it is the subscribing channel and the uid exists |
| `Bilibili.SubscribedListsAt` | cogs/bilibili.py:315-331 | `_sub` changes exactly the lists of existing requested uids |
| `Bilibili.SubscribedRoomsAt` | cogs/bilibili.py:320-323 | `_sub` adds a room state, off, exactly for existing requested uids that were not yet followed |
| `Bilibili.SubscribedTimesAt` | cogs/bilibili.py:328-329 | `_sub` sets the push time exactly for uids that gained the channel |
| `Bilibili.Bilibili.CancelSub` | cogs/bilibili.py:335-350 | one reply per uid; afterwards a channel follows a uid exactly when it did before and was not cancelled; unrequested uids are untouched |
| `Bilibili.Bilibili.ScanFeed` | cogs/bilibili.py:142-155 | the push time is overwritten with now before the cards are read; the announced cards are the leading run no older than the previous push time |
| `Bilibili.AnnouncedRunUnique` | cogs/bilibili.py:148-155 | the scan's cut-off determines the announced run |
| `Bilibili.CheckSameSize` | cogs/bilibili.py:173-176 | the comparison loop answers exactly whether the first `n` pictures share one size |
| `Bilibili.ChooseLayout` | cogs/bilibili.py:168-201 | a 9-grid exactly when the first nine pictures share a size; otherwise a 6-grid exactly when the first six do; otherwise separate pictures only for 1 to 3 pictures |
| `Bilibili.NineGridIsSixGrid` | cogs/bilibili.py:168-187 | nine same-size pictures also qualify for the 6-grid test |
| `Bilibili.NextLiveState` | cogs/bilibili.py:273-282 | the live flag flips on only on status 1 and off only on status 0, and is unchanged otherwise |
| `Bilibili.Bilibili.CheckLive` | cogs/bilibili.py:271-284 | an unknown room or a failed query changes nothing; otherwise the room state follows the flip rule and the event reports the change |
| `Stats.CommandStats.constructor` | cogs/stats.py:74-82 | the batch starts empty, and so does the counter `setup` creates at :1079-1081, with its key order |
| `Stats.CommandStats.RegisterCommand` | cogs/stats.py:117-142 | a context without a command is ignored; otherwise the command's count goes up by exactly one, a new name joins the counter's order, and exactly one use is appended to the batch |
| `Stats.CommandStats.BulkInsert` | cogs/stats.py:96-101 | an empty batch is a no-op; a non-empty batch is written and then cleared, or kept when the write raises |
| `Stats.ItemsOf` | cogs/stats.py:178 | the counter's pairs, in insertion order |
| `Stats.MostCommon` | cogs/stats.py:183-185 | `most_common()` is a permutation of the pairs, most used first, and pairs with equal counts keep their order |
| `Sorting.SortDescStableAll` | cogs/stats.py:958 | stability holds for every key at once |
| `Sorting.SortDescStable` | cogs/stats.py:958 | `sorted(..., reverse=True)` keeps equal keys in their original order |
| `Sorting.SortDescSorted` | cogs/stats.py:1042-1045 | `sorted(..., reverse=True)` is in non-increasing key order |
| `Stats.CommandStatsView` | cogs/stats.py:178-185 | an empty counter fails; a positive limit gives the first `min(limit, n)` entries, 0 gives all, and `-k` gives the last `min(k, n)` |
| `Stats.CommandStats.CommandStatsNow` | cogs/stats.py:172-185 | `commandstats` on the live counter is `Stats.CommandStatsView` of its pairs in insertion order; its slices are proved about that function |
| `Stats.CommandStatsTop` | cogs/stats.py:182-183 | nothing left out of a top listing was used more than anything shown |
| `Stats.CommandStatsBottom` | cogs/stats.py:184-185 | nothing left out of a bottom listing was used less than anything shown |
| `Stats.StatsToday` | cogs/stats.py:494-503 | each row's count goes to exactly one of success, failed and unknown, by its state |
| `Stats.OutcomesPartition` | cogs/stats.py:494-503 | the three sums add up to the total of all counts |
| `Stats.CountAfterExtremes` | cogs/stats.py:749 | only dates strictly after yesterday are counted |
| `Stats.CountAfterMonotone` | cogs/stats.py:749 | a later cut-off never counts more |
| `Stats.BaseIssues` | cogs/stats.py:764-768 | no base issues up to ten IDENTIFYs per shard; beyond that `2 + total // 10 - shards`, at least two |
| `Stats.UnhealthyCount` | cogs/stats.py:775-782 | zero exactly when no shard is closed or has a failed task |
| `Stats.GatewayIssues` | cogs/stats.py:747-782 | the issue count is the base issues plus one per closed or failed shard, and zero exactly when IDENTIFYs are within limits and all shards are healthy |
| `Stats.GatewayColour` | cogs/stats.py:802-807 | green exactly at zero issues, orange below a quarter of the shard count, red otherwise |
| `Stats.OrangeNeedsEightShards` | cogs/stats.py:802-807 | orange needs at least eight shards |
| `Stats.KnownCommands` | cogs/stats.py:948-951 | the dict starts with each known command once, in first-appearance order, at 0 uses |
| `Common.Dedup` | cogs/stats.py:948-951 | dropping repeats keeps every item once and nothing else |
| `Common.DedupOrder` | cogs/stats.py:948-951 | the items without repeats come in the order of their first occurrences |
| `Stats.CommandUsage` | cogs/stats.py:948-956 | the dict's keys are the known commands in first-appearance order; only known names take their count from the records, the last record for a name wins, the rest stay at 0 |
| `Stats.UnusedNames` | cogs/stats.py:972 | a name is listed exactly when its row has zero uses |
| `Stats.UnusedNamesAppend` | cogs/stats.py:972 | listing distributes over the table, so names keep the table's order |
| `Stats.UnusedNamesSingle` | cogs/stats.py:972 | a single row is listed exactly when it has no uses |
| `Stats.UnusedText` | cogs/stats.py:972-974 | the "Unused" text never exceeds 1024 characters, and is replaced only when the joined names would |
| `Stats.CommandHistoryLog` | cogs/stats.py:948-974 | the usage table is `most_common` order of the known commands, taken in first-appearance order with their uses, so equal counts keep that order; it lists every known command once, with its uses, most used first, and the "Unused" text is the one built from that table |
| `Stats.ItemsOfUsage` | cogs/stats.py:948-958 | the dict's items are exactly each known command, in first-appearance order, with its uses |
| `Stats.UsageTableFacts` | cogs/stats.py:958 | the sorted table names each known command once, with its uses, and no more rows than commands |
| `Stats.DistinctNamesKept` | cogs/stats.py:958 | sorting the dict's items keeps each command name once |
| `Stats.CogOf` | cogs/stats.py:1034-1038 | a command the bot no longer has, or one outside any cog, falls in `No Cog`; any other in its cog's bucket |
| `Stats.AggregateByCog` | cogs/stats.py:1026-1045 | the rows are the dict of absorbed records sorted by total, so equal totals keep the dict's order; one row per cog that some record falls in, `No Cog` for a missing command or cog; each row holds its bucket's sums; the totals add up to the records' total |
| `Stats.GroupAllGrouped` | cogs/stats.py:1031-1038 | absorbing every record gives one row per used bucket, each holding its bucket's sums |
| `Stats.GroupAllFirstSeen` | cogs/stats.py:1031-1038 | the dict's rows come in the order in which their cogs first occur in the records |
| `Stats.AbsorbColumn` | cogs/stats.py:1033-1038 | absorbing a record opens a row at the end only for a cog with no row yet |
| `Stats.PermutationCogNames` | cogs/stats.py:1042-1045 | reordering rows keeps the set of cogs |
| `Stats.GroupedStep` | cogs/stats.py:1033-1038 | adding one record to its bucket keeps every row equal to its bucket's sums |
| `Stats.SortedGrouping` | cogs/stats.py:1042-1045 | sorting the rows keeps one row per cog and the grand total |
| `Common.SumByPermutation` | cogs/stats.py:1042-1045 | reordering rows does not change the sum of their totals |
| `Admin.CleanupCode` | cogs/admin.py:106-113 | outside a fence the result neither starts nor ends with a backtick, space or newline |
| `Admin.CleanupStripsOnlyFence` | cogs/admin.py:113 | only backticks, spaces and newlines are removed, from both ends |
| `Admin.CleanupFenced` | cogs/admin.py:109-110 | a fenced block with a language tag gives back exactly its body |
| `Strings.JoinSplit` | cogs/admin.py:110 | joining the pieces of a split gives back the string |
| `Admin.SplitExt` | cogs/admin.py:161 | root plus extension is the path, and the extension is empty or one dotted suffix of the last component |
| `Admin.ModuleOf` | cogs/admin.py:165-166 | a kept file's entry has depth at least 0 and a dotted name with no `/` |
| `Admin.ModulesOfMembers` | cogs/admin.py:159-166 | an entry is listed exactly when some `.py` file under `cogs/` produces it |
| `Admin.SortModules` | cogs/admin.py:168-169 | the sorted list is a permutation, with deeper and then larger names first |
| `Admin.FindModulesFromGit` | cogs/admin.py:157-169 | the reload list is the kept files' entries in descending order |
| `Admin.Admin.constructor` | cogs/admin.py:87-90 | no channel has a REPL session |
| `Admin.Admin.Repl` | cogs/admin.py:267-303 | a second `repl` in a channel with a session is refused with no change; otherwise the channel is held until a timeout or quit removes it |
| `Admin.MultistatementMeansTwoSemicolons` | cogs/admin.py:365-367 | a query is run as several statements exactly when its cleaned text holds two `;` |
| `Context.Tick` | cogs/context.py:107-116 | without a label the emoji alone; with one, the emoji, `: `, then the label |
| `Context.EmojiDistinct` | cogs/context.py:108-112 | the three states get different emoji |
| `Context.TickInjective` | cogs/context.py:107-116 | a labelled tick determines its state and its label |
| `Context.NameWidth` | cogs/context.py:36 | the width is the longest name's length |
| `Context.EntryToCode` | cogs/context.py:35-40 | an empty listing fails in `max` |
| `Context.EntryLinesAligned` | cogs/context.py:35-40 | every line puts `: ` in the same column, right after the widest name, starting with its own name |
| `Context.EntryToCodeLines` | cogs/context.py:35-40 | the listing opens with a fence line |
| `Context.Choice` | cogs/context.py:66-70 | no matches fail, a sole match is returned without prompting, and any choice is one of the matches |
| `Context.PickFrom` | cogs/context.py:82-94 | a chosen item is one of the matches; the errors are a timeout, too many tries, or the `ValueError` of `int()`, which needs a reply that `int()` rejects |
| `Context.PickFromFirstThree` | cogs/context.py:82-94 | only the first three replies matter |
| `Context.ZeroPicksLast` | cogs/context.py:89-90 | replying 0 picks the last match |
| `Context.TooManyTriesMeansThreeBadReplies` | cogs/context.py:82-94 | giving up means three replies came and all were out of range |
| `Context.Context.Disambiguate` | cogs/context.py:66-94 | the result is the choice rule; with two or more matches the connection is released before prompting and acquired again after, whatever error ends the choice |
| `Context.Context.constructor` | cogs/context.py:29-32 | no connection is held, so `db` is the pool |
| `Context.Context.Db` | cogs/context.py:99-101 | the held connection, or the pool when none is held |
| `Context.Context.Acquire` | cogs/context.py:103-106 | takes a connection only when none is held, and returns the held one |
| `Context.Context.Release` | cogs/context.py:133-147 | releases the held connection if any; afterwards none is held |

## Left out

- Image work is not modelled: `cv2.resize`, JPEG encoding, the crosshair block and the whole-map render. The model stops at the slice-and-pad arithmetic.
- The Bilibili picture grid composition is left out for the same reason.
- Concurrency is not modelled: asyncio locks, `tasks.loop` scheduling and the five-minute reminder. Draw, flush and tick are sequential method calls.
- Cooldowns come from the framework, so the rate-limit verdict of `process_commands` is a boolean input.
- SQL is not modelled except the `pixels` upsert. That table is a map keyed by `(x, y)`, and the other queries' rows are inputs.
- Network calls are inputs: the Bilibili API, `broadcast` and image upload. A failed Bilibili request is `None`.
- `upload_to_jd` is imported at cogs/bilibili.py:15 but never defined; the model does not depend on it.
- `make_big_image` returns `None`; the model does not depend on it.
- The config store (`cogs/utils/config.py`) is not part of this model. Prefixes and the blacklist are plain Dafny maps and sets, and its JSON turning integer keys into strings is not modelled.
- The palette (`cogs/pixel_war/enum.py`) is not part of this model. It is an opaque 32-entry sequence whose entry 31 is white.
- Running code, shells and subprocesses in the admin cog is not modelled, nor the regex over `git pull` output. `FindModulesFromGit` takes the file names the regex found.
- `Admin.Admin.Repl` models one session at a time. Concurrent sessions in other channels are not interleaved.
- `Context.Context.Disambiguate` models only replies that pass the `check` filter: digits from the author in the channel. Other messages are never seen by the loop. A reply that passes `isdigit()` but not `int()` is one reply kind; the error text is not modelled.
- `PixelWar.PixelWar.Tick` models a failed hydration fetch as a connection error. The flag stays set, so hydration is never retried in that run.
- `PixelWar.PixelWar.BulkInsert` follows the code, not a description that would drop the batch on failure. The batch is cleared only after the execute returns.
- `Stats.CommandStats.BulkInsert` does the same: a failed write keeps the batch.
- `Bot.Bot.ProcessCommands` leaves out `log_spammer` (bot.py:255-269). It logs a warning on every rate-limited message, which is logging. The embed is sent only on auto-ban, because without `auto_block` the function returns at bot.py:260-261.
- `Bilibili.Bilibili.CheckLive` does not model the message text or the broadcast. The go-live message at cogs/bilibili.py:277-278 reads `res['data']['live_room']`, but `res` there is the last dynamic-feed response (:142), which has no `live_room`. The `KeyError` is caught and logged at :286-287, so a go-live announcement is never sent, although the flag was already set at :275. `WentLive` records only that flag change. The go-offline message at :283-284 reuses whatever `url` the feed scan left behind.
- User names and display names are plain strings, with no Unicode normalisation.

## Findings

| source | as written | input that shows it | evidently intended | confidence | as-written member | corrected member |
|---|---|---|---|---|---|---|
| cogs/pixel_war/__init__.py:61-75 | the whole batch is sent as one `INSERT ... ON CONFLICT (x, y) DO UPDATE`, which PostgreSQL refuses when two rows reach the same key | two draws of cell (1, 1) within one ten-second flush window | the latest draw of each cell is persisted | not executed | `PixelWar.RepeatedCellIsRejected` | `PixelWar.LatestPerCellUpsert` |
| cogs/pixel_war/__init__.py:133 | trailing pad `max(0, x + r - max - 1)` | `max = 10`, centre 9, radius 3: slice 6..9 plus a 1-cell pad gives 5 cells, not 7 | trailing pad `max(0, x + r + 1 - max)`, a centred `2r+1` window | not executed | `PixelWar.WindowShortAtFarEdge` | `PixelWar.WindowIntendedSquare` |
| cogs/pixel_war/__init__.py:44 | the canvas is allocated with shape `[max_x, max_y]` but indexed `[y, x]` everywhere, and `view_canvas` bounds `y` by `max_y` | `max_x = 5`, `max_y = 10`, centre `(0, 8)`, radius 1: the window asks for rows 7 to 9, the 5-row array yields none, and `cv2.resize` raises on the empty image | shape `[max_y, max_x]`, so rows follow `y` and `max_y` | not executed | `PixelWar.ViewNonSquareDropsRows` | `PixelWar.ViewIntendedUnclipped` |
| cogs/pixel_war/__init__.py:119 | the centre check `0 <= x <= max_x` admits one past the last cell | `max_x = max_y = 10`, centre `(10, 0)`, radius 0: the slice has no column, the pads are 0, and `cv2.resize` raises on the empty image | `0 <= x < max_x`, a centre on the canvas | not executed | `PixelWar.ViewAtEdgeFails` | `PixelWar.ViewIntendedUnclipped` |
| cogs/pixel_war/__init__.py:151 | the guard `0 >= x >= max_x` is a chained comparison that holds only when `max_x <= x <= 0` | `max_x = 10`, `x = -1`: the guard passes, numpy wraps `-1` to column 9, and the ledger records the draw under `(-1, y)`, which `check_pixel(9, y)` does not find | `not 0 <= x < max_x`, so every draw names a cell by its own coordinates | not executed | `PixelWar.GuardLetsNegativeThrough` | `PixelWar.GuardIntendedNoWrap` |

The cog itself is modelled as written: a repeated cell makes `PixelWar.PixelWar.BulkInsert` report the rejection. The corrected members are what the round-trip lemma `PixelWar.FlushThenHydrate` and the window lemmas are stated over. The canvas also keeps its as-written shape `[max_x, max_y]`; `PixelWar.ViewCanvasIntended` is the view over the intended shape. The third finding does not arise while the configured canvas is square. `PixelWar.ViewCanvasIntended` also takes the corrected centre check of the fourth. The draw command keeps the guard as written, so the class models the wrap-around and the split ledger keys of the fifth finding.
