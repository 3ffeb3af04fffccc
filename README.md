# Dink notifier state machines in Dafny

This project models four notifiers of the Dink RuneLite plugin. Each turns game chat lines, tick pulses and variable changes into at most one notification per in-game event:

- **KillCountNotifier** builds a boss record from two kinds of chat line. A boss/count line (`Your Zulrah kill count is: 12.`) gives the name and count. A duration line (`Fight duration: 1:02.40 (new personal best)`) gives the time. The two partial records are merged field by field. On each tick the notifier either reports the record, after the interval / personal-best / first-kill gate, or drops a duration-only record once its bad-tick budget is spent.
- **DiaryNotifier** keeps a map from achievement-diary varbit id to the last value seen. Completion is `value > 1` for the three Karamja ids and `value > 0` for every other id. A regression or an unrecorded id clears everything. Notifications are throttled by a two-tick cooldown. A four-tick countdown after login seeds the map.
- **CollectionNotifier** keeps one counter of completed collection-log entries. It starts at the sentinel `-1` ("stale"), is seeded once from a varp, and goes up by one per "New item added to your collection log" line. Each report carries the counts only when the counter and the total are both positive.
- **SlayerNotifier** builds a task label from up to three chat lines: a boss-task line, the task line, and the points line that completes it. It reports the task when the points reach the configured threshold. A label left incomplete is dropped on the second tick.

## Structure

Each notifier is a module with three layers:

- **A class.** It holds the Java fields (`data`/`badTicks`, `diaryCompletionById`/`initDelayTicks`/`cooldownTicks`, `completed`, `slayerTask`/`badTicks`). Its methods update them in place (`modifies this`). Config getters and client reads (game state, varbit and varp values, thresholds, `isEnabled()`) are method parameters.
- **A value snapshot of that state and pure step functions.** Each method's `ensures` ties its new state and its output to a step function of the old state (`(State(), emitted) == Tick(old(State()), cfg)`).
- **Lemmas** that state what the source promises about the step functions: invariants kept, field-by-field merge, gates as if-and-only-if, tick budgets, cooldown windows, consecutive counts.

**Chat patterns.** Each `java.util.regex` pattern is a recogniser function that follows the engine's search order:
- `Matcher.find` tries start positions from the left (`Text.Leftmost`).
- A greedy `.+` gives characters back from the end of the line (`Text.Greedy`).
- `.` stops at line terminators, `$` also matches before a final line terminator, and `CASE_INSENSITIVE` folds ASCII letters only.

Each recogniser has a declarative "shape" predicate that states the pattern's layout. A pair of lemmas shows that the recogniser finds a match exactly when the line has that layout somewhere.

Module `Text` holds the Java string and number behaviour the notifiers rely on:
- `Integer.parseInt` on digit strings, failing above `Integer.MAX_VALUE`;
- `%`, which truncates toward zero;
- `trim`, `indexOf`, `lastIndexOf`, `replace`, `equalsIgnoreCase`.

Module `Wrappers` holds `Option`, used for Java's `null` and `Optional`.

## Model

Source paths are relative to the repository root.

| member | source | states |
|---|---|---|
| Text.ParseInt | src/main/java/dinkplugin/notifiers/KillCountNotifier.java:206 | `Integer.parseInt` on a captured number succeeds exactly when the string is non-empty, all ASCII digits and at most `Integer.MAX_VALUE`, and then yields the decimal value of those digits |
| Text.Leftmost | src/main/java/dinkplugin/notifiers/KillCountNotifier.java:189-191 | `find()` reports a match exactly when some start position in range matches, and the match it reports is that of such a position |
| Text.LeftmostAt | src/main/java/dinkplugin/notifiers/KillCountNotifier.java:189-191 | the reported match is the one at the leftmost start: no earlier position matches |
| Text.Greedy | src/main/java/dinkplugin/notifiers/KillCountNotifier.java:39 | a greedy `.+` succeeds exactly when some end in range lets the rest of the pattern match, and yields that end's match |
| Text.GreedyAt | src/main/java/dinkplugin/notifiers/KillCountNotifier.java:39 | the greedy end is the last one from which the rest of the pattern matches: no later end works |
| Text.LastIndexOf | src/main/java/dinkplugin/notifiers/KillCountNotifier.java:238 | `lastIndexOf(':')` is -1 exactly when there is no ':', and otherwise the index of a ':' with none after it |
| Text.IndexOf | src/main/java/dinkplugin/notifiers/SlayerNotifier.java:53 | `indexOf(' ')` is -1 exactly when there is no space, and otherwise the index of a space with none before it |
| Text.Remove | src/main/java/dinkplugin/notifiers/SlayerNotifier.java:98 | `replace(",", "")` leaves no comma, keeps every other character as often as it occurred, and leaves a comma-free string as it is |
| Text.RemoveAppend | src/main/java/dinkplugin/notifiers/SlayerNotifier.java:98 | removal works piece by piece, so the characters that stay keep their order |
| Text.TrimStart | src/main/java/dinkplugin/notifiers/DiaryNotifier.java:84 | `trim` drops a prefix of characters up to U+0020; what remains is empty or starts above U+0020 |
| Text.TrimEnd | src/main/java/dinkplugin/notifiers/DiaryNotifier.java:84 | `trim` drops a suffix of characters up to U+0020; what remains is empty or ends above U+0020 |
| KillCount.KindAt | src/main/java/dinkplugin/notifiers/KillCountNotifier.java:39 | the `type` alternative found is one of kill, chest, completion and is present at that position |
| KillCount.KindsExclusive | src/main/java/dinkplugin/notifiers/KillCountNotifier.java:39 | the three `type` words cannot overlap, so the alternative present is the one the engine takes |
| KillCount.CountAtSound | src/main/java/dinkplugin/notifiers/KillCountNotifier.java:39 | a count found by `(?<value>\d+)\b` is a non-empty digit run followed by the end of input or a non-word character |
| KillCount.CountAtComplete | src/main/java/dinkplugin/notifiers/KillCountNotifier.java:39 | any such digit run is found, and it is the whole run |
| KillCount.PrimaryTailSound | src/main/java/dinkplugin/notifiers/KillCountNotifier.java:39 | a tail PRIMARY_REGEX accepts after the key has the layout whitespace, type word, optional space, "count is: " and a count |
| KillCount.PrimaryTailComplete | src/main/java/dinkplugin/notifiers/KillCountNotifier.java:39 | any such layout after the key is accepted |
| KillCount.PrimaryCandidateSound | src/main/java/dinkplugin/notifiers/KillCountNotifier.java:39 | a key end the engine accepts yields a match in PRIMARY_REGEX's layout |
| KillCount.PrimaryAtSound | src/main/java/dinkplugin/notifiers/KillCountNotifier.java:39 | a match found at a start position has PRIMARY_REGEX's layout there |
| KillCount.PrimaryAtComplete | src/main/java/dinkplugin/notifiers/KillCountNotifier.java:39 | any layout of PRIMARY_REGEX at a start position is found there |
| KillCount.MatchPrimaryCorrect | src/main/java/dinkplugin/notifiers/KillCountNotifier.java:39 | `PRIMARY_REGEX.find()` succeeds exactly when the line has the pattern's layout somewhere, and its groups decompose the line (see also lines 189-191) |
| KillCount.SecondaryCandidateSound | src/main/java/dinkplugin/notifiers/KillCountNotifier.java:40 | a key end the engine accepts yields a match in SECONDARY_REGEX's layout |
| KillCount.SecondaryAtSound | src/main/java/dinkplugin/notifiers/KillCountNotifier.java:40 | a match found at a start position has SECONDARY_REGEX's layout there |
| KillCount.SecondaryAtComplete | src/main/java/dinkplugin/notifiers/KillCountNotifier.java:40 | any layout of SECONDARY_REGEX at a start position is found there |
| KillCount.MatchSecondaryCorrect | src/main/java/dinkplugin/notifiers/KillCountNotifier.java:40 | `SECONDARY_REGEX.find()` succeeds exactly when the line has the pattern's layout somewhere (see also line 195) |
| KillCount.TokenSound | src/main/java/dinkplugin/notifiers/KillCountNotifier.java:41 | `[\d:]+(.\d+)?` read from a digit or colon is the longest `[\d:]` run and, exactly when a non-terminator and a digit follow it, that character and the longest digit run |
| KillCount.TokenComplete | src/main/java/dinkplugin/notifiers/KillCountNotifier.java:41 | a token of that layout is read to its end and no further |
| KillCount.TimeAtSound | src/main/java/dinkplugin/notifiers/KillCountNotifier.java:41 | a TIME_REGEX match at a start position is a keyword (case-insensitive), an optional colon, a space, the longest `[\d:]` run and, exactly when a non-terminator and a digit follow it, that character and the longest digit run; the `time` group is the run and that fraction |
| KillCount.TimeAtComplete | src/main/java/dinkplugin/notifiers/KillCountNotifier.java:41 | any such layout at a start position is matched there, with that `time` group |
| KillCount.MatchTimeCorrect | src/main/java/dinkplugin/notifiers/KillCountNotifier.java:41 | `TIME_REGEX.find()` succeeds exactly when the line has the pattern's layout somewhere, and its `time` group is that layout's token (see also lines 178-179) |
| KillCount.ParsePrimaryBoss | src/main/java/dinkplugin/notifiers/KillCountNotifier.java:213-232 | a name survives exactly for "kill", for "chest" with Barrows, and for "completion" with either Gauntlet (ignoring case); kill and chest keep the name, and the Gauntlets become the Crystalline and Corrupted Hunllef |
| KillCount.ParseSecondary | src/main/java/dinkplugin/notifiers/KillCountNotifier.java:234-247 | the secondary name survives exactly for Wintertodt or when the text before its last ':' (if that is past index 0) is one of the four listed raids, ignoring case; it is kept unchanged |
| KillCount.ResultOf | src/main/java/dinkplugin/notifiers/KillCountNotifier.java:203-211 | a pair results exactly when the name is non-null and the count parses as an `int` |
| KillCount.ParseTime | src/main/java/dinkplugin/notifiers/KillCountNotifier.java:177-185 | a timing results exactly when TIME_REGEX finds a match; its flag says whether the lower-cased line contains "(new personal best)" |
| KillCount.Parse | src/main/java/dinkplugin/notifiers/KillCountNotifier.java:170-175 | a boss line takes precedence and yields a boss/count/message record; otherwise a duration line yields a time/personal-best record; otherwise nothing |
| KillCount.ParseBossNames | src/main/java/dinkplugin/notifiers/KillCountNotifier.java:187-201 | every name a boss line can yield is a kill's own key, Barrows, a Hunllef, Wintertodt or a listed raid |
| KillCount.Merge | src/main/java/dinkplugin/notifiers/KillCountNotifier.java:151-168 | into nothing pending, the update is taken whole; otherwise each of the five fields is the update's if non-null, else the pending one |
| KillCount.MergeNeverForgets | src/main/java/dinkplugin/notifiers/KillCountNotifier.java:158-165 | a merge never turns a known field of either record back into null |
| KillCount.MergeOrderIndependent | src/main/java/dinkplugin/notifiers/KillCountNotifier.java:156-165 | a boss record and a timing record merge to the same combined record in either order |
| KillCount.CheckKillInterval | src/main/java/dinkplugin/notifiers/KillCountNotifier.java:140-149 | the gate holds iff a configured personal best, a configured first kill, an interval of at most 1, or a count whose Java remainder by the interval is 0 |
| KillCount.IntervalGateOnCounts | src/main/java/dinkplugin/notifiers/KillCountNotifier.java:147-148 | for non-negative counts and an interval of at least 2, the gate is plain divisibility |
| KillCount.HandleKill | src/main/java/dinkplugin/notifiers/KillCountNotifier.java:96-103 | a notification is built iff boss and count are non-null and the gate holds; it carries the record as is |
| KillCount.StepsPreserveValid | src/main/java/dinkplugin/notifiers/KillCountNotifier.java:65-94 | messages and ticks keep badTicks within 0..10 and zero while nothing is pending |
| KillCount.TickEmitsOnlyNamedKills | src/main/java/dinkplugin/notifiers/KillCountNotifier.java:81-87 | a tick reports only a pending record with a boss and a count that pass the gate, and a tick that finds a boss name always resets |
| KillCount.DurationOnlyWaits | src/main/java/dinkplugin/notifiers/KillCountNotifier.java:88 | a duration-only record survives, unreported, while badTicks stays at most 10 |
| KillCount.DurationOnlyDropped | src/main/java/dinkplugin/notifiers/KillCountNotifier.java:50 | a duration-only record is cleared on the tick that takes badTicks past 10, with nothing reported (see also lines 88-92) |
| KillCount.TicksSplit | src/main/java/dinkplugin/notifiers/KillCountNotifier.java:81-94 | m + n ticks are m ticks followed by n ticks, reports concatenated |
| KillCount.DurationThenBoss | src/main/java/dinkplugin/notifiers/KillCountNotifier.java:81-94 | a duration line followed, within 10 ticks, by a boss line gives one report of the combined record on the next tick (see also lines 151-168) |
| KillCount.SameTickOrderIndependent | src/main/java/dinkplugin/notifiers/KillCountNotifier.java:151-168 | a boss line and a duration line in the same tick leave the same state in either order, whatever record is already pending |
| KillCount.KillCountNotifier.constructor | src/main/java/dinkplugin/notifiers/KillCountNotifier.java:52-53 | starts with nothing pending and badTicks 0 |
| KillCount.KillCountNotifier.Reset | src/main/java/dinkplugin/notifiers/KillCountNotifier.java:65-68 | clears the pending record and badTicks |
| KillCount.KillCountNotifier.UpdateData | src/main/java/dinkplugin/notifiers/KillCountNotifier.java:151-168 | the pending record becomes the merge of the old one with the update |
| KillCount.KillCountNotifier.OnGameMessage | src/main/java/dinkplugin/notifiers/KillCountNotifier.java:70-73 | when enabled, a parsed line is merged into the pending record; otherwise nothing changes |
| KillCount.KillCountNotifier.OnFriendsChatNotification | src/main/java/dinkplugin/notifiers/KillCountNotifier.java:75-79 | only a line starting with the raid-complete text is handled, as a game message |
| KillCount.KillCountNotifier.OnTick | src/main/java/dinkplugin/notifiers/KillCountNotifier.java:81-94 | the new state and the report are those of the tick step |
| Diary.IsCompleteMonotone | src/main/java/dinkplugin/notifiers/DiaryNotifier.java:195-203 | a higher varbit value of a complete diary is complete too |
| Diary.MessageBoxValue | src/main/java/dinkplugin/notifiers/DiaryNotifier.java:92-96 | the value a message box records (1, or 2 for the Karamja ids) is the least that counts as complete |
| Diary.CompleteIdsRemove | src/main/java/dinkplugin/notifiers/DiaryNotifier.java:170-182 | counting one id less lowers the total by one exactly when that id's recorded value is complete |
| Diary.SeedFromStores | src/main/java/dinkplugin/notifiers/DiaryNotifier.java:184-193 | seeding stores each table id's non-negative varbit value, keeps every other entry, and adds nothing else |
| Diary.SeedFromAdd | src/main/java/dinkplugin/notifiers/DiaryNotifier.java:186-191 | seeding one more id adds it exactly when its value is non-negative |
| Diary.SeedFromPointwise | src/main/java/dinkplugin/notifiers/DiaryNotifier.java:184-193 | a map that holds, id by id, what seeding would store is the seeded map |
| Diary.SeededOverAdd | src/main/java/dinkplugin/notifiers/DiaryNotifier.java:186-191 | storing one more id's non-negative value keeps that id-by-id description |
| Diary.SeedFromKeepsValid | src/main/java/dinkplugin/notifiers/DiaryNotifier.java:184-193 | seeding a valid map over the table ids keeps it valid: only table ids, non-negative values |
| Diary.SeedLoop | src/main/java/dinkplugin/notifiers/DiaryNotifier.java:186-191 | the loop over the table ids stores exactly what seeding describes |
| Diary.AreaAtSound | src/main/java/dinkplugin/notifiers/DiaryNotifier.java:28 | the `area` group found is non-empty, on one line, and followed by " area" |
| Diary.AreaAtComplete | src/main/java/dinkplugin/notifiers/DiaryNotifier.java:28 | any such area is found |
| Diary.DifficultyCandidateSound | src/main/java/dinkplugin/notifiers/DiaryNotifier.java:28 | a difficulty end the engine accepts yields a match in COMPLETION_REGEX's layout |
| Diary.CompletionAtSound | src/main/java/dinkplugin/notifiers/DiaryNotifier.java:28 | a match found at a start position has COMPLETION_REGEX's layout there |
| Diary.DifficultyCandidateComplete | src/main/java/dinkplugin/notifiers/DiaryNotifier.java:28 | a difficulty in COMPLETION_REGEX's layout is accepted at its end |
| Diary.CompletionAtComplete | src/main/java/dinkplugin/notifiers/DiaryNotifier.java:28 | any layout of COMPLETION_REGEX at a start position is found there |
| Diary.MatchCompletionCorrect | src/main/java/dinkplugin/notifiers/DiaryNotifier.java:28 | `COMPLETION_REGEX.find()` succeeds exactly when the line has the pattern's layout somewhere (see also lines 73-74) |
| Diary.ParseDifficulty | src/main/java/dinkplugin/notifiers/DiaryNotifier.java:75-82 | `valueOf(toUpperCase())` yields the tier whose name is the upper-cased text, and fails exactly when no tier has that name |
| Diary.Recognise | src/main/java/dinkplugin/notifiers/DiaryNotifier.java:73-84 | a completion line yields its tier and its trimmed area exactly when the pattern matches and the tier name is valid |
| Diary.Countdown | src/main/java/dinkplugin/notifiers/DiaryNotifier.java:58-59 | `Math.max(i - 1, 0)` is one less for a positive counter and 0 otherwise |
| Diary.Pick | src/main/java/dinkplugin/notifiers/DiaryNotifier.java:85-88 | `findAny` returns some element of a non-empty candidate set |
| Diary.VarbitPreservesValid | src/main/java/dinkplugin/notifiers/DiaryNotifier.java:104-142 | a varbit change keeps the map within the table, its values non-negative, and the counters within 0..4 and 0..2 |
| Diary.MessageBoxPreservesValid | src/main/java/dinkplugin/notifiers/DiaryNotifier.java:89-97 | a recognised message box keeps the same invariant |
| Diary.TickPreservesValid | src/main/java/dinkplugin/notifiers/DiaryNotifier.java:54-68 | a tick keeps the same invariant |
| Diary.RegressionResets | src/main/java/dinkplugin/notifiers/DiaryNotifier.java:119-127 | a lower value, or an id missing from a non-empty map, clears the map and both counters and reports nothing (see also lines 43-47) |
| Diary.VarbitIgnored | src/main/java/dinkplugin/notifiers/DiaryNotifier.java:105-116 | while the map is empty, for negative or non-diary ids, or while disabled, a varbit change changes nothing |
| Diary.VarbitIncrease | src/main/java/dinkplugin/notifiers/DiaryNotifier.java:128-141 | a higher value is stored, and a report goes out iff the value is complete, the tier is wanted and the cooldown is over; it carries the area, tier and new total (see also lines 144-148) |
| Diary.VarbitUnchanged | src/main/java/dinkplugin/notifiers/DiaryNotifier.java:118-141 | an equal value changes nothing |
| Diary.MessageBoxCompletes | src/main/java/dinkplugin/notifiers/DiaryNotifier.java:89-97 | the entry a message box resolves to is complete afterwards |
| Diary.CooldownWindow | src/main/java/dinkplugin/notifiers/DiaryNotifier.java:58 | a second handle in the same tick or one tick later reports nothing; two logged-in ticks later it reports again (see also lines 144-148) |
| Diary.SeededOnFifthTick | src/main/java/dinkplugin/notifiers/DiaryNotifier.java:59-67 | from the cleared state, the countdown starts at 4 and the map is seeded from the varbits on the fifth logged-in tick (see also lines 184-193) |
| Diary.MessageBoxIgnoresMinimum | src/main/java/dinkplugin/notifiers/DiaryNotifier.java:89-97 | as written, a message box reports an easy diary under a hard minimum, which the varbit path and the corrected step decline |
| Diary.MessageBoxRespectsMinimum | src/main/java/dinkplugin/notifiers/DiaryNotifier.java:131-136 | with the minimum applied, the message box reports iff the tier is wanted and the cooldown is over (see also lines 166-168) |
| Diary.DiaryNotifier.constructor | src/main/java/dinkplugin/notifiers/DiaryNotifier.java:29-31 | starts with an empty map and both counters at 0 |
| Diary.DiaryNotifier.Reset | src/main/java/dinkplugin/notifiers/DiaryNotifier.java:43-47 | clears the map and both counters, which satisfies the class invariant |
| Diary.DiaryNotifier.OnGameState | src/main/java/dinkplugin/notifiers/DiaryNotifier.java:49-52 | any state but logged-in resets |
| Diary.DiaryNotifier.GetTotalCompleted | src/main/java/dinkplugin/notifiers/DiaryNotifier.java:170-182 | the loop counts exactly the recorded entries whose value is complete |
| Diary.DiaryNotifier.InitCompleted | src/main/java/dinkplugin/notifiers/DiaryNotifier.java:184-193 | when enabled, the loop stores every table id's non-negative varbit value and leaves the counters alone |
| Diary.DiaryNotifier.OnTick | src/main/java/dinkplugin/notifiers/DiaryNotifier.java:54-68 | the new state is that of the tick step, and the class invariant is kept |
| Diary.DiaryNotifier.Handle | src/main/java/dinkplugin/notifiers/DiaryNotifier.java:144-164 | sets the cooldown to 2 and reports, with the current total, only if it was 0 |
| Diary.DiaryNotifier.OnVarbitChanged | src/main/java/dinkplugin/notifiers/DiaryNotifier.java:104-142 | the new state and the report are those of the varbit step, and the class invariant is kept |
| Diary.MessageBoxIds | src/main/java/dinkplugin/notifiers/DiaryNotifier.java:70-88 | the ids a message box may pick are table ids of the recognised tier whose area matches; none while disabled or when the line is not recognised |
| Diary.DiaryNotifier.OnMessageBox | src/main/java/dinkplugin/notifiers/DiaryNotifier.java:70-102 | an entry is chosen iff some table id qualifies for the line; then the state and the report are those of the corrected message-box step, and otherwise nothing changes |
| Diary.DiaryNotifier.RecordFound | src/main/java/dinkplugin/notifiers/DiaryNotifier.java:89-97 | the corrected step (see Findings): the found entry is recorded at its least complete value and handled only when its tier is wanted; the class invariant is kept |
| Collection.MatchCollectionIffContains | src/main/java/dinkplugin/notifiers/CollectionNotifier.java:27 | the pattern matches exactly when the line contains "New item added to your collection log: " (see also lines 103-104) |
| Collection.MatchCollectionItem | src/main/java/dinkplugin/notifiers/CollectionNotifier.java:27 | the item is what follows the first occurrence of that text, up to the end of its line (see also line 105) |
| Collection.Increment | src/main/java/dinkplugin/notifiers/CollectionNotifier.java:120 | `incrementAndGet` adds one, wrapping from `Integer.MAX_VALUE` to `Integer.MIN_VALUE` |
| Collection.Progress | src/main/java/dinkplugin/notifiers/CollectionNotifier.java:121-136 | the completed and total counts are both reported iff both are positive, and neither otherwise |
| Collection.ConsecutiveCounts | src/main/java/dinkplugin/notifiers/CollectionNotifier.java:117-120 | k items in a row from a known count c carry c + 1, ..., c + k in order (when the total is known), and the counter ends at c + k |
| Collection.StaleCounterReportsNoProgress | src/main/java/dinkplugin/notifiers/CollectionNotifier.java:120-122 | an item handled while the counter is stale carries no counts (see also lines 134-135) |
| Collection.PositiveCounterKept | src/main/java/dinkplugin/notifiers/CollectionNotifier.java:78 | once positive, the counter is overwritten neither by the varp nor by a logged-in tick (see also lines 94-97) |
| Collection.TickSeedsOnlyStale | src/main/java/dinkplugin/notifiers/CollectionNotifier.java:74-82 | a logged-in tick seeds only a negative counter from the varp, and a logged-out tick makes it stale |
| Collection.CollectionNotifier.constructor | src/main/java/dinkplugin/notifiers/CollectionNotifier.java:39 | the counter starts stale |
| Collection.CollectionNotifier.Reset | src/main/java/dinkplugin/notifiers/CollectionNotifier.java:63-67 | the counter becomes stale |
| Collection.CollectionNotifier.OnGameState | src/main/java/dinkplugin/notifiers/CollectionNotifier.java:69-72 | any state but logged-in makes the counter stale |
| Collection.CollectionNotifier.OnTick | src/main/java/dinkplugin/notifiers/CollectionNotifier.java:74-82 | the counter becomes that of the tick step |
| Collection.CollectionNotifier.OnVarPlayer | src/main/java/dinkplugin/notifiers/CollectionNotifier.java:84-98 | only the completed varp, and only while the counter is at most 0, replaces the counter |
| Collection.CollectionNotifier.OnChatMessage | src/main/java/dinkplugin/notifiers/CollectionNotifier.java:100-108 | an item is handed on iff enabled and the line contains the collection-log text; it is the matched item |
| Collection.CollectionNotifier.HandleNotify | src/main/java/dinkplugin/notifiers/CollectionNotifier.java:110-136 | the counter goes up by one and the report carries it and the total as the counter step says |
| Slayer.NameAtSound | src/main/java/dinkplugin/notifiers/SlayerNotifier.java:18 | the `name` group found is a non-empty one-line name followed by a full stop that ends the input |
| Slayer.DotEndUnique | src/main/java/dinkplugin/notifiers/SlayerNotifier.java:18 | a full stop followed by `$` can end the input at one place only |
| Slayer.NameAtComplete | src/main/java/dinkplugin/notifiers/SlayerNotifier.java:18 | a name in that layout is the one found |
| Slayer.TheLayout | src/main/java/dinkplugin/notifiers/SlayerNotifier.java:18 | the " the" alternative succeeds exactly when a name follows " the " |
| Slayer.TheNameAtSound | src/main/java/dinkplugin/notifiers/SlayerNotifier.java:18 | the name found after "against" follows " the " when some name follows " the ", and follows " " otherwise |
| Slayer.TheNameAtComplete | src/main/java/dinkplugin/notifiers/SlayerNotifier.java:18 | a name in that layout, with the greedy `(?: the)?` taking " the " first, is the one found |
| Slayer.TheNameShapeUnique | src/main/java/dinkplugin/notifiers/SlayerNotifier.java:18 | the layout after "against" fixes the name |
| Slayer.TheArticleDropped | src/main/java/dinkplugin/notifiers/SlayerNotifier.java:18 | when a name follows " the ", the group is that name, so "against the Kraken." gives "Kraken" and never "the Kraken" |
| Slayer.XpCandidateSound | src/main/java/dinkplugin/notifiers/SlayerNotifier.java:18 | an XP-text end the engine accepts yields a match in BOSS_REGEX's layout |
| Slayer.XpCandidateComplete | src/main/java/dinkplugin/notifiers/SlayerNotifier.java:18 | every layout's XP-text end lies on the line and the engine accepts it with that layout's name |
| Slayer.LongestXpAt | src/main/java/dinkplugin/notifiers/SlayerNotifier.java:18 | where every longer XP-text end fails, no layout of BOSS_REGEX has a longer `.+` |
| Slayer.BossAtSound | src/main/java/dinkplugin/notifiers/SlayerNotifier.java:18 | a match found at a start position has BOSS_REGEX's layout there, and no layout there has a longer `.+` |
| Slayer.BossAtFound | src/main/java/dinkplugin/notifiers/SlayerNotifier.java:18 | any layout of BOSS_REGEX at a start position makes the match succeed there |
| Slayer.BossShapeUnique | src/main/java/dinkplugin/notifiers/SlayerNotifier.java:18 | two layouts at one start with `.+` of one length have one name |
| Slayer.BossAtComplete | src/main/java/dinkplugin/notifiers/SlayerNotifier.java:18 | the layout at a start position with the longest `.+` gives exactly the name found there |
| Slayer.MatchBossCorrect | src/main/java/dinkplugin/notifiers/SlayerNotifier.java:18 | `BOSS_REGEX.find()` succeeds exactly when the line has the pattern's layout somewhere; the name it reports is that of the leftmost start with a layout, the longest `.+` there, and " the " dropped when a name follows it (see also lines 39-40) |
| Slayer.TaskMatch.Task | src/main/java/dinkplugin/notifiers/SlayerNotifier.java:20 | the `task` group always contains a space |
| Slayer.TaskAt | src/main/java/dinkplugin/notifiers/SlayerNotifier.java:20 | a task found at a start position has a count of digits and commas |
| Slayer.MatchTask | src/main/java/dinkplugin/notifiers/SlayerNotifier.java:20 | the same holds for the task `find()` reports (see also lines 47-49) |
| Slayer.TaskAtSound | src/main/java/dinkplugin/notifiers/SlayerNotifier.java:20 | a task found at a start position has SLAYER_TASK_REGEX's layout there: count, space, a run without full stops, then a full stop |
| Slayer.TaskAtComplete | src/main/java/dinkplugin/notifiers/SlayerNotifier.java:20 | any such layout at a start position is found there, with the same count and monster |
| Slayer.MatchTaskCorrect | src/main/java/dinkplugin/notifiers/SlayerNotifier.java:20 | `SLAYER_TASK_REGEX.find()` succeeds exactly when the line has the pattern's layout somewhere (see also lines 47-48) |
| Slayer.NumberBefore | src/main/java/dinkplugin/notifiers/SlayerNotifier.java:21 | a `[\d,]+` group found is a non-empty run of digits and commas |
| Slayer.ReceivedPointsCorrect | src/main/java/dinkplugin/notifiers/SlayerNotifier.java:21 | the `points` group is the number after " and received ", followed by " points, giving you a total of " and a number, exactly when that first alternative matches after "task(s)", and null otherwise |
| Slayer.ReceivedPointsSound | src/main/java/dinkplugin/notifiers/SlayerNotifier.java:21 | a `points` value found is that alternative's number |
| Slayer.ReceivedPointsComplete | src/main/java/dinkplugin/notifiers/SlayerNotifier.java:21 | that alternative's number is found whenever the alternative is there |
| Slayer.MaximumPointsCorrect | src/main/java/dinkplugin/notifiers/SlayerNotifier.java:21 | the `points2` group is the number inside " and reached the maximum amount of Slayer points (…)" exactly when that third alternative matches, and null otherwise |
| Slayer.MaximumPointsSound | src/main/java/dinkplugin/notifiers/SlayerNotifier.java:21 | a `points2` value found is that alternative's number |
| Slayer.MaximumPointsComplete | src/main/java/dinkplugin/notifiers/SlayerNotifier.java:21 | that alternative's number is found whenever the alternative is there, since the first two cannot match at the same place |
| Slayer.AlternativesExclusive | src/main/java/dinkplugin/notifiers/SlayerNotifier.java:21 | the three trailing alternatives cannot start at the same place, so trying them in order decides nothing |
| Slayer.TaskCountAtSound | src/main/java/dinkplugin/notifiers/SlayerNotifier.java:21 | the part before the trailing group, when found at a start position, is "You've completed ", an optional "at least ", the count, a space, an optional "Wilderness " and "task" |
| Slayer.TaskCountAtComplete | src/main/java/dinkplugin/notifiers/SlayerNotifier.java:21 | any such part at a start position is found there with that count |
| Slayer.NumberBeforeCorrect | src/main/java/dinkplugin/notifiers/SlayerNotifier.java:21 | a number is found before a terminator exactly when a non-empty digit/comma run sits right before it |
| Slayer.CompleteAtSound | src/main/java/dinkplugin/notifiers/SlayerNotifier.java:21 | a completion match at a start position has the optional "at least ", the count, a space, the optional "Wilderness " and "task" there, and its `points` and `points2` groups are those of the trailing alternatives |
| Slayer.CompleteAtComplete | src/main/java/dinkplugin/notifiers/SlayerNotifier.java:21 | any such layout at a start position is matched there with exactly those three groups |
| Slayer.MatchCompleteCorrect | src/main/java/dinkplugin/notifiers/SlayerNotifier.java:21 | `SLAYER_COMPLETE_REGEX.find()` succeeds exactly when the line has the pattern's layout somewhere, and its groups are that layout's (see also lines 62-63) |
| Slayer.PointsOf | src/main/java/dinkplugin/notifiers/SlayerNotifier.java:64-74 | the points are the `points` group, else `points2`, else "0", and always a non-empty number |
| Slayer.StripBossSuffix | src/main/java/dinkplugin/notifiers/SlayerNotifier.java:42 | a trailing " boss" is removed and nothing else changes |
| Slayer.Splice | src/main/java/dinkplugin/notifiers/SlayerNotifier.java:50-54 | the new label is never empty and, when a label was pending, ends with a space and that label |
| Slayer.SpliceKeepsCount | src/main/java/dinkplugin/notifiers/SlayerNotifier.java:20 | for a matched task, the text before its first space is exactly its kill count, so the new label is the task or the count, a space and the pending label (see also line 53) |
| Slayer.MeetsThreshold | src/main/java/dinkplugin/notifiers/SlayerNotifier.java:97-98 | the gate holds for a threshold of at most 0, and otherwise iff the points without commas parse and reach it; it fails exactly when parsing throws |
| Slayer.ChatPreservesValid | src/main/java/dinkplugin/notifiers/SlayerNotifier.java:36-79 | a chat line, whatever the patterns found in it, keeps badTicks within 0..1 and zero while no label is pending |
| Slayer.TickPreservesValid | src/main/java/dinkplugin/notifiers/SlayerNotifier.java:81-89 | a tick keeps the same invariant |
| Slayer.PartialLabelDropped | src/main/java/dinkplugin/notifiers/SlayerNotifier.java:81-89 | a pending label survives one tick and is dropped on the second |
| Slayer.IdleTicks | src/main/java/dinkplugin/notifiers/SlayerNotifier.java:83-88 | with no label pending, ticks change nothing |
| Slayer.BossLineStartsLabel | src/main/java/dinkplugin/notifiers/SlayerNotifier.java:38-45 | with no label pending, a boss line sets the label to the name without a trailing " boss" |
| Slayer.PendingLabelKept | src/main/java/dinkplugin/notifiers/SlayerNotifier.java:38-45 | with a label pending, a boss line, or any line that is neither a task nor a completion line, changes nothing |
| Slayer.TaskLineSplices | src/main/java/dinkplugin/notifiers/SlayerNotifier.java:47-56 | a task line sets an empty label to the task, and otherwise to the task's count, a space and the old label |
| Slayer.CompletionIgnoredWithoutLabel | src/main/java/dinkplugin/notifiers/SlayerNotifier.java:58-60 | with no label pending, a line that is neither a boss nor a task line changes nothing |
| Slayer.HandleNotifyResets | src/main/java/dinkplugin/notifiers/SlayerNotifier.java:91-98 | an empty label, points or count returns at once, changing nothing; otherwise a report goes out iff the threshold is off or met, and the state resets either way unless parsing threw (see also lines 112, 115-118) |
| Slayer.CompletionGateOn | src/main/java/dinkplugin/notifiers/SlayerNotifier.java:62-76 | a completion match reaching handleNotify with a pending label reports the label, count and points iff the gate holds, and resets unless parsing threw (see also lines 97-112) |
| Slayer.CompletionGate | src/main/java/dinkplugin/notifiers/SlayerNotifier.java:62-76 | a completion line with a pending label reports the label, count and points iff the gate holds, and resets unless parsing threw (see also lines 97-112) |
| Slayer.SlayerNotifier.constructor | src/main/java/dinkplugin/notifiers/SlayerNotifier.java:23-24 | starts with an empty label and badTicks 0 |
| Slayer.SlayerNotifier.Reset | src/main/java/dinkplugin/notifiers/SlayerNotifier.java:115-118 | clears the label and badTicks |
| Slayer.SlayerNotifier.HandleNotify | src/main/java/dinkplugin/notifiers/SlayerNotifier.java:91-113 | the new state and the outcome are those of the handle step |
| Slayer.SlayerNotifier.OnChatMessage | src/main/java/dinkplugin/notifiers/SlayerNotifier.java:36-79 | the new state and the outcome are those of the chat step |
| Slayer.SlayerNotifier.OnTick | src/main/java/dinkplugin/notifiers/SlayerNotifier.java:81-89 | the new state is that of the tick step |

## Left out

- Concurrency: the `AtomicReference`, `AtomicInteger` and `ConcurrentHashMap` fields are plain fields updated by sequential methods. `compareAndSet` in `onVarPlayer` always succeeds here.
- `TimeUtils.parseTime` and `TimeUtils.format` are not part of this model. The duration is kept as the matched `time` text, so a record's `time` field is that string rather than a `Duration`.
- Message assembly and dispatch are external: templates (`StringUtils.replaceEach`), `createMessage`, webhook URLs, screenshots, embeds, the NPC image lookup, item ids and prices, the player name, and logging.
- `clientThread.invokeLater` in `CollectionNotifier.onChatMessage`: `OnChatMessage` returns the item, and `HandleNotify` is its own step.
- The `AchievementDiary.DIARIES` table and `Utils.containsEither` are not part of this model. They are parameters: a map from id to area and tier, and a predicate.
- Diary.DiaryNotifier.InitCompleted: the loop visits the table ids in an unspecified order. The `ConcurrentHashMap` iteration order of `getTotalCompleted` is likewise not modelled; the counts do not depend on it.
- Diary.DiaryNotifier.OnMessageBox: it implements the corrected step (see Findings), so for a completion below the configured minimum it records the entry but does not report it, where the code as written reports it.
- Diary.DiaryNotifier.RecordFound: it is the corrected step used by OnMessageBox, so it checks the minimum tier before handling, which lines 89-97 as written do not.
- Unicode details of the regex engine and of `String`: `\b` is taken over ASCII word characters. `toUpperCase` and `equalsIgnoreCase` fold ASCII letters only (they differ for characters such as U+0131 and U+017F). `toUpperCase()` is modelled as upper-casing under `Locale.ROOT`: the JVM's default locale is not modelled. Under a Turkish or Azerbaijani default locale, "medium" and "elite" upper-case to "MEDİUM" and "ELİTE", `valueOf` throws, and DiaryNotifier.java:78-81 drops the line; the model accepts it.
- `BaseNotifier.isEnabled`, config getters, `client.getGameState`, `getVarbitValue` and `getVarpValue` are parameters.
- `DinkPlugin` event wiring and tag stripping, `QuestNotifier`, and the Death and Loot notifier tests are outside this model.
- Slayer.SlayerNotifier.OnChatMessage: a `NumberFormatException` from `parseInt` is returned as the `NumberFormatError` outcome with the state unchanged; in Java it propagates to the event bus.

## Findings

| source | as written | input that shows it | evidently intended | confidence | as-written member | corrected member |
|---|---|---|---|---|---|---|
| src/main/java/dinkplugin/notifiers/DiaryNotifier.java:89-97 | a completion from the message box is recorded and handled without `checkDifficulty`, unlike the varbit path at lines 131-136 | minimum tier HARD, table entry 1 = ("Lumbridge & Draynor", EASY), recorded value 0, cooldown 0: the message box "Congratulations! You have completed all of the easy tasks in the Lumbridge & Draynor area" reports, while the varbit change 0 → 1 for the same diary does not | a completion below the minimum tier is recorded but not reported, whichever path sees it first | medium; not executed | Diary.MessageBoxIgnoresMinimum | Diary.MessageBoxRespectsMinimum |
