# Wonder Academy progress model

A Dafny model of the data core of Wonder Academy, a learning app for children with a Math
World and a Reading Land. The model covers:

- **The in-memory record stores.** These are learner profiles, game-completion records,
  story-progress records, rewards, the game catalogue and the story library. Each is a class
  whose `seq` field of records `create`, `update` and `delete` replace with the changed
  list (the JavaScript arrays are changed in place):
  - lookups raise "… not found" errors;
  - new ids come from `getNextId` (the largest id plus one);
  - the story-progress `create` is an upsert keyed by (profileId, storyId);
  - the rewards `update` is an upsert keyed by profileId.
- **The analytics service.** It takes a one-time snapshot of the game and story records and
  builds from it:
  - daily, weekly and monthly progress buckets;
  - the Math World / Reading Land split;
  - the most-played ranking.
- **The rules inside the pages:**
  - the game page: question generation, the answer step, and the stars and coins reward;
  - the story reader: the page cursor, the restored page, and the completion flag written
    on every save;
  - the derived figures of the home page, the progress page and the parent dashboard.

A record is a JavaScript object, modelled as `map<string, Value>`. The object spread
`{ ...a, ...b }` is therefore the map union `a + b`. `Value` covers `undefined`, `null`,
booleans, integer numbers, NaN, strings and arrays. `===` is structural on the scalar values the
stores and pages compare; NaN equals nothing (arrays are under "## Left out"). Truthiness is exact. `parseInt` and `Number(…)` are written out for
the integer, word, decimal, `0x` and array forms the stores meet. `+` is numeric addition
only: it does not concatenate text or arrays. The forms left out are listed under
"## Left out".

The following are parameters of the operations that use them:

- the current instant, as integer milliseconds read in UTC;
- each `Math.random()` draw, a real in [0, 1);
- the results of the store reads the analytics service awaits;
- date-fns month arithmetic.

The model follows the code where the documented intent differs from it:

- **Buckets drop boundary instants.** Every window is open at both ends
  (`isAfter(t, start) && isBefore(t, end)`). An event at exactly midnight, or at the last
  millisecond of a period, is counted in no bucket. Consecutive buckets therefore do not
  quite cover the whole range. `AnalyticsPeriods.DailyGamesTotal` states exactly what the
  daily buckets add up to.
- **Months are rolling.** A month bucket starts on today's day of the month, not on the 1st.
- **Stories are dated by `createdAt`.** A story is dated by when its progress record was
  first created, not by when it was completed.
- **The game page reads stale state.** It decides between the next question and the end of
  the game using the position and lives as they were before the answer. It also computes the
  stars from the score before the last answer. `GamePlay.Answer` and
  `GamePlay.GameSession.AnswerSelect` model this as written, and
  `GamePlay.LastAnswerNotRewarded` shows the consequence.

## Model

| member | source | states |
|---|---|---|
| JsValues.ParseIntText | src/services/api/storyProgressService.js:15 | `parseInt` on text gives a number or NaN, and NaN exactly when, after white space and a sign, no digit (or no hexadecimal digit after `0x`) follows |
| JsValues.ParseInt | src/services/api/storyProgressService.js:15 | `parseInt(v)`: a number comes back unchanged, text is read as `ParseIntText` reads it, `undefined`, `null`, booleans and NaN give NaN |
| JsValues.ToNumber | src/services/api/storyProgressService.js:70 | `Number(v)`: a number or NaN, a number or NaN unchanged, text read as a trimmed numeral, and an array read through its joined text |
| JsValues.Plus | src/services/api/storyProgressService.js:70 | `a + b` is a number exactly when both operands convert to numbers, and then it is their sum (numeric addition only; concatenation is under Left out) |
| JsValues.ParseIntOfText | src/services/api/storyProgressService.js:15 | `parseInt(String(n)) === n` for every integer, so looking up an id by its text form finds the same record |
| JsValues.ToNumberOfText | src/services/api/storyProgressService.js:70 | `Number(String(n))` is `n` for every integer |
| JsValues.DigitsValueOfNatText | src/services/api/storyProgressService.js:15 | the decimal numeral of a natural number reads back as that number |
| JsValues.ParseIntReadsText | src/services/api/storyProgressService.js:15 | `parseInt(v)` reads the text `String(v)` for every value |
| JsValues.ParseIntTextDigits | src/services/api/storyProgressService.js:15 | `parseInt` reads a digit run, with or without a minus sign, and stops at the first character after it that is neither a digit nor an `x` |
| JsValues.ParseIntTextPrefix | src/services/api/storyProgressService.js:15 | `parseInt(String(n) + rest)` is `n` when `rest` does not continue the numeral: `parseInt('12px')` is 12 |
| JsValues.ParseIntTextOfWord | src/services/api/storyProgressService.js:15 | text starting with a letter is NaN to `parseInt` |
| JsValues.ParseIntTextHex | src/services/api/storyProgressService.js:15 | `parseInt('0x' + hs)` is the hexadecimal value of the digits `hs` |
| JsValues.ParseIntOfArray | src/services/api/storyProgressService.js:15 | `parseInt([n, …])` is `n`: the array's text starts with the first number |
| JsValues.NumberOfDecimal | src/services/api/storyProgressService.js:70 | `Number` reads a decimal numeral, with or without a minus sign, as its value |
| JsValues.CommaIsNaN | src/services/api/storyProgressService.js:70 | text holding a comma is NaN to `Number` |
| JsValues.LetterIsNaN | src/services/api/gamesService.js:59 | text starting with a lower-case letter, as the catalogue's game ids do, is NaN to `Number` |
| JsValues.ToNumberOfArray | src/services/api/storyProgressService.js:70 | `Number([])` is 0, `Number([x])` is `Number(x)` for a number or text, and an array of two or more items is NaN |
| Query.Filter | src/services/api/storyProgressService.js:24 | `filter` returns no more records than it was given, and each one passes the callback |
| Query.FindIndex | src/services/api/storyProgressService.js:51 | `findIndex` returns -1 or a passing position, and no earlier record passes |
| Query.MaxId | src/services/api/storyProgressService.js:70 | `Math.max(...ids, 0)` is a number exactly when every id converts to one; it is then at least 0, at least every id, and one of the ids unless it is 0 |
| Query.NextId | src/services/api/storyProgressService.js:69-71 | `getNextId` is at least 1 and above every id when all ids are numbers, and NaN otherwise |
| Query.FilterConcat | src/services/api/storyProgressService.js:24 | filtering keeps the store's order: filtering a concatenation filters each part |
| Query.FilterMultiset | src/services/api/storyProgressService.js:24 | filtering keeps every passing record as often as it occurs and drops every other record |
| Query.FilterElements | src/services/api/storyProgressService.js:24 | a record is in the filtered list exactly when it is in the store and passes |
| Query.FindIndexInFilter | src/components/pages/StoryReader.jsx:43-44 | `find` on a learner's filtered records finds the first store record that matches both the learner and the story |
| Query.SumStarsConcat | src/services/api/analyticsService.js:53 | the star sum (a missing `starsEarned` counted as 0) of a concatenation is the sum of the two parts' star sums |
| Query.StarsOrZeroMeaning | src/services/api/analyticsService.js:53 | `game.starsEarned || 0` is the stars themselves when they are a number, and 0 when they are missing, falsy or not numeric; text and arrays count as their `Number` (concatenation is under Left out) |
| Query.SumStarsBounds | src/services/api/analyticsService.js:53 | records of zero to three stars each add up to between 0 and three stars per record |
| Query.SpliceOne | src/services/api/storyProgressService.js:65 | `splice(i, 1)` removes exactly the record at `i`, keeps the others in order, and takes one copy out of the store's multiset |
| Clock.StartOfDay | src/services/api/analyticsService.js:36 | `startOfDay` is midnight of the instant's own day, at or before the instant |
| Clock.EndOfDay | src/services/api/analyticsService.js:37 | `endOfDay` is the last millisecond of the same day |
| Clock.DayShift | src/services/api/analyticsService.js:35 | `subDays`/`addDays` by k moves the day number by k and keeps the time of day |
| Clock.StrictlyInsideDay | src/services/api/analyticsService.js:41 | strictly between a day's start and end lie exactly that day's instants except its first and last millisecond |
| Clock.DateOf | src/services/api/analyticsService.js:40 | `new Date(v)` is an instant exactly for a number (that many milliseconds), `null` (the epoch) and a boolean (0 or 1 ms); anything else is an Invalid Date |
| StoryProgressStore.Upsert | src/services/api/storyProgressService.js:27-47 | `create` keeps the length when the pair exists and otherwise adds one record; the returned record is in the store |
| StoryProgressStore.UpsertMerges | src/services/api/storyProgressService.js:33-37 | for an existing pair, the input is merged into the first record of the pair. The input's fields win, the old `Id` and `createdAt` stay, and no other record changes |
| StoryProgressStore.UpsertAppends | src/services/api/storyProgressService.js:39-46 | for a new pair, exactly one record is appended. It carries the input, a fresh `createdAt`, and `getNextId()` as its `Id` unless the input brings one |
| StoryProgressStore.MergeKeepsPair | src/services/api/storyProgressService.js:35 | merging an input into the record of its own pair keeps the pair fields |
| StoryProgressStore.UpsertKeepsPairsUnique | src/services/api/storyProgressService.js:29-46 | `create` never gives a (profileId, storyId) pair a second record |
| StoryProgressStore.UpsertThenFind | src/services/api/storyProgressService.js:29-46 | after `create`, searching for the pair finds the record `create` returned (when neither key is NaN) |
| StoryProgressStore.StoryProgressService.constructor | src/services/api/storyProgressService.js:4-6 | the store starts as the seed records |
| StoryProgressStore.StoryProgressService.GetAll | src/services/api/storyProgressService.js:8-11 | returns the whole store, in order |
| StoryProgressStore.StoryProgressService.GetById | src/services/api/storyProgressService.js:13-20 | returns the first record with `Id === parseInt(id)`, or the "Story progress not found" error exactly when there is none |
| StoryProgressStore.StoryProgressService.GetByProfileId | src/services/api/storyProgressService.js:22-25 | returns exactly the learner's records, in store order |
| StoryProgressStore.StoryProgressService.Create | src/services/api/storyProgressService.js:27-47 | the store and result are those of the upsert, and a store without duplicate pairs keeps having none |
| StoryProgressStore.StoryProgressService.Update | src/services/api/storyProgressService.js:49-57 | merges into the first record with that id and leaves every other record alone; an unknown id raises the error and changes nothing |
| StoryProgressStore.StoryProgressService.Delete | src/services/api/storyProgressService.js:59-67 | removes exactly the first record with that id and keeps the rest in order; an unknown id raises the error and changes nothing |
| StoryProgressStore.StoryProgressService.GetNextId | src/services/api/storyProgressService.js:69-71 | the next id exceeds every stored id, or is NaN when some id is not a number |
| GameProgressStore.GameProgressService.constructor | src/services/api/gameProgressService.js:4-6 | the store starts as the seed records |
| GameProgressStore.GameProgressService.GetAll | src/services/api/gameProgressService.js:8-11 | returns the whole store, in order |
| GameProgressStore.GameProgressService.GetById | src/services/api/gameProgressService.js:13-20 | returns the first record with `Id === parseInt(id)`, or "Game progress not found" exactly when there is none |
| GameProgressStore.GameProgressService.GetByProfileId | src/services/api/gameProgressService.js:22-25 | returns exactly the learner's records, in store order |
| GameProgressStore.GameProgressService.Create | src/services/api/gameProgressService.js:27-36 | always appends one record, with no de-duplication; its id is `getNextId()` unless the input brings one |
| GameProgressStore.GameProgressService.Update | src/services/api/gameProgressService.js:38-46 | merges into the matched record only, or raises the error and changes nothing |
| GameProgressStore.GameProgressService.Delete | src/services/api/gameProgressService.js:48-56 | removes exactly the matched record, or raises the error and changes nothing |
| GameProgressStore.GameProgressService.GetNextId | src/services/api/gameProgressService.js:58-60 | the next id exceeds every stored id, or is NaN |
| RewardsStore.RewardOf | src/services/api/rewardsService.js:22-30 | when the learner has a record, returns the first one in store order; otherwise a record holding only the learner, zero stars, zero coins and no badges |
| RewardsStore.UpsertReward | src/services/api/rewardsService.js:43-60 | `update` keeps the length for a known learner and adds one record for an unknown learner |
| RewardsStore.UpsertRewardMerges | src/services/api/rewardsService.js:58-59 | for a known learner, the first record is merged in place and nothing else changes |
| RewardsStore.UpsertRewardAppends | src/services/api/rewardsService.js:45-56 | for an unknown learner, exactly one record is appended. It carries the learner, the updates, a fresh `createdAt`, and the next id unless the updates bring one |
| RewardsStore.UpsertThenRead | src/services/api/rewardsService.js:24-59 | reading a learner back after `update` gives the record `update` returned |
| RewardsStore.RewardsService.constructor | src/services/api/rewardsService.js:4-6 | the store starts as the seed records |
| RewardsStore.RewardsService.GetAll | src/services/api/rewardsService.js:8-11 | returns the whole store, in order |
| RewardsStore.RewardsService.GetById | src/services/api/rewardsService.js:13-20 | returns the first record with that id, or "Reward not found" exactly when there is none |
| RewardsStore.RewardsService.GetByProfileId | src/services/api/rewardsService.js:22-30 | returns the learner's reward record, or the default, and stores nothing |
| RewardsStore.RewardsService.Create | src/services/api/rewardsService.js:32-41 | always appends one record with the next id |
| RewardsStore.RewardsService.Update | src/services/api/rewardsService.js:43-60 | the store and result are those of the upsert keyed by learner |
| RewardsStore.RewardsService.Delete | src/services/api/rewardsService.js:62-70 | removes exactly the matched record, or raises "Reward not found" and changes nothing |
| RewardsStore.RewardsService.GetNextId | src/services/api/rewardsService.js:72-74 | the next id exceeds every stored id, or is NaN |
| ProfileStore.NewProfile | src/services/api/profileService.js:22-30 | a new profile has zero stars and zero coins whatever the input says. It keeps every other input field, and its `Id` is the next id unless the input brings one |
| ProfileStore.ProfileService.constructor | src/services/api/profileService.js:4-6 | the store starts as the seed profiles |
| ProfileStore.ProfileService.GetAll | src/services/api/profileService.js:8-11 | returns the whole store, in order |
| ProfileStore.ProfileService.GetById | src/services/api/profileService.js:13-20 | returns the first profile with `Id === parseInt(id)`, or "Profile not found" exactly when there is none |
| ProfileStore.ProfileService.Create | src/services/api/profileService.js:22-33 | appends exactly the new profile |
| ProfileStore.ProfileService.Update | src/services/api/profileService.js:35-43 | merges into the matched profile only, or raises the error and changes nothing |
| ProfileStore.ProfileService.Delete | src/services/api/profileService.js:45-53 | removes exactly the matched profile, or raises the error and changes nothing |
| ProfileStore.ProfileService.GetNextId | src/services/api/profileService.js:55-57 | the next id exceeds every stored id, or is NaN |
| GamesStore.NextIdOfTextIds | src/services/api/gamesService.js:58-60 | with a text id such as `'counting'` in the catalogue, `getNextId` is NaN |
| GamesStore.GamesService.constructor | src/services/api/gamesService.js:4-6 | the catalogue starts as the seed games |
| GamesStore.GamesService.GetAll | src/services/api/gamesService.js:8-11 | returns the whole catalogue, in order |
| GamesStore.GamesService.GetById | src/services/api/gamesService.js:13-20 | returns the first game whose `Id === id` (no `parseInt`), or "Game not found" exactly when there is none |
| GamesStore.GamesService.GetByType | src/services/api/gamesService.js:22-25 | returns exactly the games of that type, in order |
| GamesStore.GamesService.Create | src/services/api/gamesService.js:27-36 | appends exactly one game |
| GamesStore.GamesService.Update | src/services/api/gamesService.js:38-46 | merges into the matched game only, or raises the error and changes nothing |
| GamesStore.GamesService.Delete | src/services/api/gamesService.js:48-56 | removes exactly the matched game, or raises the error and changes nothing |
| GamesStore.GamesService.GetNextId | src/services/api/gamesService.js:58-60 | the next id exceeds every id when all ids are numbers, and is NaN otherwise |
| StoriesStore.StoriesService.constructor | src/services/api/storiesService.js:4-6 | the library starts as the seed stories |
| StoriesStore.StoriesService.GetAll | src/services/api/storiesService.js:8-11 | returns the whole library, in order |
| StoriesStore.StoriesService.GetById | src/services/api/storiesService.js:13-20 | returns the first story whose `Id === id`, or "Story not found" exactly when there is none |
| StoriesStore.StoriesService.Create | src/services/api/storiesService.js:22-31 | appends exactly one story |
| StoriesStore.StoriesService.Update | src/services/api/storiesService.js:33-41 | merges into the matched story only, or raises the error and changes nothing |
| StoriesStore.StoriesService.Delete | src/services/api/storiesService.js:43-51 | removes exactly the matched story, or raises the error and changes nothing |
| StoriesStore.StoriesService.GetNextId | src/services/api/storiesService.js:53-55 | the next id exceeds every id when all are numbers, and is NaN otherwise |
| Analytics.InitializeOnce | src/services/api/analyticsService.js:12-20 | once `initialize` has succeeded, later calls read nothing, change nothing and succeed |
| Analytics.InitializeOutcome | src/services/api/analyticsService.js:12-25 | `initialize` succeeds exactly when the service was already initialized or both reads succeed. The snapshot and the flag are set together. A failure rethrows a read's error and leaves the flag false |
| Analytics.TallyByGame | src/services/api/analyticsService.js:157-171 | the tally loop builds exactly the first-seen order of the game ids and each game's plays and star total |
| Analytics.WithAverages | src/services/api/analyticsService.js:173-177 | the averaging loop turns the tally into one entry per game, each with its rounded average |
| Analytics.AnalyticsService.constructor | src/services/api/analyticsService.js:6-10 | the service starts empty and not initialized |
| Analytics.AnalyticsService.Initialize | src/services/api/analyticsService.js:12-25 | the new fields and the outcome are those `Analytics.InitializeOutcome` describes |
| Analytics.AnalyticsService.GetDailyProgress | src/services/api/analyticsService.js:27-59 | the loop returns the daily report over the snapshot, or the initialization error |
| Analytics.AnalyticsService.GetWeeklyProgress | src/services/api/analyticsService.js:61-92 | the loop returns the weekly report over the snapshot, or the initialization error |
| Analytics.AnalyticsService.GetMonthlyProgress | src/services/api/analyticsService.js:94-125 | the loop returns the monthly report over the snapshot, or the initialization error |
| Analytics.AnalyticsService.GetWorldDistribution | src/services/api/analyticsService.js:127-152 | returns the world split of the snapshot, or the initialization error |
| Analytics.AnalyticsService.GetTopGames | src/services/api/analyticsService.js:154-180 | returns the ranking `AnalyticsRanking.TopGamesMeaning` describes, or the initialization error |
| AnalyticsPeriods.Report | src/services/api/analyticsService.js:49-55 | one bucket per window |
| AnalyticsPeriods.BucketOf | src/services/api/analyticsService.js:39-55 | a bucket carries its window's label, at most as many games and stories as there are records, and five minutes per game plus ten per story |
| AnalyticsPeriods.DayWindow | src/services/api/analyticsService.js:35-37 | a day's window starts at that day's midnight, ends one day less a millisecond later, holds the day, and carries the day's label |
| AnalyticsPeriods.WeekWindow | src/services/api/analyticsService.js:69-70 | week i is labelled "Week i+1" and spans seven days from a midnight, less a millisecond |
| AnalyticsPeriods.MonthWindow | src/services/api/analyticsService.js:102-103 | a month window starts at a midnight, carries its start as its label, and ends just before midnight of the anchor one month later |
| AnalyticsPeriods.DailyProgress | src/services/api/analyticsService.js:27-59 | `getDailyProgress(days)` has one consistent bucket per day, oldest first, bucket i labelled with the day `days - 1 - i` days back |
| AnalyticsPeriods.WeeklyProgress | src/services/api/analyticsService.js:61-92 | `getWeeklyProgress(weeks)` has one consistent bucket per week, labelled "Week 1" onwards |
| AnalyticsPeriods.MonthlyProgress | src/services/api/analyticsService.js:94-125 | `getMonthlyProgress(months)` has one consistent bucket per month, each labelled with its month's start |
| AnalyticsPeriods.GameCounted | src/services/api/analyticsService.js:39-42 | a game counts in a window exactly when its `completedAt` is strictly inside it; a game exactly at either boundary counts nowhere |
| AnalyticsPeriods.StoryCounted | src/services/api/analyticsService.js:44-47 | a story counts exactly when it is completed and its `createdAt` is strictly inside the window |
| AnalyticsPeriods.ReportConsistent | src/services/api/analyticsService.js:49-55 | every bucket has `estimatedTime = 5 × games + 10 × stories`, the label of its window, and the star sum of its games with a missing value as 0 |
| AnalyticsPeriods.DailyShape | src/services/api/analyticsService.js:34-37 | `days` entries (none when `days <= 0`) from oldest to today. Entry i is the day `days - 1 - i` days before now and spans exactly that day |
| AnalyticsPeriods.DailyGrow | src/services/api/analyticsService.js:34-37 | asking for one more day puts the older day in front and leaves the other entries as they were |
| AnalyticsPeriods.DayWindowCount | src/services/api/analyticsService.js:36-41 | counting inside a day's window counts that day's events except its first and last millisecond |
| AnalyticsPeriods.DayBucket | src/services/api/analyticsService.js:36-47 | a day's bucket counts the games completed that day and the completed stories created that day |
| AnalyticsPeriods.DailyGamesTotal | src/services/api/analyticsService.js:34-51 | the daily games add up to the games completed on one of the requested days, each counted once (the two boundary milliseconds of each day excepted) |
| AnalyticsPeriods.DailyStoriesTotal | src/services/api/analyticsService.js:34-52 | the daily stories add up to the completed stories created on one of the requested days, each counted once |
| AnalyticsPeriods.WeeklyShape | src/services/api/analyticsService.js:68-83 | week i is labelled "Week i+1" and starts at midnight `weeks - 1 - i` weeks ago. It spans seven days less its two boundary milliseconds. Consecutive weeks are seven days apart and do not overlap |
| AnalyticsPeriods.WeeksDisjoint | src/services/api/analyticsService.js:68-75 | no game is counted in two different weeks |
| AnalyticsPeriods.MonthlyShape | src/services/api/analyticsService.js:101-116 | month i is labelled with its own start. It starts at midnight of the anchor `addMonths` gives for `months - 1 - i` months back, and ends at the last millisecond before midnight of the next anchor |
| AnalyticsPeriods.MonthsAbut | src/services/api/analyticsService.js:102-103 | when the calendar does not clamp the day, consecutive months meet with no gap |
| AnalyticsWorlds.TablesDisjoint | src/services/api/analyticsService.js:130-136 | no game counts for both worlds |
| AnalyticsWorlds.WorldDistribution | src/services/api/analyticsService.js:127-152 | Math World has at most one activity per game record and five minutes per activity; Reading Land has at most one per game or story record and between five and ten minutes per activity |
| AnalyticsWorlds.DistributionMeaning | src/services/api/analyticsService.js:127-152 | Math World counts its own games at five minutes each. Reading Land counts its games plus the completed stories, at five and ten minutes. Stars come from games only, so the stories never change a star count |
| AnalyticsWorlds.OtherGameIgnored | src/services/api/analyticsService.js:130-136 | a game in neither table changes nothing |
| AnalyticsWorlds.MathGameAdds | src/services/api/analyticsService.js:130-145 | one more math game adds one activity, five minutes and its stars to Math World only |
| AnalyticsWorlds.ReadingGameAdds | src/services/api/analyticsService.js:134-150 | one more reading game adds one activity, five minutes and its stars to Reading Land only |
| AnalyticsWorlds.StoryAdds | src/services/api/analyticsService.js:138-150 | a completed story adds one activity, ten minutes and no stars to Reading Land; an unfinished story changes nothing |
| AnalyticsRanking.Distinct | src/services/api/analyticsService.js:159-167 | every played game id appears among the dictionary keys, and none appears twice |
| AnalyticsRanking.AverageTenths | src/services/api/analyticsService.js:174 | the average in tenths is the tenth nearest to total / played, with a half rounded up as `Math.round` does |
| AnalyticsRanking.AveragedTally | src/services/api/analyticsService.js:173-175 | a game's entry is its tally with the rounded average added |
| AnalyticsRanking.Counted | src/services/api/analyticsService.js:159-171 | one step of the tally adds the record's game id to the keys and no other key |
| AnalyticsRanking.TallyAppend | src/services/api/analyticsService.js:169-170 | one more record adds one play and its stars to its own game's tally only |
| AnalyticsRanking.TallyOfMeaning | src/services/api/analyticsService.js:157-171 | the tally pass ends with the first-seen id order and, for each id, its play count and star total |
| AnalyticsRanking.Stats | src/services/api/analyticsService.js:173-177 | one entry per distinct game id |
| AnalyticsRanking.StatsCover | src/services/api/analyticsService.js:157-177 | every played game has an entry and no game has two |
| AnalyticsRanking.StatsEntries | src/services/api/analyticsService.js:157-177 | each entry was played at least once and carries its game's play count, its star total and the rounded average |
| AnalyticsRanking.SortSorted | src/services/api/analyticsService.js:178 | the sort puts the most played first |
| AnalyticsRanking.SortByPlays | src/services/api/analyticsService.js:178 | the sort keeps exactly the entries it was given, each as often as it occurs |
| AnalyticsRanking.SortStable | src/services/api/analyticsService.js:178 | entries with equal play counts keep their order |
| AnalyticsRanking.SortByPlaysMeaning | src/services/api/analyticsService.js:178 | the ranking is sorted, a permutation, and stable |
| AnalyticsRanking.SliceTo | src/services/api/analyticsService.js:179 | `slice(0, limit)` is a prefix of min(limit, length) entries, and a negative limit drops that many from the end |
| AnalyticsRanking.TopGamesMeaning | src/services/api/analyticsService.js:154-180 | the result is a prefix of the per-game entries ranked most played first, stably and as a permutation. It has min(limit, distinct games) entries for a non-negative limit |
| AnalyticsRanking.TopGames | src/services/api/analyticsService.js:154-180 | the result is a prefix of the ranking, with min(limit, distinct games) entries for a non-negative limit |
| GamePlay.Pick | src/components/pages/GamePlay.jsx:77 | `Math.floor(Math.random() * k)` is an index into a list of k items |
| GamePlay.AtLeast | src/components/pages/GamePlay.jsx:80 | `.filter(n => n > 0)` keeps exactly the large enough numbers |
| GamePlay.AroundMeaning | src/components/pages/GamePlay.jsx:80-100 | the options around an answer are distinct and are exactly the neighbours in range. They include the answer when it is in range |
| GamePlay.NextFourDistinct | src/components/pages/GamePlay.jsx:141 | the item and the next three items, taken cyclically from a list of distinct items, are four different options including the item |
| GamePlay.MathQuestion | src/components/pages/GamePlay.jsx:74-132 | for every game id, including the default, the correct answer is one of the options, and no option repeats |
| GamePlay.ReadingQuestion | src/components/pages/GamePlay.jsx:134-207 | for every game id, including the default, the correct answer is one of the options, and no option repeats |
| GamePlay.CountingQuestion | src/components/pages/GamePlay.jsx:76-84 | counting asks for 1..10 with positive options only: three options for 1 and four otherwise |
| GamePlay.AdditionQuestion | src/components/pages/GamePlay.jsx:85-94 | addition has an answer in 2..10 and four positive options |
| GamePlay.SubtractionQuestion | src/components/pages/GamePlay.jsx:95-104 | subtraction has an answer in 0..8 and no negative option |
| GamePlay.CyclicQuestions | src/components/pages/GamePlay.jsx:136-170 | letters and sight-words offer four different options |
| GamePlay.QuestionFor | src/components/pages/GamePlay.jsx:60-64 | each question comes from the math generator exactly when the game's type is `'math'`, and its answer is among its options |
| GamePlay.Planned | src/components/pages/GamePlay.jsx:59-65 | one well-formed question per pair of draws |
| GamePlay.GenerateQuestions | src/components/pages/GamePlay.jsx:55-72 | the loop builds exactly five questions, each the generator's question for its draws, with its answer among its options |
| GamePlay.Stars | src/components/pages/GamePlay.jsx:254 | stars are the score clamped to 1..3, so 1 even for a score of 0 |
| GamePlay.Coins | src/components/pages/GamePlay.jsx:255 | the coins are ten times the stars: 10, 20 or 30 |
| GamePlay.Answer | src/components/pages/GamePlay.jsx:209-250 | a correct answer (`===`) adds a point and keeps the lives; a wrong one costs a life. The game ends, or moves to the next question, on the pre-answer position and lives |
| GamePlay.StartInPlay | src/components/pages/GamePlay.jsx:288-300 | a fresh round is in play |
| GamePlay.AnswerKeepsPlay | src/components/pages/GamePlay.jsx:216-248 | each answer leaves the game in play or finished, and it finishes the game exactly when the answered question was the last or the learner had one life left before answering (even when that answer is right) |
| GamePlay.LastAnswerNotRewarded | src/components/pages/GamePlay.jsx:252-255 | the stars read the score before the last answer, so a correct last answer does not add a star |
| GamePlay.GameSession.constructor | src/components/pages/GamePlay.jsx:22-31 | the initial game state: no questions, score 0, three lives, not playing |
| GamePlay.GameSession.Begin | src/components/pages/GamePlay.jsx:288-300 | a restart holds the start state and five questions, question i being the one `QuestionFor` builds from the i-th pair of draws, each with its answer among its options |
| GamePlay.GameSession.AnswerSelect | src/components/pages/GamePlay.jsx:209-261 | the new state is the answer step. A reward is given exactly when the game ends, and it is the stars and coins of the score before the answer |
| GamePlay.Completion | src/components/pages/GamePlay.jsx:265-272 | the completion record names the learner and the game, the stars, one attempt, and the current instant |
| GamePlay.TotalsAfter | src/components/pages/GamePlay.jsx:275-278 | the learner's totals after a game are the profile's totals (missing as 0) plus the stars and coins earned, added as numbers |
| GamePlay.OrZero | src/components/pages/GamePlay.jsx:276-277 | `v || 0` is `v` when it is truthy and 0 otherwise |
| GamePlay.SaveResult | src/components/pages/GamePlay.jsx:263-278 | `endGame` appends one completion record to the game store and upserts the learner's totals in the rewards store |
| StoryReading.PreviousPage | src/components/pages/StoryReader.jsx:213 | Previous never goes below page 1 and otherwise goes back one page |
| StoryReading.NextPage | src/components/pages/StoryReader.jsx:236 | Next never passes the last page and otherwise goes forward one page |
| StoryReading.PageIndex | src/components/pages/StoryReader.jsx:125 | `pages[currentPage - 1]` is in bounds exactly when the cursor is between 1 and the page count |
| StoryReading.ProgressRecord | src/components/pages/StoryReader.jsx:61-68 | the saved record holds the learner, the story and the page. `completed` is true exactly on the last page |
| StoryReading.RestoredPage | src/components/pages/StoryReader.jsx:43-47 | with no saved record for the story the cursor stays where it was; otherwise the first saved record's `currentPage` when it is truthy, and page 1 when it is not |
| StoryReading.FirstStoryMatch | src/components/pages/StoryReader.jsx:43-44 | `find` by story finds nothing exactly when no record has the story, and otherwise the first record that has it |
| StoryReading.SaveThenRestore | src/components/pages/StoryReader.jsx:57-68 | saving a page and loading the story again restores that page |
| StoryReading.GoingBackUncompletes | src/components/pages/StoryReader.jsx:61-68 | saving an earlier page turns a completed story back into an unfinished one. The record keeps its `Id` and the store keeps its length |
| StoryReading.StoryReader.constructor | src/components/pages/StoryReader.jsx:20 | the cursor starts on page 1 |
| StoryReading.StoryReader.Restore | src/components/pages/StoryReader.jsx:43-47 | the cursor becomes the restored page |
| StoryReading.StoryReader.Previous | src/components/pages/StoryReader.jsx:212-214 | the cursor moves as `StoryReading.PreviousPage` says and stays on a page |
| StoryReading.StoryReader.Next | src/components/pages/StoryReader.jsx:234-236 | the cursor moves as `StoryReading.NextPage` says and stays on a page |
| StoryReading.StoryReader.GoTo | src/components/pages/StoryReader.jsx:222-225 | the dot of index i puts the cursor on page i + 1, which is a page of the story |
| StoryReading.StoryReader.Shown | src/components/pages/StoryReader.jsx:125 | page content is shown exactly while the cursor is on a page |
| StoryReading.StoryReader.Save | src/components/pages/StoryReader.jsx:57-76 | saving writes the progress record through the store's upsert |
| Home.ProgressForWorld | src/components/pages/Home.jsx:64-69 | keeps exactly the records of the world's five games; any other world keeps nothing |
| Home.WorldsDisjoint | src/components/pages/Home.jsx:64-69 | no record belongs to both worlds |
| Home.TotalStars | src/components/pages/Home.jsx:71 | the star total is a number exactly when every record's `starsEarned` converts to one; otherwise it is NaN (records are added as numbers) |
| Home.TotalStarsIsSum | src/components/pages/Home.jsx:71 | with numeric stars, the total is the sum of the stars |
| Home.MissingStarsSpoilTotal | src/components/pages/Home.jsx:71 | one record without `starsEarned` makes the total NaN |
| Home.TotalCoinsAtMostPaid | src/components/pages/Home.jsx:72 | ten coins per record never exceeds the ten per star actually paid, and equals it exactly when every game earned one star |
| Home.TotalCoins | src/components/pages/Home.jsx:72 | ten coins per completed game, whatever its stars |
| Home.CompletedStories | src/components/pages/Home.jsx:73 | counts the completed stories; it is 0 exactly when none is completed |
| Home.Counter | src/components/pages/Home.jsx:204 | `Math.min(x, target)` is x or the target, whichever is smaller |
| Home.Bar | src/components/pages/Home.jsx:207 | the bar never exceeds 100, and is full exactly when the target is reached |
| Home.DailyGoals | src/components/pages/Home.jsx:204-232 | each counter is at most its target and each bar at most 100; the star bar is missing exactly when the star total is NaN |
| Home.GoalsAgree | src/components/pages/Home.jsx:204-232 | each counter reaches its target exactly when its bar is full. The games goal is met by two records and the story goal by one completed story |
| MyProgress.MathGames | src/components/pages/MyProgress.jsx:85 | the same records as the home page's Math World |
| MyProgress.ReadingGames | src/components/pages/MyProgress.jsx:86 | the same records as the home page's Reading Land |
| MyProgress.WorldProgress | src/components/pages/MyProgress.jsx:88-89 | the bar is 20 per play and never negative |
| MyProgress.ReplaysOverfill | src/components/pages/MyProgress.jsx:85-88 | six plays of one game give a bar of 120 |
| MyProgress.GameWithId | src/components/pages/MyProgress.jsx:211 | finds a game exactly when one has that id, and then the first such game in catalogue order |
| MyProgress.RecentGames | src/components/pages/MyProgress.jsx:210-212 | the first six records (or all, when fewer), each paired with the first game of its id, or with nothing exactly when no game has its id |
| MyProgress.Earned | src/components/pages/MyProgress.jsx:250-292 | First Star exactly when the star total is a number of at least 1, Reading Rookie exactly with one completed story, Game Master exactly with five plays |
| MyProgress.FirstStarAfterOneGame | src/components/pages/MyProgress.jsx:250-258 | one finished game, which pays one to three stars, earns First Star |
| MyProgress.MissingStarsLockFirstStar | src/components/pages/MyProgress.jsx:82 | a record without `starsEarned` keeps First Star locked |
| MyProgress.AchievementsStay | src/components/pages/MyProgress.jsx:267-292 | more play never takes Game Master or Reading Rookie away |
| ParentDashboard.Selected | src/components/pages/ParentDashboard.jsx:45-56 | `'weekly'` selects four weeks and `'monthly'` three months; every other filter selects seven days |
| ParentDashboard.ProgressData | src/components/pages/ParentDashboard.jsx:45-56 | the dashboard shows the weekly report of 4 weeks, the monthly report of 3 months, or for any other filter the daily report of 7 days |
| ParentDashboard.TotalActivities | src/components/pages/ParentDashboard.jsx:315 | Total Activities is 0 exactly when no bucket has a game or a story |
| ParentDashboard.StarsEarned | src/components/pages/ParentDashboard.jsx:329 | Stars Earned is between 0 and three per game when each bucket's stars are |
| ParentDashboard.TimeSpent | src/components/pages/ParentDashboard.jsx:343 | with consistent buckets, Time Spent is never negative and is 0 exactly when no bucket has a game or a story |
| ParentDashboard.StarsFromGamesOnly | src/components/pages/ParentDashboard.jsx:329 | the Stars Earned card does not depend on the story records |
| ParentDashboard.TotalActivitiesSplit | src/components/pages/ParentDashboard.jsx:315 | Total Activities is the sum of all games plus the sum of all stories |
| ParentDashboard.TimeSpentFromCounts | src/components/pages/ParentDashboard.jsx:343 | Time Spent is 5 × total games + 10 × total stories |
| ParentDashboard.DailyCards | src/components/pages/ParentDashboard.jsx:315-343 | on the daily report, Total Activities and Time Spent count exactly the games completed and the completed stories created on the shown days |
| ParentDashboard.DailyCardSums | src/components/pages/ParentDashboard.jsx:315-343 | the daily cards in terms of the report's game and story sums |
| ParentDashboard.LearningStreak | src/components/pages/ParentDashboard.jsx:357 | the streak is at most the bucket count. It equals the count exactly when every bucket is active, and is 0 exactly when none is |
| ParentDashboard.StreakIgnoresGaps | src/components/pages/ParentDashboard.jsx:357 | two active days around an idle one make a streak of 2: the streak does not measure consecutive days |
| ParentDashboard.WorldSeries | src/components/pages/ParentDashboard.jsx:239-245 | no series before the distribution loads, then Math World's minutes followed by Reading Land's |
| ParentDashboard.WorldSeriesTotal | src/components/pages/ParentDashboard.jsx:239-245 | the Math World slice is five minutes per math game; the Reading Land slice is five per reading game plus ten per completed story |
| ParentDashboard.TopGamesShown | src/components/pages/ParentDashboard.jsx:30 | `getTopGames()` with no argument uses the default limit of five: at most five entries, a prefix of the ranking |

## Left out

- Floating point. Average stars are exact integer tenths, rounded half up. The percentages
  are exact reals. `Math.random()` draws are reals in [0, 1).
- The date-fns calendar:
  - time zones and daylight-saving changes (a day is a fixed 86 400 000 ms, in UTC);
  - the day clamping of `subMonths` (month arithmetic is a parameter);
  - the `format` strings of the labels (a label keeps the instant or number it is formatted
    from).
- ISO timestamp strings. `createdAt` and `completedAt` are stored as integer milliseconds,
  and any other value is an Invalid Date that counts in no window.
- The delays, `Promise.all` timing and the `setTimeout` sequencing. A failed read during
  initialization reports the first failing read in argument order.
- `getAll` returning a copy: the model returns the sequence by value, so later aliasing is
  not modelled.
- The stale-state race when a story loads. The save effect may run before the saved page is
  restored; only the two steps, each on its own, are modelled.
- The question text, the emoji in it, `selectedAnswer`, `showFeedback`, toasts, rendering,
  routing and charts.
- The seed fixtures. Each store takes its seed records as a parameter.
- `overallProgress` (src/components/pages/MyProgress.jsx:90), which divides by the number of
  games and is shown nowhere the model reaches.
- AnalyticsRanking.Stats: the `gameStats` dictionary is keyed by the id value, whereas a
  JavaScript object stringifies its keys (so `1` and `'1'` would share one entry). Ids that
  name an inherited property, such as `constructor` or `toString`, find a truthy
  `gameStats[id]` before their first record (src/services/api/analyticsService.js:160); the
  model starts every id from an empty entry.
- AnalyticsRanking.Distinct: the first-seen order of the ids is `Object.values`' order only
  for ids that are not integer-like text. `Object.values` lists integer-like keys such as
  `'2'` and `'1'` first, in ascending order, which the model does not.
- AnalyticsRanking.TopGamesMeaning: entries with equal play counts keep the first-seen order,
  so for integer-like ids the tie order can differ from JavaScript's, as for Distinct.
- Default arguments. `getDailyProgress(days = 7)`, `getWeeklyProgress(weeks = 4)`,
  `getMonthlyProgress(months = 3)` and `getTopGames(limit = 5)`
  (src/services/api/analyticsService.js:27, 61, 94, 154) take the count as a plain parameter.
  The dashboard passes 7, 4 and 3 itself (ParentDashboard.ProgressData); its argument-less
  `getTopGames()` is ParentDashboard.TopGamesShown, which passes 5.
- JsValues.ParseIntText: white space is only space, tab, line feed and carriage return, and
  integers are unbounded, so the exponent form `String` prints from 1e21 on and the loss of
  precision past 2^53 are not modelled.
- JsValues.ToNumber: text with a decimal point or an exponent, `Infinity`, `0o`/`0b` numerals
  and non-ASCII white space read as NaN, where `Number` reads them.
- JsValues.StrictEq: arrays compare by their items, where `===` compares object identity
  (`[1] === [1]` is false). No `Id`, `profileId`, `storyId`, `gameId` or `type` that the
  stores and pages compare is an array.
- JsValues.Plus: both operands are always added as numbers, where `+` concatenates when one
  of them is text or an array (`5 + [1]` is `"51"`, not 6). Its callers pass numbers, or NaN
  from `Math.max`, except where the lines below say otherwise.
- Query.StarsOrZero: a `starsEarned` held as text or as an array is added as its number,
  where `sum + (game.starsEarned || 0)` and `totalStars += …` concatenate its text
  (src/services/api/analyticsService.js:53, 86, 119, 144, 149, 170). The star sums are
  integers, so a sum that JavaScript would turn into text is not modelled.
- Query.StarsOrZeroMeaning: its contract pins numbers, and missing, falsy or NaN-converting
  values. A `starsEarned` that is text or an array converting to a number counts as that
  number, where `sum + (v || 0)` would concatenate its text (`0 + [2]` is `"02"`). No store
  or page writes such a value.
- Home.TotalStars: a `starsEarned` held as text or as an array is added as its number;
  JavaScript would concatenate its text.
- GamePlay.TotalsAfter: the same, for profile `totalStars` and `totalCoins` held as text or
  as an array.
- StoryReading.StoryReader.Restore: requires the restored page to be a number. The model
  does not follow a cursor set to a non-numeric saved `currentPage`.
