/** The parent dashboard: the report the time filter selects, the four summary cards over its
    buckets, and the two-value series of the world chart. */
module ParentDashboard {
  import opened JsValues
  import opened Clock
  import opened Query
  import opened AnalyticsPeriods
  import opened AnalyticsWorlds
  import opened AnalyticsRanking

  /** The report `getProgressData` asks the analytics service for. */
  datatype Period = Daily(days: int) | Weekly(weeks: int) | Monthly(months: int)

  /** `switch (timeFilter)`: a week report of four weeks, a month report of three months,
      and for `'daily'` and every other value a day report of seven days. */
  function Selected(timeFilter: string): (p: Period)
    ensures p.Weekly? <==> timeFilter == "weekly"
    ensures p.Monthly? <==> timeFilter == "monthly"
    ensures p.Daily? ==> p.days == 7
    ensures p.Weekly? ==> p.weeks == 4
    ensures p.Monthly? ==> p.months == 3
  {
    match timeFilter
    case "daily" => Daily(7)
    case "weekly" => Weekly(4)
    case "monthly" => Monthly(3)
    case _ => Daily(7)
  }

  /** `getProgressData()`: the report the time filter picks, always with the dashboard's own
      lengths (7 days, 4 weeks, 3 months), never the service's defaults. */
  function ProgressData(gp: seq<Record>, sp: seq<Record>, now: Time, addMonths: (Time, int) -> Time,
                        timeFilter: string): (bs: seq<Bucket>)
    ensures timeFilter == "weekly" ==> bs == WeeklyProgress(gp, sp, now, 4)
    ensures timeFilter == "monthly" ==> bs == MonthlyProgress(gp, sp, now, 3, addMonths)
    ensures timeFilter != "weekly" && timeFilter != "monthly" ==> bs == DailyProgress(gp, sp, now, 7)
    ensures |bs| == match Selected(timeFilter) case Daily(_) => 7 case Weekly(_) => 4 case Monthly(_) => 3
  {
    match Selected(timeFilter)
    case Daily(days) => DailyProgress(gp, sp, now, days)
    case Weekly(weeks) => WeeklyProgress(gp, sp, now, weeks)
    case Monthly(months) => MonthlyProgress(gp, sp, now, months, addMonths)
  }

  // ---------------------------------------------------------------------------
  // Summary cards

  /** Total Activities: `progressData.reduce((sum, item) => sum + item.games + item.stories, 0)` */
  function TotalActivities(bs: seq<Bucket>): (t: nat)
    ensures t == 0 <==> forall i :: 0 <= i < |bs| ==> !Active(bs[i])
  {
    if bs == [] then 0
    else
      assert forall i :: 0 <= i < |bs| - 1 ==> bs[..|bs| - 1][i] == bs[i];
      TotalActivities(bs[..|bs| - 1]) + bs[|bs| - 1].games + bs[|bs| - 1].stories
  }

  /** Stars Earned: `progressData.reduce((sum, item) => sum + item.totalStars, 0)` */
  function StarsEarned(bs: seq<Bucket>): (n: int)
    ensures (forall i :: 0 <= i < |bs| ==> 0 <= bs[i].totalStars <= 3 * bs[i].games) ==>
              0 <= n <= 3 * SumGames(bs)
  {
    if bs == [] then 0
    else
      var init := bs[..|bs| - 1];
      assert forall i :: 0 <= i < |init| ==> init[i] == bs[i];
      SumsAppend(init, bs[|bs| - 1]);
      SplitLast(bs);
      StarsEarned(init) + bs[|bs| - 1].totalStars
  }

  /** Time Spent: `progressData.reduce((sum, item) => sum + item.estimatedTime, 0)` */
  function TimeSpent(bs: seq<Bucket>): (m: int)
    ensures (forall i :: 0 <= i < |bs| ==> Consistent(bs[i])) ==>
              m >= 0 && (m == 0 <==> forall i :: 0 <= i < |bs| ==> !Active(bs[i]))
  {
    if bs == [] then 0
    else
      assert forall i :: 0 <= i < |bs| - 1 ==> bs[..|bs| - 1][i] == bs[i];
      TimeSpent(bs[..|bs| - 1]) + bs[|bs| - 1].estimatedTime
  }

  /** A bucket with some activity in it. */
  predicate Active(b: Bucket)
  {
    b.games > 0 || b.stories > 0
  }

  /** Learning Streak: `progressData.filter(item => item.games > 0 || item.stories > 0).length` */
  function LearningStreak(bs: seq<Bucket>): (n: nat)
    ensures n <= |bs|
    ensures n == |bs| <==> forall i :: 0 <= i < |bs| ==> Active(bs[i])
    ensures n == 0 <==> forall i :: 0 <= i < |bs| ==> !Active(bs[i])
  {
    if bs == [] then 0
    else
      var rest := LearningStreak(bs[1..]);
      assert forall i :: 1 <= i < |bs| ==> bs[1..][i - 1] == bs[i];
      (if Active(bs[0]) then 1 else 0) + rest
  }

  /** The streak counts active buckets wherever they lie: two active days with an idle day
      between them make a streak of 2. */
  lemma StreakIgnoresGaps(a: Bucket, idle: Bucket, b: Bucket)
    requires Active(a) && !Active(idle) && Active(b)
    ensures LearningStreak([a, idle, b]) == 2
  {
    assert [a, idle, b][1..] == [idle, b];
    assert [idle, b][1..] == [b];
    assert [b][1..] == [];
  }

  /** Stars Earned comes from the games alone: whatever the story records say, every report
      shows the same star total. */
  lemma {:induction false} StarsFromGamesOnly(gp: seq<Record>, sp: seq<Record>, sp': seq<Record>, ws: seq<Window>)
    ensures StarsEarned(Report(gp, sp, ws)) == StarsEarned(Report(gp, sp', ws))
  {
    if ws != [] {
      var init := ws[..|ws| - 1];
      StarsFromGamesOnly(gp, sp, sp', init);
      var a := Report(gp, sp, ws);
      var b := Report(gp, sp', ws);
      assert a[..|a| - 1] == Report(gp, sp, init);
      assert b[..|b| - 1] == Report(gp, sp', init);
    }
  }

  /** Total Activities adds up the games and the stories of every bucket. */
  lemma {:induction false} TotalActivitiesSplit(bs: seq<Bucket>)
    ensures TotalActivities(bs) == SumGames(bs) + SumStories(bs)
  {
    if bs != [] {
      var init := bs[..|bs| - 1];
      TotalActivitiesSplit(init);
      SumsAppend(init, bs[|bs| - 1]);
      assert init + [bs[|bs| - 1]] == bs;
    }
  }

  lemma {:induction false} SumsAppend(bs: seq<Bucket>, b: Bucket)
    ensures SumGames(bs + [b]) == SumGames(bs) + b.games
    ensures SumStories(bs + [b]) == SumStories(bs) + b.stories
  {
    if bs == [] {
      assert [b][1..] == [];
    } else {
      assert (bs + [b])[1..] == bs[1..] + [b];
      SumsAppend(bs[1..], b);
    }
  }

  /** Time Spent is five minutes per game and ten per story over the whole report, whenever
      every bucket's estimate agrees with its counts. */
  lemma {:induction false} TimeSpentFromCounts(bs: seq<Bucket>)
    requires forall i :: 0 <= i < |bs| ==> Consistent(bs[i])
    ensures TimeSpent(bs) == 5 * SumGames(bs) + 10 * SumStories(bs)
  {
    if bs != [] {
      var init := bs[..|bs| - 1];
      assert forall i :: 0 <= i < |init| ==> init[i] == bs[i];
      TimeSpentFromCounts(init);
      SumsAppend(init, bs[|bs| - 1]);
      assert init + [bs[|bs| - 1]] == bs;
      assert Consistent(bs[|bs| - 1]);
    }
  }

  /** On the daily report the cards count exactly the games completed and the completed
      stories created, strictly inside the `days` days numbered `first` to today. */
  lemma DailyCards(gp: seq<Record>, sp: seq<Record>, now: Time, days: int, first: int)
    requires days >= 1 && first == DayOf(now) - (days - 1)
    ensures var bs := DailyProgress(gp, sp, now, days);
            var games := Count(gp, GamesOnDays(first, DayOf(now)));
            var stories := Count(sp, StoriesOnDays(first, DayOf(now)));
            TotalActivities(bs) == games + stories
            && TimeSpent(bs) == 5 * games + 10 * stories
  {
    DailyGamesTotal(gp, sp, now, days, first);
    DailyStoriesTotal(gp, sp, now, days, first);
    DailyCardSums(gp, sp, now, days);
  }

  /** The daily report's cards in terms of its game and story sums. */
  lemma DailyCardSums(gp: seq<Record>, sp: seq<Record>, now: Time, days: int)
    ensures var bs := DailyProgress(gp, sp, now, days);
            TotalActivities(bs) == SumGames(bs) + SumStories(bs)
            && TimeSpent(bs) == 5 * SumGames(bs) + 10 * SumStories(bs)
  {
    var bs := DailyProgress(gp, sp, now, days);
    ReportConsistent(gp, sp, DailyWindows(now, days));
    assert forall i :: 0 <= i < |bs| ==> Consistent(bs[i]);
    TotalActivitiesSplit(bs);
    TimeSpentFromCounts(bs);
  }

  // ---------------------------------------------------------------------------
  // World chart

  /** `getWorldDistributionChartSeries()`: no series before the distribution has loaded,
      then the minutes of Math World and of Reading Land. */
  function WorldSeries(distribution: Option<Distribution>): (s: seq<int>)
    ensures distribution.None? ==> s == []
    ensures distribution.Some? ==> |s| == 2
    ensures distribution.Some? ==> s[0] == distribution.value.mathWorld.timeSpent
    ensures distribution.Some? ==> s[1] == distribution.value.readingLand.timeSpent
  {
    match distribution
    case None => []
    case Some(d) => [d.mathWorld.timeSpent, d.readingLand.timeSpent]
  }

  /** The Math World slice is five minutes per math game, the Reading Land slice five per
      reading game and ten per completed story. */
  lemma WorldSeriesTotal(gp: seq<Record>, sp: seq<Record>)
    ensures var s := WorldSeries(Some(WorldDistribution(gp, sp)));
            s[0] == 5 * Count(gp, GameIn(MathGameIds))
            && s[1] == 5 * Count(gp, GameIn(ReadingGameIds)) + 10 * Count(sp, Completed())
  {
    DistributionMeaning(gp, sp, sp);
  }

  // ---------------------------------------------------------------------------
  // Most played games

  /** `analyticsService.getTopGames()` called without an argument: the service's default
      limit of five applies. */
  function TopGamesShown(gp: seq<Record>): (top: seq<GameStat>)
    ensures top == TopGames(gp, 5)
    ensures |top| == if |Distinct(gp)| < 5 then |Distinct(gp)| else 5
    ensures top <= SortByPlays(Stats(gp))
  {
    TopGames(gp, 5)
  }
}
