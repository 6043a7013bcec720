/** The analytics service: a one-time snapshot of the game-completion and story-progress
    stores, and the reports computed from it. The two store reads are parameters of each
    operation (what `getAll` would return, or the error it would throw), and so is the
    current instant. */
module Analytics {
  import opened JsValues
  import opened Clock
  import opened Query
  import opened AnalyticsPeriods
  import opened AnalyticsWorlds
  import opened AnalyticsRanking

  /** The service's fields. */
  datatype Snapshot = Snapshot(gameProgress: seq<Record>, storyProgress: seq<Record>, initialized: bool)

  /** The fields after `initialize`, and whether it returned or threw. */
  datatype Loaded = Loaded(state: Snapshot, outcome: Result<()>)

  /** `initialize`: nothing to do once initialized; otherwise both reads must succeed, and only
      then are the snapshot and the flag set, together. A failed read is rethrown (the first
      failing read in argument order; `Promise.all` reports whichever fails first in time). */
  function Initialized(s: Snapshot, games: Result<seq<Record>>, stories: Result<seq<Record>>): Loaded
  {
    if s.initialized then Loaded(s, Ok(()))
    else if games.Err? then Loaded(s, Err(games.message))
    else if stories.Err? then Loaded(s, Err(stories.message))
    else Loaded(Snapshot(games.value, stories.value, true), Ok(()))
  }

  /** Once initialized, the service never reads the stores again: later reads, failing or not,
      change nothing. */
  lemma InitializeOnce(s: Snapshot, games: Result<seq<Record>>, stories: Result<seq<Record>>,
                       games': Result<seq<Record>>, stories': Result<seq<Record>>)
    requires Initialized(s, games, stories).outcome.Ok?
    ensures var first := Initialized(s, games, stories);
            Initialized(first.state, games', stories') == Loaded(first.state, Ok(()))
            && first.state.initialized
  {
  }

  /** `initialize` succeeds exactly when the service was initialized already or both reads
      succeed; on failure the flag stays false and the snapshot is untouched. */
  lemma InitializeOutcome(s: Snapshot, games: Result<seq<Record>>, stories: Result<seq<Record>>)
    ensures var l := Initialized(s, games, stories);
            (l.outcome.Ok? <==> s.initialized || (games.Ok? && stories.Ok?))
            && (l.outcome.Ok? <==> l.state.initialized)
            && (l.outcome.Err? ==> l.state == s
                                   && ((games.Err? && l.outcome.message == games.message)
                                       || (stories.Err? && l.outcome.message == stories.message)))
            && (!s.initialized && l.outcome.Ok? ==>
                  l.state.gameProgress == games.value && l.state.storyProgress == stories.value)
  {
  }

  /** The first `forEach` of `getTopGames`: one dictionary entry per game id, created on the
      id's first record, counting its plays and adding up its stars. */
  method TallyByGame(gp: seq<Record>) returns (order: seq<Value>, gameStats: map<Value, GameStat>)
    ensures Tallies(order, gameStats) == TallyOf(gp)
  {
    order := [];
    gameStats := map[];
    var k := 0;
    while k < |gp|
      invariant 0 <= k <= |gp|
      invariant Tallies(order, gameStats) == TallyOf(gp[..k])
    {
      var progress := gp[k];
      var id := Field(progress, "gameId");
      assert gp[..k + 1][..k] == gp[..k] && gp[..k + 1][k] == progress;
      assert TallyOf(gp[..k + 1])
          == Tallies(if id in gameStats then order else order + [id], Counted(gameStats, progress));
      if id !in gameStats {
        gameStats := gameStats[id := GameStat(id, 0, 0, 0)];
        order := order + [id];
      }
      var stat := gameStats[id];
      gameStats := gameStats[id := stat.(timesPlayed := stat.timesPlayed + 1,
                                         totalStars := stat.totalStars + StarsOrZero(progress))];
      k := k + 1;
    }
    assert gp[..|gp|] == gp;
  }

  /** The second `forEach` of `getTopGames`: every entry gets its rounded average, and the
      entries come out in the dictionary's insertion order. */
  method WithAverages(gp: seq<Record>, order: seq<Value>, gameStats: map<Value, GameStat>)
    returns (stats: seq<GameStat>)
    requires order == Distinct(gp)
    requires forall id :: id in order ==> id in gameStats && gameStats[id] == Tally(gp, id)
    ensures stats == Stats(gp)
  {
    stats := [];
    var j := 0;
    while j < |order|
      invariant 0 <= j <= |order|
      invariant stats == Stats(gp)[..j]
    {
      var stat := gameStats[order[j]];
      var played := stat.timesPlayed;
      var entry := stat.(averageTenths := if played > 0 then AverageTenths(stat.totalStars, played) else 0);
      AveragedTally(gp, order[j]);
      assert entry == Stats(gp)[j];
      PrefixStep(Stats(gp), j);
      stats := stats + [entry];
      j := j + 1;
    }
  }

  class AnalyticsService {
    var gameProgress: seq<Record>
    var storyProgress: seq<Record>
    var initialized: bool

    function State(): Snapshot
      reads this
    {
      Snapshot(gameProgress, storyProgress, initialized)
    }

    constructor ()
      ensures State() == Snapshot([], [], false)
    {
      gameProgress := [];
      storyProgress := [];
      initialized := false;
    }

    method Initialize(games: Result<seq<Record>>, stories: Result<seq<Record>>) returns (outcome: Result<()>)
      modifies this
      ensures Loaded(State(), outcome) == Initialized(old(State()), games, stories)
    {
      if initialized {
        outcome := Ok(());
        return;
      }
      if games.Err? {
        outcome := Err(games.message);
        return;
      }
      if stories.Err? {
        outcome := Err(stories.message);
        return;
      }
      gameProgress, storyProgress := games.value, stories.value;
      initialized := true;
      outcome := Ok(());
    }

    /** `getDailyProgress(days)` */
    method GetDailyProgress(days: int, now: Time, games: Result<seq<Record>>, stories: Result<seq<Record>>)
      returns (r: Result<seq<Bucket>>)
      modifies this
      ensures var l := Initialized(old(State()), games, stories);
              State() == l.state
              && (l.outcome.Err? ==> r == Err(l.outcome.message))
              && (l.outcome.Ok? ==> r == Ok(DailyProgress(gameProgress, storyProgress, now, days)))
    {
      var init := Initialize(games, stories);
      if init.Err? {
        r := Err(init.message);
        return;
      }
      var ws := DailyWindows(now, days);
      var dailyData: seq<Bucket> := [];
      var i := 0;
      while i < days
        invariant |ws| == (if days > 0 then days else 0)
        invariant 0 <= i <= |ws|
        invariant |dailyData| == i
        invariant forall k :: 0 <= k < i ==> dailyData[k] == BucketOf(gameProgress, storyProgress, ws[k])
      {
        var currentDate := AddDays(now, -(days - 1 - i));
        var dayStart := StartOfDay(currentDate);
        var dayEnd := EndOfDay(currentDate);
        var gamesCompleted := Filter(gameProgress, [Between("completedAt", dayStart, dayEnd)]);
        var storiesCompleted := Filter(storyProgress, [IsTruthy("completed"), Between("createdAt", dayStart, dayEnd)]);
        assert days > 0 && ws[i] == DayWindow(currentDate);
        assert ws[i] == Window(DayLabel(currentDate), dayStart, dayEnd);
        assert StoriesIn(ws[i]) == [IsTruthy("completed"), Between("createdAt", dayStart, dayEnd)];
        var bucket := Bucket(DayLabel(currentDate), |gamesCompleted|, |storiesCompleted|,
                             SumStars(gamesCompleted), |gamesCompleted| * 5 + |storiesCompleted| * 10);
        assert bucket == BucketOf(gameProgress, storyProgress, ws[i]);
        dailyData := dailyData + [bucket];
        i := i + 1;
      }
      assert dailyData == Report(gameProgress, storyProgress, ws);
      r := Ok(dailyData);
    }

    /** `getWeeklyProgress(weeks)` */
    method GetWeeklyProgress(weeks: int, now: Time, games: Result<seq<Record>>, stories: Result<seq<Record>>)
      returns (r: Result<seq<Bucket>>)
      modifies this
      ensures var l := Initialized(old(State()), games, stories);
              State() == l.state
              && (l.outcome.Err? ==> r == Err(l.outcome.message))
              && (l.outcome.Ok? ==> r == Ok(WeeklyProgress(gameProgress, storyProgress, now, weeks)))
    {
      var init := Initialize(games, stories);
      if init.Err? {
        r := Err(init.message);
        return;
      }
      var ws := WeeklyWindows(now, weeks);
      var weeklyData: seq<Bucket> := [];
      var i := 0;
      while i < weeks
        invariant |ws| == (if weeks > 0 then weeks else 0)
        invariant 0 <= i <= |ws|
        invariant |weeklyData| == i
        invariant forall k :: 0 <= k < i ==> weeklyData[k] == BucketOf(gameProgress, storyProgress, ws[k])
      {
        var weekStart := StartOfDay(SubWeeks(now, weeks - 1 - i));
        var weekEnd := EndOfDay(AddDays(weekStart, 6));
        var gamesCompleted := Filter(gameProgress, [Between("completedAt", weekStart, weekEnd)]);
        var storiesCompleted := Filter(storyProgress, [IsTruthy("completed"), Between("createdAt", weekStart, weekEnd)]);
        assert weeks > 0 && ws[i] == WeekWindow(now, weeks, i);
        assert StoriesIn(ws[i]) == [IsTruthy("completed"), Between("createdAt", weekStart, weekEnd)];
        weeklyData := weeklyData + [Bucket(WeekLabel(i + 1), |gamesCompleted|, |storiesCompleted|,
                                           SumStars(gamesCompleted), |gamesCompleted| * 5 + |storiesCompleted| * 10)];
        i := i + 1;
      }
      assert weeklyData == Report(gameProgress, storyProgress, ws);
      r := Ok(weeklyData);
    }

    /** `getMonthlyProgress(months)`; `addMonths` is the calendar's month arithmetic. */
    method GetMonthlyProgress(months: int, now: Time, addMonths: (Time, int) -> Time,
                              games: Result<seq<Record>>, stories: Result<seq<Record>>)
      returns (r: Result<seq<Bucket>>)
      modifies this
      ensures var l := Initialized(old(State()), games, stories);
              State() == l.state
              && (l.outcome.Err? ==> r == Err(l.outcome.message))
              && (l.outcome.Ok? ==> r == Ok(MonthlyProgress(gameProgress, storyProgress, now, months, addMonths)))
    {
      var init := Initialize(games, stories);
      if init.Err? {
        r := Err(init.message);
        return;
      }
      var ws := MonthlyWindows(now, months, addMonths);
      var monthlyData: seq<Bucket> := [];
      var i := 0;
      while i < months
        invariant |ws| == (if months > 0 then months else 0)
        invariant 0 <= i <= |ws|
        invariant |monthlyData| == i
        invariant forall k :: 0 <= k < i ==> monthlyData[k] == BucketOf(gameProgress, storyProgress, ws[k])
      {
        var monthStart := StartOfDay(addMonths(now, -(months - 1 - i)));
        var monthEnd := EndOfDay(AddDays(addMonths(monthStart, 1), -1));
        var gamesCompleted := Filter(gameProgress, [Between("completedAt", monthStart, monthEnd)]);
        var storiesCompleted := Filter(storyProgress, [IsTruthy("completed"), Between("createdAt", monthStart, monthEnd)]);
        assert months > 0 && ws[i] == MonthWindow(now, months, i, addMonths);
        assert ws[i] == Window(MonthLabel(monthStart), monthStart, monthEnd);
        assert StoriesIn(ws[i]) == [IsTruthy("completed"), Between("createdAt", monthStart, monthEnd)];
        var bucket := Bucket(MonthLabel(monthStart), |gamesCompleted|, |storiesCompleted|,
                             SumStars(gamesCompleted), |gamesCompleted| * 5 + |storiesCompleted| * 10);
        assert bucket == BucketOf(gameProgress, storyProgress, ws[i]);
        monthlyData := monthlyData + [bucket];
        i := i + 1;
      }
      assert monthlyData == Report(gameProgress, storyProgress, ws);
      r := Ok(monthlyData);
    }

    /** `getWorldDistribution()` */
    method GetWorldDistribution(games: Result<seq<Record>>, stories: Result<seq<Record>>)
      returns (r: Result<Distribution>)
      modifies this
      ensures var l := Initialized(old(State()), games, stories);
              State() == l.state
              && (l.outcome.Err? ==> r == Err(l.outcome.message))
              && (l.outcome.Ok? ==> r == Ok(WorldDistribution(gameProgress, storyProgress)))
    {
      var init := Initialize(games, stories);
      if init.Err? {
        r := Err(init.message);
        return;
      }
      r := Ok(WorldDistribution(gameProgress, storyProgress));
    }

    /** `getTopGames(limit)`: tally per game id in first-seen order, then the averages, then
        the stable sort and the slice. */
    method GetTopGames(limit: int, games: Result<seq<Record>>, stories: Result<seq<Record>>)
      returns (r: Result<seq<GameStat>>)
      modifies this
      ensures var l := Initialized(old(State()), games, stories);
              State() == l.state
              && (l.outcome.Err? ==> r == Err(l.outcome.message))
              && (l.outcome.Ok? ==> r == Ok(TopGames(gameProgress, limit)))
    {
      var init := Initialize(games, stories);
      if init.Err? {
        r := Err(init.message);
        return;
      }
      var order, gameStats := TallyByGame(gameProgress);
      TallyOfMeaning(gameProgress);
      assert Tallied(gameProgress, order, gameStats);
      var stats := WithAverages(gameProgress, order, gameStats);
      r := Ok(SliceTo(SortByPlays(stats), limit));
    }
  }
}
