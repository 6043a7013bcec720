/** The daily, weekly and monthly progress reports of the analytics service.

    Every report is a list of windows, and every window becomes one bucket: the games
    completed strictly inside the window, the completed stories created strictly inside it,
    the stars of those games and an estimate of the minutes spent. */
module AnalyticsPeriods {
  import opened JsValues
  import opened Clock
  import opened Query

  /** What a bucket is labelled with: `format(day, 'MMM dd')`, `Week ${i + 1}` or
      `format(monthStart, 'MMM yyyy')` (the formatting itself is not modelled). */
  datatype Label = DayLabel(day: Time) | WeekLabel(number: int) | MonthLabel(monthStart: Time)

  /** A reporting window; both ends are excluded (`isAfter(t, start) && isBefore(t, end)`). */
  datatype Window = Window(name: Label, start: Time, end: Time)

  datatype Bucket = Bucket(name: Label, games: nat, stories: nat, totalStars: int, estimatedTime: int)

  /** The games of a window: completed strictly inside it. */
  function GamesIn(w: Window): seq<Test>
  {
    [Between("completedAt", w.start, w.end)]
  }

  /** The stories of a window: marked completed, and created strictly inside it. */
  function StoriesIn(w: Window): seq<Test>
  {
    [IsTruthy("completed")] + [Between("createdAt", w.start, w.end)]
  }

  /** One bucket: five minutes per game and ten per story. */
  function BucketOf(gp: seq<Record>, sp: seq<Record>, w: Window): (b: Bucket)
    ensures b.name == w.name && Consistent(b)
    ensures b.games <= |gp| && b.stories <= |sp|
  {
    var games := Filter(gp, GamesIn(w));
    var stories := Filter(sp, StoriesIn(w));
    Bucket(w.name, |games|, |stories|, SumStars(games), |games| * 5 + |stories| * 10)
  }

  /** The buckets of a list of windows, in the same order. */
  function Report(gp: seq<Record>, sp: seq<Record>, ws: seq<Window>): (bs: seq<Bucket>)
    ensures |bs| == |ws|
  {
    seq(|ws|, i requires 0 <= i < |ws| => BucketOf(gp, sp, ws[i]))
  }

  /** The minutes estimate agrees with the counts. */
  predicate Consistent(b: Bucket)
  {
    b.estimatedTime == 5 * b.games + 10 * b.stories
  }

  // ---------------------------------------------------------------------------
  // The three kinds of window

  /** The window of one calendar day: from its first to its last millisecond. */
  function DayWindow(day: Time): (w: Window)
    ensures w.name == DayLabel(day) && w.start <= day <= w.end
    ensures w.start % DayMs == 0 && w.end == w.start + DayMs - 1
  {
    Window(DayLabel(day), StartOfDay(day), EndOfDay(day))
  }

  /** `getDailyProgress(days)`: entry `i` is the day `days - 1 - i` days before now. */
  function DailyWindows(now: Time, days: int): seq<Window>
  {
    if days <= 0 then []
    else seq(days, i requires 0 <= i < days => DayWindow(AddDays(now, -(days - 1 - i))))
  }

  /** `getWeeklyProgress(weeks)`: entry `i` starts at the start of the day `weeks - 1 - i`
      weeks before now and ends at the end of the day six days later. */
  function WeekWindow(now: Time, weeks: int, i: int): (w: Window)
    ensures w.name == WeekLabel(i + 1)
    ensures w.start % DayMs == 0 && w.end == w.start + 7 * DayMs - 1
  {
    var start := StartOfDay(SubWeeks(now, weeks - 1 - i));
    DayShift(start, 6);
    Window(WeekLabel(i + 1), start, EndOfDay(AddDays(start, 6)))
  }

  function WeeklyWindows(now: Time, weeks: int): seq<Window>
  {
    if weeks <= 0 then []
    else seq(weeks, i requires 0 <= i < weeks => WeekWindow(now, weeks, i))
  }

  /** `getMonthlyProgress(months)`: entry `i` starts at the start of the day `months - 1 - i`
      months before now (the same day of the month as today, not the 1st) and ends at the end
      of the day before the following month's anchor. `addMonths(t, k)` is date-fns
      `addMonths`, so `subMonths(t, k)` is `addMonths(t, -k)`. */
  function MonthWindow(now: Time, months: int, i: int, addMonths: (Time, int) -> Time): (w: Window)
    ensures w.name == MonthLabel(w.start) && w.start % DayMs == 0
    ensures w.end == StartOfDay(addMonths(w.start, 1)) - 1
  {
    var start := StartOfDay(addMonths(now, -(months - 1 - i)));
    DayShift(addMonths(start, 1), -1);
    Window(MonthLabel(start), start, EndOfDay(AddDays(addMonths(start, 1), -1)))
  }

  function MonthlyWindows(now: Time, months: int, addMonths: (Time, int) -> Time): seq<Window>
  {
    if months <= 0 then []
    else seq(months, i requires 0 <= i < months => MonthWindow(now, months, i, addMonths))
  }

  /** `getDailyProgress(days)`: one bucket per day, oldest first, each labelled with its day. */
  function DailyProgress(gp: seq<Record>, sp: seq<Record>, now: Time, days: int): (bs: seq<Bucket>)
    ensures |bs| == if days > 0 then days else 0
    ensures forall i :: 0 <= i < |bs| ==>
              bs[i].name == DayLabel(AddDays(now, -(days - 1 - i))) && Consistent(bs[i])
  {
    Report(gp, sp, DailyWindows(now, days))
  }

  /** `getWeeklyProgress(weeks)`: one bucket per week, labelled "Week 1" onwards. */
  function WeeklyProgress(gp: seq<Record>, sp: seq<Record>, now: Time, weeks: int): (bs: seq<Bucket>)
    ensures |bs| == if weeks > 0 then weeks else 0
    ensures forall i :: 0 <= i < |bs| ==> bs[i].name == WeekLabel(i + 1) && Consistent(bs[i])
  {
    Report(gp, sp, WeeklyWindows(now, weeks))
  }

  /** `getMonthlyProgress(months)`: one bucket per month, labelled with the month's first day. */
  function MonthlyProgress(gp: seq<Record>, sp: seq<Record>, now: Time, months: int,
                           addMonths: (Time, int) -> Time): (bs: seq<Bucket>)
    ensures |bs| == if months > 0 then months else 0
    ensures forall i :: 0 <= i < |bs| ==>
              bs[i].name == MonthLabel(StartOfDay(addMonths(now, -(months - 1 - i)))) && Consistent(bs[i])
  {
    Report(gp, sp, MonthlyWindows(now, months, addMonths))
  }

  // ---------------------------------------------------------------------------
  // What a bucket counts

  /** A game counts in a window exactly when its `completedAt` lies strictly inside the
      window; in particular a game completed at either boundary instant counts nowhere. */
  lemma GameCounted(gp: seq<Record>, w: Window, r: Record)
    ensures r in Filter(gp, GamesIn(w))
        <==> r in gp && DateOf(Field(r, "completedAt")).Some?
             && w.start < DateOf(Field(r, "completedAt")).value < w.end
    ensures Field(r, "completedAt") in {Num(w.start), Num(w.end)} ==> r !in Filter(gp, GamesIn(w))
  {
    FilterElements(gp, GamesIn(w));
    PassesOne(r, Between("completedAt", w.start, w.end));
  }

  /** A story counts in a window exactly when it is marked completed and its `createdAt` (not
      the moment it was finished) lies strictly inside the window. */
  lemma StoryCounted(sp: seq<Record>, w: Window, r: Record)
    ensures r in Filter(sp, StoriesIn(w))
        <==> r in sp && Truthy(Field(r, "completed")) && DateOf(Field(r, "createdAt")).Some?
             && w.start < DateOf(Field(r, "createdAt")).value < w.end
  {
    FilterElements(sp, StoriesIn(w));
    PassesConcat(r, [IsTruthy("completed")], [Between("createdAt", w.start, w.end)]);
    PassesOne(r, IsTruthy("completed"));
    PassesOne(r, Between("createdAt", w.start, w.end));
  }

  /** Every bucket of every report keeps `estimatedTime = 5 × games + 10 × stories`, and its
      stars are those of the games it counts. */
  lemma ReportConsistent(gp: seq<Record>, sp: seq<Record>, ws: seq<Window>)
    ensures forall i :: 0 <= i < |ws| ==>
              var b := Report(gp, sp, ws)[i];
              Consistent(b) && b.name == ws[i].name
              && b.totalStars == SumStars(Filter(gp, GamesIn(ws[i])))
  {
  }

  lemma ReportConcat(gp: seq<Record>, sp: seq<Record>, a: seq<Window>, b: seq<Window>)
    ensures Report(gp, sp, a + b) == Report(gp, sp, a) + Report(gp, sp, b)
  {
  }

  // ---------------------------------------------------------------------------
  // Daily windows

  /** `getDailyProgress(days)` has `days` entries (none when `days <= 0`), running from the
      oldest day to today, one day apart, each spanning exactly its own day. */
  lemma DailyShape(now: Time, days: int)
    ensures var ws := DailyWindows(now, days);
            |ws| == (if days > 0 then days else 0)
            && (forall i :: 0 <= i < |ws| ==>
                  ws[i].name.DayLabel?
                  && DayOf(ws[i].name.day) == DayOf(now) - (days - 1 - i)
                  && ws[i].start == StartOfDay(now) - (days - 1 - i) * DayMs
                  && ws[i].end == ws[i].start + DayMs - 1)
            && (days > 0 ==> DayOf(ws[days - 1].name.day) == DayOf(now))
  {
    var ws := DailyWindows(now, days);
    forall i | 0 <= i < |ws|
      ensures ws[i] == DayWindow(AddDays(now, -(days - 1 - i)))
      ensures DayOf(ws[i].name.day) == DayOf(now) - (days - 1 - i)
      ensures ws[i].start == StartOfDay(now) - (days - 1 - i) * DayMs
    {
      DayShift(now, -(days - 1 - i));
    }
  }

  /** One more day adds the older day in front and leaves the rest as it was. */
  lemma DailyGrow(now: Time, n: int)
    requires n >= 0
    ensures DailyWindows(now, n + 1) == [DayWindow(AddDays(now, -n))] + DailyWindows(now, n)
  {
    var longer := DailyWindows(now, n + 1);
    var shorter := DailyWindows(now, n);
    assert |longer| == 1 + |shorter|;
    forall i | 0 <= i < |shorter| ensures longer[i + 1] == shorter[i] {
      assert -(n + 1 - 1 - (i + 1)) == -(n - 1 - i);
    }
  }

  /** Inside one day's window lie exactly the instants of that day other than its first and
      last millisecond. */
  lemma {:induction false} DayWindowCount(rs: seq<Record>, pre: seq<Test>, field: string, day: Time)
    ensures Count(rs, pre + [Between(field, StartOfDay(day), EndOfDay(day))])
         == Count(rs, pre + [InDays(field, DayOf(day), DayOf(day))])
  {
    var a := pre + [Between(field, StartOfDay(day), EndOfDay(day))];
    var b := pre + [InDays(field, DayOf(day), DayOf(day))];
    forall i | 0 <= i < |rs| ensures Passes(rs[i], a) <==> Passes(rs[i], b) {
      PassesConcat(rs[i], pre, [Between(field, StartOfDay(day), EndOfDay(day))]);
      PassesConcat(rs[i], pre, [InDays(field, DayOf(day), DayOf(day))]);
      PassesOne(rs[i], Between(field, StartOfDay(day), EndOfDay(day)));
      PassesOne(rs[i], InDays(field, DayOf(day), DayOf(day)));
      var d := DateOf(Field(rs[i], field));
      if d.Some? {
        StrictlyInsideDay(d.value, day);
      }
    }
    FilterSame(rs, a, b);
  }

  /** Counting over a run of days is counting its first day plus counting the rest. */
  lemma {:induction false} DaysSplit(rs: seq<Record>, pre: seq<Test>, field: string, first: int, last: int)
    requires first <= last
    ensures Count(rs, pre + [InDays(field, first, last)])
         == Count(rs, pre + [InDays(field, first, first)]) + Count(rs, pre + [InDays(field, first + 1, last)])
  {
    var a := pre + [InDays(field, first, first)];
    var b := pre + [InDays(field, first + 1, last)];
    var c := pre + [InDays(field, first, last)];
    forall i | 0 <= i < |rs|
      ensures Passes(rs[i], c) <==> Passes(rs[i], a) || Passes(rs[i], b)
      ensures !(Passes(rs[i], a) && Passes(rs[i], b))
    {
      PassesConcat(rs[i], pre, [InDays(field, first, first)]);
      PassesConcat(rs[i], pre, [InDays(field, first + 1, last)]);
      PassesConcat(rs[i], pre, [InDays(field, first, last)]);
      PassesOne(rs[i], InDays(field, first, first));
      PassesOne(rs[i], InDays(field, first + 1, last));
      PassesOne(rs[i], InDays(field, first, last));
    }
    CountSplit(rs, a, b, c);
  }

  function SumGames(bs: seq<Bucket>): nat
  {
    if bs == [] then 0 else bs[0].games + SumGames(bs[1..])
  }

  function SumStories(bs: seq<Bucket>): nat
  {
    if bs == [] then 0 else bs[0].stories + SumStories(bs[1..])
  }

  /** The games completed on one of the days numbered `first` to `last`. */
  function GamesOnDays(first: int, last: int): (tests: seq<Test>)
    ensures |tests| == 1 && tests[0].InDays? && tests[0].field == "completedAt"
  {
    [InDays("completedAt", first, last)]
  }

  /** The completed stories created on one of the days numbered `first` to `last`. */
  function StoriesOnDays(first: int, last: int): (tests: seq<Test>)
    ensures |tests| == 2 && tests[0] == IsTruthy("completed") && tests[1].InDays? && tests[1].field == "createdAt"
  {
    [IsTruthy("completed")] + [InDays("createdAt", first, last)]
  }

  /** Splitting the oldest day off a range of days, for games and for stories. */
  lemma GamesSplit(rs: seq<Record>, first: int, last: int)
    requires first <= last
    ensures Count(rs, GamesOnDays(first, last))
         == Count(rs, GamesOnDays(first, first)) + Count(rs, GamesOnDays(first + 1, last))
  {
    DaysSplit(rs, [], "completedAt", first, last);
    assert [] + [InDays("completedAt", first, last)] == GamesOnDays(first, last);
    assert [] + [InDays("completedAt", first, first)] == GamesOnDays(first, first);
    assert [] + [InDays("completedAt", first + 1, last)] == GamesOnDays(first + 1, last);
  }

  lemma StoriesSplit(rs: seq<Record>, first: int, last: int)
    requires first <= last
    ensures Count(rs, StoriesOnDays(first, last))
         == Count(rs, StoriesOnDays(first, first)) + Count(rs, StoriesOnDays(first + 1, last))
  {
    DaysSplit(rs, [IsTruthy("completed")], "createdAt", first, last);
  }

  /** A day's bucket counts the games and the completed stories of that day. */
  lemma DayBucket(gp: seq<Record>, sp: seq<Record>, day: Time)
    ensures BucketOf(gp, sp, DayWindow(day)).games
         == Count(gp, GamesOnDays(DayOf(day), DayOf(day)))
    ensures BucketOf(gp, sp, DayWindow(day)).stories
         == Count(sp, StoriesOnDays(DayOf(day), DayOf(day)))
  {
    assert GamesIn(DayWindow(day)) == [] + [Between("completedAt", StartOfDay(day), EndOfDay(day))];
    DayWindowCount(gp, [], "completedAt", day);
    assert [] + [InDays("completedAt", DayOf(day), DayOf(day))] == [InDays("completedAt", DayOf(day), DayOf(day))];
    DayWindowCount(sp, [IsTruthy("completed")], "createdAt", day);
  }

  /** Taking the oldest day off a daily report. */
  lemma DailyFirst(gp: seq<Record>, sp: seq<Record>, now: Time, n: int)
    requires n >= 1
    ensures var bs := DailyProgress(gp, sp, now, n);
            var first := BucketOf(gp, sp, DayWindow(AddDays(now, -(n - 1))));
            SumGames(bs) == first.games + SumGames(DailyProgress(gp, sp, now, n - 1))
            && SumStories(bs) == first.stories + SumStories(DailyProgress(gp, sp, now, n - 1))
  {
    var day := AddDays(now, -(n - 1));
    DailyGrow(now, n - 1);
    ReportConcat(gp, sp, [DayWindow(day)], DailyWindows(now, n - 1));
    ReportOne(gp, sp, DayWindow(day));
    SumsCons(BucketOf(gp, sp, DayWindow(day)), DailyProgress(gp, sp, now, n - 1));
  }

  lemma ReportOne(gp: seq<Record>, sp: seq<Record>, w: Window)
    ensures Report(gp, sp, [w]) == [BucketOf(gp, sp, w)]
  {
  }

  lemma SumsCons(b: Bucket, bs: seq<Bucket>)
    ensures SumGames([b] + bs) == b.games + SumGames(bs)
    ensures SumStories([b] + bs) == b.stories + SumStories(bs)
  {
    assert ([b] + bs)[1..] == bs;
  }

  /** The oldest day of a daily report, day number `first`, contributes the games and stories
      of that day. */
  lemma DailyOldest(gp: seq<Record>, sp: seq<Record>, now: Time, n: int, first: int)
    requires n >= 1 && first == DayOf(now) - (n - 1)
    ensures var bs := DailyProgress(gp, sp, now, n);
            var rest := DailyProgress(gp, sp, now, n - 1);
            SumGames(bs) == Count(gp, GamesOnDays(first, first)) + SumGames(rest)
            && SumStories(bs) == Count(sp, StoriesOnDays(first, first))
                                 + SumStories(rest)
  {
    var day := AddDays(now, -(n - 1));
    OldestDay(now, n, first);
    DailyFirst(gp, sp, now, n);
    DayBucket(gp, sp, day);
  }

  lemma OldestDay(now: Time, n: int, first: int)
    requires first == DayOf(now) - (n - 1)
    ensures DayOf(AddDays(now, -(n - 1))) == first
  {
    DayShift(now, -(n - 1));
  }

  /** The daily report over the `n` days numbered `first` to today counts every game completed
      on one of those days, once, except the games completed exactly at midnight or at the
      day's last millisecond. */
  lemma {:induction false} DailyGamesTotal(gp: seq<Record>, sp: seq<Record>, now: Time, n: int, first: int)
    requires n >= 1 && first == DayOf(now) - (n - 1)
    ensures SumGames(DailyProgress(gp, sp, now, n)) == Count(gp, GamesOnDays(first, DayOf(now)))
  {
    if n == 1 {
      DailyOldest(gp, sp, now, n, first);
      DailyNone(gp, sp, now, n - 1);
      assert first == DayOf(now);
    } else {
      DailyGamesTotal(gp, sp, now, n - 1, first + 1);
      DailyGamesStep(gp, sp, now, n, first);
    }
  }

  /** A report of no days counts nothing. */
  lemma DailyNone(gp: seq<Record>, sp: seq<Record>, now: Time, n: int)
    requires n <= 0
    ensures SumGames(DailyProgress(gp, sp, now, n)) == 0
    ensures SumStories(DailyProgress(gp, sp, now, n)) == 0
  {
    assert DailyProgress(gp, sp, now, n) == [];
  }

  lemma DailyGamesStep(gp: seq<Record>, sp: seq<Record>, now: Time, n: int, first: int)
    requires n >= 2 && first == DayOf(now) - (n - 1)
    requires SumGames(DailyProgress(gp, sp, now, n - 1)) == Count(gp, GamesOnDays(first + 1, DayOf(now)))
    ensures SumGames(DailyProgress(gp, sp, now, n)) == Count(gp, GamesOnDays(first, DayOf(now)))
  {
    DailyOldest(gp, sp, now, n, first);
    GamesSplit(gp, first, DayOf(now));
  }

  /** The same for stories: every completed story created on one of the `n` days counts once,
      except at the two boundary milliseconds of each day. */
  lemma {:induction false} DailyStoriesTotal(gp: seq<Record>, sp: seq<Record>, now: Time, n: int, first: int)
    requires n >= 1 && first == DayOf(now) - (n - 1)
    ensures SumStories(DailyProgress(gp, sp, now, n))
         == Count(sp, StoriesOnDays(first, DayOf(now)))
  {
    if n == 1 {
      DailyOldest(gp, sp, now, n, first);
      DailyNone(gp, sp, now, n - 1);
      assert first == DayOf(now);
    } else {
      DailyStoriesTotal(gp, sp, now, n - 1, first + 1);
      DailyStoriesStep(gp, sp, now, n, first);
    }
  }

  lemma DailyStoriesStep(gp: seq<Record>, sp: seq<Record>, now: Time, n: int, first: int)
    requires n >= 2 && first == DayOf(now) - (n - 1)
    requires SumStories(DailyProgress(gp, sp, now, n - 1))
          == Count(sp, StoriesOnDays(first + 1, DayOf(now)))
    ensures SumStories(DailyProgress(gp, sp, now, n))
         == Count(sp, StoriesOnDays(first, DayOf(now)))
  {
    DailyOldest(gp, sp, now, n, first);
    StoriesSplit(sp, first, DayOf(now));
  }

  // ---------------------------------------------------------------------------
  // Weekly windows

  /** Week `i` is labelled "Week i+1", starts at midnight `weeks - 1 - i` weeks before today
      and spans seven whole days less its two boundary milliseconds; consecutive weeks are
      seven days apart and do not overlap. */
  lemma WeeklyShape(now: Time, weeks: int)
    ensures var ws := WeeklyWindows(now, weeks);
            |ws| == (if weeks > 0 then weeks else 0)
            && (forall i :: 0 <= i < |ws| ==>
                  ws[i].name == WeekLabel(i + 1)
                  && ws[i].start == StartOfDay(now) - 7 * (weeks - 1 - i) * DayMs
                  && ws[i].end == ws[i].start + 7 * DayMs - 1)
            && (forall i :: 0 <= i < |ws| - 1 ==>
                  ws[i + 1].start == ws[i].start + 7 * DayMs && ws[i].end < ws[i + 1].start)
  {
    var ws := WeeklyWindows(now, weeks);
    forall i | 0 <= i < |ws|
      ensures ws[i].start == StartOfDay(now) - 7 * (weeks - 1 - i) * DayMs
      ensures ws[i].end == ws[i].start + 7 * DayMs - 1
    {
      DayShift(now, -7 * (weeks - 1 - i));
      var s := ws[i].start;
      DayShift(s, 6);
    }
  }

  /** No game is counted in two different weeks. */
  lemma WeeksDisjoint(gp: seq<Record>, now: Time, weeks: int, i: int, j: int, r: Record)
    requires 0 <= i < j < |WeeklyWindows(now, weeks)|
    ensures var ws := WeeklyWindows(now, weeks);
            !(r in Filter(gp, GamesIn(ws[i])) && r in Filter(gp, GamesIn(ws[j])))
  {
    var ws := WeeklyWindows(now, weeks);
    WeeklyShape(now, weeks);
    GameCounted(gp, ws[i], r);
    GameCounted(gp, ws[j], r);
    assert ws[i].end < ws[j].start;
  }

  // ---------------------------------------------------------------------------
  // Monthly windows

  /** Month `i` is labelled with its own start, which is midnight of the day `months - 1 - i`
      months before now, and it ends one millisecond before midnight of the day a month after
      its start. */
  lemma MonthlyShape(now: Time, months: int, addMonths: (Time, int) -> Time)
    ensures var ws := MonthlyWindows(now, months, addMonths);
            |ws| == (if months > 0 then months else 0)
            && forall i :: 0 <= i < |ws| ==>
                 ws[i].name == MonthLabel(ws[i].start)
                 && ws[i].start == StartOfDay(addMonths(now, -(months - 1 - i)))
                 && ws[i].end == StartOfDay(addMonths(ws[i].start, 1)) - 1
  {
    var ws := MonthlyWindows(now, months, addMonths);
    forall i | 0 <= i < |ws| ensures ws[i].end == StartOfDay(addMonths(ws[i].start, 1)) - 1 {
      DayShift(addMonths(ws[i].start, 1), -1);
    }
  }

  /** Consecutive months abut when a month after this month's anchor is the day of the next
      anchor (which date-fns day clamping can break, at the end of long months): the only
      instants between them that neither counts are the two boundary milliseconds. */
  lemma MonthsAbut(now: Time, months: int, addMonths: (Time, int) -> Time, i: int)
    requires 0 <= i < months - 1
    requires var start := StartOfDay(addMonths(now, -(months - 1 - i)));
             DayOf(addMonths(start, 1)) == DayOf(addMonths(now, -(months - 2 - i)))
    ensures var ws := MonthlyWindows(now, months, addMonths);
            ws[i].end + 1 == ws[i + 1].start
  {
    MonthlyShape(now, months, addMonths);
  }
}
