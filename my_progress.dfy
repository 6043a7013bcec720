/** The progress page: totals, the two world bars, the recent-games list and the three
    achievements. */
module MyProgress {
  import opened JsValues
  import opened Query
  import Home

  /** `mathGamesProgress` and `readingGamesProgress`: the same lists as the home page, with no
      world argument. */
  function MathGames(gp: seq<Record>): (out: seq<Record>)
    ensures out == Home.ProgressForWorld(gp, Str("math"))
    ensures forall r :: r in out <==> r in gp && Field(r, "gameId") in Home.MathWorldIds
  {
    Filter(gp, [OneOf("gameId", Home.MathWorldIds)])
  }

  function ReadingGames(gp: seq<Record>): (out: seq<Record>)
    ensures out == Home.ProgressForWorld(gp, Str("reading"))
    ensures forall r :: r in out <==> r in gp && Field(r, "gameId") in Home.ReadingWorldIds
  {
    Filter(gp, [OneOf("gameId", Home.ReadingWorldIds)])
  }

  /** `(matching.length / 5) * 100`: five games per world, but every play counts, so a
      learner who replays one game fills the bar and goes past it. */
  function WorldProgress(matching: seq<Record>): (pct: real)
    ensures pct == 20.0 * |matching| as real
    ensures pct >= 0.0
  {
    (|matching| as real / 5.0) * 100.0
  }

  /** Six plays of one and the same math game give a bar of 120. */
  lemma ReplaysOverfill(r: Record)
    requires Field(r, "gameId") == Str("counting")
    ensures WorldProgress(MathGames([r, r, r, r, r, r])) == 120.0
  {
    var six := [r, r, r, r, r, r];
    assert forall i :: 0 <= i < |six| ==> Passes(six[i], [OneOf("gameId", Home.MathWorldIds)]);
    FilterAll(six, [OneOf("gameId", Home.MathWorldIds)]);
  }

  lemma {:induction false} FilterAll(rs: seq<Record>, tests: seq<Test>)
    requires forall i :: 0 <= i < |rs| ==> Passes(rs[i], tests)
    ensures Filter(rs, tests) == rs
  {
    if rs != [] {
      FilterAll(rs[1..], tests);
      assert [rs[0]] + rs[1..] == rs;
    }
  }

  /** `allGames.find(g => g.Id === id)`: the first game with that id, present exactly when
      there is one. */
  function GameWithId(allGames: seq<Record>, id: Value): (g: Option<Record>)
    ensures g.Some? <==> exists x :: x in allGames && StrictEq(Field(x, "Id"), id)
    ensures g.Some? ==> StrictEq(Field(g.value, "Id"), id)
    ensures g.Some? ==>
              exists i :: 0 <= i < |allGames| && allGames[i] == g.value &&
                (forall j :: 0 <= j < i ==> !StrictEq(Field(allGames[j], "Id"), id))
  {
    var k := FindIndex(allGames, [Equals("Id", id)]);
    if k >= 0 then
      PassesOne(allGames[k], Equals("Id", id));
      assert forall j :: 0 <= j < k ==> !StrictEq(Field(allGames[j], "Id"), id) by {
        forall j | 0 <= j < k ensures !StrictEq(Field(allGames[j], "Id"), id) {
          PassesOne(allGames[j], Equals("Id", id));
        }
      }
      Some(allGames[k])
    else
      assert forall x :: x in allGames ==> !StrictEq(Field(x, "Id"), id) by {
        forall x | x in allGames ensures !StrictEq(Field(x, "Id"), id) {
          var j :| 0 <= j < |allGames| && allGames[j] == x;
          PassesOne(allGames[j], Equals("Id", id));
        }
      }
      None
  }

  /** `gameProgress.slice(0, 6)`, each record with the first game it names, or nothing when no
      game has that id (`if (!game) return null`). */
  function RecentGames(gp: seq<Record>, allGames: seq<Record>): (shown: seq<Option<Record>>)
    ensures |shown| == if |gp| < 6 then |gp| else 6
    ensures forall i :: 0 <= i < |shown| ==>
              (shown[i].Some? <==> exists g :: g in allGames && StrictEq(Field(g, "Id"), Field(gp[i], "gameId")))
    ensures forall i :: 0 <= i < |shown| && shown[i].Some? ==>
              StrictEq(Field(shown[i].value, "Id"), Field(gp[i], "gameId")) &&
              exists k :: 0 <= k < |allGames| && allGames[k] == shown[i].value &&
                (forall j :: 0 <= j < k ==> !StrictEq(Field(allGames[j], "Id"), Field(gp[i], "gameId")))
  {
    var first := gp[..if |gp| < 6 then |gp| else 6];
    var shown := seq(|first|, i requires 0 <= i < |first| => GameWithId(allGames, Field(first[i], "gameId")));
    assert forall i :: 0 <= i < |shown| ==> shown[i] == GameWithId(allGames, Field(gp[i], "gameId"));
    shown
  }

  // ---------------------------------------------------------------------------
  // Achievements

  datatype Achievements = Achievements(firstStar: bool, readingRookie: bool, gameMaster: bool)

  /** `totalStars >= 1`, `totalStoriesRead >= 1` and `totalGamesPlayed >= 5`; a NaN star
      total compares false. */
  function Earned(gp: seq<Record>, sp: seq<Record>): (a: Achievements)
    ensures a.firstStar <==> Home.TotalStars(gp).Num? && Home.TotalStars(gp).n >= 1
    ensures a.readingRookie <==> exists i :: 0 <= i < |sp| && Truthy(Field(sp[i], "completed"))
    ensures a.gameMaster <==> |gp| >= 5
  {
    var totalStars := Home.TotalStars(gp);
    Achievements(totalStars.Num? && totalStars.n >= 1, Home.CompletedStories(sp) >= 1, |gp| >= 5)
  }

  /** Every finished game records one to three stars, so one game is enough for First Star. */
  lemma FirstStarAfterOneGame(gp: seq<Record>)
    requires |gp| >= 1
    requires forall i :: 0 <= i < |gp| ==> Field(gp[i], "starsEarned").Num? && 1 <= Field(gp[i], "starsEarned").n <= 3
    ensures Earned(gp, []).firstStar
  {
    Home.TotalStarsIsSum(gp);
    Home.TotalCoinsAtMostPaid(gp);
  }

  /** A record without `starsEarned` keeps First Star locked whatever else is played. */
  lemma MissingStarsLockFirstStar(gp: seq<Record>, sp: seq<Record>, i: int)
    requires 0 <= i < |gp| && "starsEarned" !in gp[i]
    ensures !Earned(gp, sp).firstStar
  {
    Home.MissingStarsSpoilTotal(gp, i);
  }

  /** Playing more never takes Game Master or Reading Rookie away. */
  lemma AchievementsStay(gp: seq<Record>, sp: seq<Record>, moreGames: seq<Record>, moreStories: seq<Record>)
    ensures Earned(gp, sp).gameMaster ==> Earned(gp + moreGames, sp + moreStories).gameMaster
    ensures Earned(gp, sp).readingRookie ==> Earned(gp + moreGames, sp + moreStories).readingRookie
  {
    if Earned(gp, sp).readingRookie {
      var i :| 0 <= i < |sp| && Truthy(Field(sp[i], "completed"));
      assert (sp + moreStories)[i] == sp[i];
    }
  }
}
