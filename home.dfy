/** The home page's derived figures: the learner's records split by world, the running
    totals, and the three counters of the daily challenge with their progress bars. */
module Home {
  import opened JsValues
  import opened Query

  /** The games of Math World on the home and progress pages. */
  const MathWorldIds: seq<Value> :=
    [Str("counting"), Str("addition"), Str("subtraction"), Str("shapes"), Str("patterns")]

  /** The games of Reading Land on the home and progress pages. */
  const ReadingWorldIds: seq<Value> :=
    [Str("letters"), Str("phonics"), Str("sight-words"), Str("rhyming"), Str("vocabulary")]

  /** `getProgressForWorld(worldId)`: the records of the world's games, in store order; a
      world other than `'math'` and `'reading'` keeps nothing. */
  function ProgressForWorld(gp: seq<Record>, worldId: Value): (out: seq<Record>)
    ensures |out| <= |gp|
    ensures forall r :: r in out <==> r in gp && ((StrictEq(worldId, Str("math")) && Field(r, "gameId") in MathWorldIds)
                                               || (StrictEq(worldId, Str("reading")) && Field(r, "gameId") in ReadingWorldIds))
  {
    if StrictEq(worldId, Str("math")) then
      FilterElements(gp, [OneOf("gameId", MathWorldIds)]);
      PassesAll(gp, OneOf("gameId", MathWorldIds));
      Filter(gp, [OneOf("gameId", MathWorldIds)])
    else if StrictEq(worldId, Str("reading")) then
      FilterElements(gp, [OneOf("gameId", ReadingWorldIds)]);
      PassesAll(gp, OneOf("gameId", ReadingWorldIds));
      Filter(gp, [OneOf("gameId", ReadingWorldIds)])
    else
      []
  }

  lemma PassesAll(gp: seq<Record>, t: Test)
    ensures forall r :: Passes(r, [t]) <==> Holds(r, t)
  {
    forall r ensures Passes(r, [t]) <==> Holds(r, t) {
      PassesOne(r, t);
    }
  }

  /** No record belongs to both worlds, since the two lists share no game. */
  lemma WorldsDisjoint(gp: seq<Record>, r: Record)
    ensures !(r in ProgressForWorld(gp, Str("math")) && r in ProgressForWorld(gp, Str("reading")))
  {
    if r in ProgressForWorld(gp, Str("math")) {
      assert Field(r, "gameId") in MathWorldIds;
      assert forall v :: v in MathWorldIds ==> v !in ReadingWorldIds;
    }
  }

  /** `gameProgress.reduce((sum, p) => sum + p.starsEarned, 0)`: with no `|| 0`, a single
      record without a numeric `starsEarned` makes the total NaN. */
  function TotalStars(gp: seq<Record>): (t: Value)
    ensures t.Num? || t.NaN?
    ensures t.Num? <==> forall i :: 0 <= i < |gp| ==> ToNumber(Field(gp[i], "starsEarned")).Num?
  {
    if gp == [] then Num(0)
    else
      var init := TotalStars(gp[..|gp| - 1]);
      assert forall i :: 0 <= i < |gp| - 1 ==> gp[..|gp| - 1][i] == gp[i];
      Plus(init, Field(gp[|gp| - 1], "starsEarned"))
  }

  /** When every record carries a number of stars, the home page's total is the star sum the
      analytics use. */
  lemma {:induction false} TotalStarsIsSum(gp: seq<Record>)
    requires forall i :: 0 <= i < |gp| ==> Field(gp[i], "starsEarned").Num?
    ensures TotalStars(gp) == Num(SumStars(gp))
  {
    if gp != [] {
      var init := gp[..|gp| - 1];
      assert forall i :: 0 <= i < |init| ==> init[i] == gp[i];
      TotalStarsIsSum(init);
    }
  }

  /** A record whose `starsEarned` is missing makes the total NaN for good. */
  lemma MissingStarsSpoilTotal(gp: seq<Record>, i: int)
    requires 0 <= i < |gp| && "starsEarned" !in gp[i]
    ensures TotalStars(gp).NaN?
  {
  }

  /** `gameProgress.length * 10`: ten coins per record, whatever the stars. */
  function TotalCoins(gp: seq<Record>): (c: nat)
    ensures c == 10 * |gp|
  {
    |gp| * 10
  }

  /** The games actually pay ten coins per star and earn one to three stars, so the home
      page's `totalCoins` (computed but not displayed) never exceeds the coins paid, and equals
      them only when every game earned a single star. */
  lemma {:induction false} TotalCoinsAtMostPaid(gp: seq<Record>)
    requires forall i :: 0 <= i < |gp| ==> Field(gp[i], "starsEarned").Num? && 1 <= Field(gp[i], "starsEarned").n <= 3
    ensures TotalCoins(gp) <= 10 * SumStars(gp)
    ensures TotalCoins(gp) == 10 * SumStars(gp) <==> forall i :: 0 <= i < |gp| ==> Field(gp[i], "starsEarned") == Num(1)
  {
    if gp != [] {
      var init := gp[..|gp| - 1];
      assert forall i :: 0 <= i < |init| ==> init[i] == gp[i];
      TotalCoinsAtMostPaid(init);
      assert StarsOrZero(gp[|gp| - 1]) == Field(gp[|gp| - 1], "starsEarned").n;
      if TotalCoins(gp) == 10 * SumStars(gp) {
        forall i | 0 <= i < |gp| ensures Field(gp[i], "starsEarned") == Num(1) {
          if i < |init| {
            assert init[i] == gp[i];
          }
        }
      }
    }
  }

  /** `storyProgress.filter(p => p.completed).length` */
  function CompletedStories(sp: seq<Record>): (n: nat)
    ensures n <= |sp|
    ensures n == 0 <==> forall i :: 0 <= i < |sp| ==> !Truthy(Field(sp[i], "completed"))
  {
    FilterElements(sp, [IsTruthy("completed")]);
    PassesAll(sp, IsTruthy("completed"));
    if Count(sp, [IsTruthy("completed")]) == 0 then
      assert forall i :: 0 <= i < |sp| ==> !Truthy(Field(sp[i], "completed")) by {
        forall i | 0 <= i < |sp| ensures !Truthy(Field(sp[i], "completed")) {
          assert sp[i] in sp;
        }
      }
      0
    else
      var r := Filter(sp, [IsTruthy("completed")])[0];
      assert r in sp;
      Count(sp, [IsTruthy("completed")])
  }

  // ---------------------------------------------------------------------------
  // The daily challenge

  /** The challenge counters and bars: play 2 games, read 1 story, earn 3 stars. A NaN star
      total leaves its counter and its bar NaN, shown as `none` for the bar. */
  datatype Goals = Goals(games: int, stories: int, stars: Value,
                         gamesBar: real, storiesBar: real, starsBar: Option<real>)

  /** `Math.min(x, target)` and `Math.min((x / target) * 100, 100)` */
  function Counter(x: int, target: nat): (c: int)
    ensures c <= target && c <= x
    ensures c == x || c == target
  {
    if x < target then x else target
  }

  function Bar(x: int, target: nat): (b: real)
    requires target > 0
    ensures b <= 100.0
    ensures b == 100.0 <==> x >= target
  {
    var pct := (x as real / target as real) * 100.0;
    if pct < 100.0 then pct else 100.0
  }

  function DailyGoals(gp: seq<Record>, sp: seq<Record>): (g: Goals)
    ensures g.games <= 2 && g.stories <= 1
    ensures g.stars.Num? ==> g.stars.n <= 3
    ensures g.stars.NaN? <==> g.starsBar.None?
    ensures g.gamesBar <= 100.0 && g.storiesBar <= 100.0
    ensures g.starsBar.Some? ==> g.starsBar.value <= 100.0
  {
    var games := |gp|;
    var stories := CompletedStories(sp);
    var stars := TotalStars(gp);
    Goals(Counter(games, 2), Counter(stories, 1),
          if stars.Num? then Num(Counter(stars.n, 3)) else NaN,
          Bar(games, 2), Bar(stories, 1),
          if stars.Num? then Some(Bar(stars.n, 3)) else None)
  }

  /** A counter shows its target exactly when its bar is full: the two displays of each goal
      agree on whether it is met. */
  lemma GoalsAgree(gp: seq<Record>, sp: seq<Record>)
    ensures var g := DailyGoals(gp, sp);
            (g.games == 2 <==> g.gamesBar == 100.0)
            && (g.stories == 1 <==> g.storiesBar == 100.0)
            && (g.stars == Num(3) <==> g.starsBar == Some(100.0))
            && (g.games == 2 <==> |gp| >= 2)
            && (g.stories == 1 <==> exists i :: 0 <= i < |sp| && Truthy(Field(sp[i], "completed")))
  {
  }
}
