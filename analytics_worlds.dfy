/** `getWorldDistribution`: how the learner's activity splits between Math World and
    Reading Land, classified by fixed tables of game ids. */
module AnalyticsWorlds {
  import opened JsValues
  import opened Query

  /** The game ids the analytics count as Math World. */
  const MathGameIds: seq<Value> :=
    [Str("counting"), Str("addition"), Str("subtraction"), Str("multiplication"), Str("division")]

  /** The game ids the analytics count as Reading Land. */
  const ReadingGameIds: seq<Value> :=
    [Str("letters"), Str("words"), Str("reading"), Str("phonics"), Str("vocabulary")]

  datatype WorldStats = WorldStats(activities: nat, timeSpent: int, starsEarned: int)

  datatype Distribution = Distribution(mathWorld: WorldStats, readingLand: WorldStats)

  /** `ids.includes(p.gameId)` */
  function GameIn(ids: seq<Value>): seq<Test>
  {
    [OneOf("gameId", ids)]
  }

  /** `p => p.completed` */
  function Completed(): seq<Test>
  {
    [IsTruthy("completed")]
  }

  /** Math World: its games, five minutes each; Reading Land: its games and the completed
      stories, five minutes per game and ten per story. */
  function WorldDistribution(gp: seq<Record>, sp: seq<Record>): (d: Distribution)
    ensures d.mathWorld.activities <= |gp| && d.mathWorld.timeSpent == 5 * d.mathWorld.activities
    ensures d.readingLand.activities <= |gp| + |sp|
    ensures 5 * d.readingLand.activities <= d.readingLand.timeSpent <= 10 * d.readingLand.activities
  {
    var mathGames := Filter(gp, GameIn(MathGameIds));
    var readingGames := Filter(gp, GameIn(ReadingGameIds));
    var stories := Filter(sp, Completed());
    Distribution(
      WorldStats(|mathGames|, |mathGames| * 5, SumStars(mathGames)),
      WorldStats(|readingGames| + |stories|, |readingGames| * 5 + |stories| * 10, SumStars(readingGames)))
  }

  /** The two tables share no id, so no game counts for both worlds. */
  lemma TablesDisjoint(gp: seq<Record>, r: Record)
    ensures !(r in Filter(gp, GameIn(MathGameIds)) && r in Filter(gp, GameIn(ReadingGameIds)))
  {
    FilterElements(gp, GameIn(MathGameIds));
    FilterElements(gp, GameIn(ReadingGameIds));
    PassesOne(r, OneOf("gameId", MathGameIds));
    PassesOne(r, OneOf("gameId", ReadingGameIds));
  }

  /** Math World counts only its own games, five minutes each; Reading Land counts its games
      plus the completed stories, five minutes per game and ten per story; stars come from
      games only, so the story records never change any star count. */
  lemma DistributionMeaning(gp: seq<Record>, sp: seq<Record>, sp': seq<Record>)
    ensures var d := WorldDistribution(gp, sp);
            var mathPlays := Count(gp, GameIn(MathGameIds));
            var readingPlays := Count(gp, GameIn(ReadingGameIds));
            var stories := Count(sp, Completed());
            d.mathWorld.activities == mathPlays
            && d.mathWorld.timeSpent == 5 * mathPlays
            && d.readingLand.activities == readingPlays + stories
            && d.readingLand.timeSpent == 5 * readingPlays + 10 * stories
            && d.mathWorld == WorldDistribution(gp, sp').mathWorld
            && d.readingLand.starsEarned == WorldDistribution(gp, sp').readingLand.starsEarned
  {
  }

  /** A game whose id is in neither table changes nothing. */
  lemma OtherGameIgnored(gp: seq<Record>, sp: seq<Record>, r: Record)
    requires Field(r, "gameId") !in MathGameIds && Field(r, "gameId") !in ReadingGameIds
    ensures WorldDistribution(gp + [r], sp) == WorldDistribution(gp, sp)
  {
    FilterAppend(gp, r, GameIn(MathGameIds));
    FilterAppend(gp, r, GameIn(ReadingGameIds));
    PassesOne(r, OneOf("gameId", MathGameIds));
    PassesOne(r, OneOf("gameId", ReadingGameIds));
    assert Filter(gp + [r], GameIn(MathGameIds)) == Filter(gp, GameIn(MathGameIds));
    assert Filter(gp + [r], GameIn(ReadingGameIds)) == Filter(gp, GameIn(ReadingGameIds));
  }

  /** A further math game adds one activity, five minutes and its stars to Math World and
      leaves Reading Land alone. */
  lemma MathGameAdds(gp: seq<Record>, sp: seq<Record>, r: Record)
    requires Field(r, "gameId") in MathGameIds
    ensures var before := WorldDistribution(gp, sp);
            var after := WorldDistribution(gp + [r], sp);
            after.mathWorld == WorldStats(before.mathWorld.activities + 1,
                                          before.mathWorld.timeSpent + 5,
                                          before.mathWorld.starsEarned + StarsOrZero(r))
            && after.readingLand == before.readingLand
  {
    FilterAppend(gp, r, GameIn(MathGameIds));
    FilterAppend(gp, r, GameIn(ReadingGameIds));
    PassesOne(r, OneOf("gameId", MathGameIds));
    PassesOne(r, OneOf("gameId", ReadingGameIds));
    SumStarsConcat(Filter(gp, GameIn(MathGameIds)), [r]);
    assert Filter(gp + [r], GameIn(ReadingGameIds)) == Filter(gp, GameIn(ReadingGameIds));
    assert SumStars([r]) == StarsOrZero(r) by {
      assert [r][..0] == [];
    }
  }

  /** A further reading game adds one activity, five minutes and its stars to Reading Land
      and leaves Math World alone. */
  lemma ReadingGameAdds(gp: seq<Record>, sp: seq<Record>, r: Record)
    requires Field(r, "gameId") in ReadingGameIds
    ensures var before := WorldDistribution(gp, sp);
            var after := WorldDistribution(gp + [r], sp);
            after.readingLand == WorldStats(before.readingLand.activities + 1,
                                            before.readingLand.timeSpent + 5,
                                            before.readingLand.starsEarned + StarsOrZero(r))
            && after.mathWorld == before.mathWorld
  {
    FilterAppend(gp, r, GameIn(MathGameIds));
    FilterAppend(gp, r, GameIn(ReadingGameIds));
    PassesOne(r, OneOf("gameId", MathGameIds));
    PassesOne(r, OneOf("gameId", ReadingGameIds));
    SumStarsConcat(Filter(gp, GameIn(ReadingGameIds)), [r]);
    assert Filter(gp + [r], GameIn(MathGameIds)) == Filter(gp, GameIn(MathGameIds));
    assert SumStars([r]) == StarsOrZero(r) by {
      assert [r][..0] == [];
    }
  }

  /** A further completed story adds one activity and ten minutes to Reading Land and no
      stars; an unfinished one changes nothing. */
  lemma StoryAdds(gp: seq<Record>, sp: seq<Record>, s: Record)
    ensures var before := WorldDistribution(gp, sp);
            var after := WorldDistribution(gp, sp + [s]);
            after.mathWorld == before.mathWorld
            && after.readingLand == if Truthy(Field(s, "completed"))
                                    then WorldStats(before.readingLand.activities + 1,
                                                    before.readingLand.timeSpent + 10,
                                                    before.readingLand.starsEarned)
                                    else before.readingLand
  {
    FilterAppend(sp, s, Completed());
    PassesOne(s, IsTruthy("completed"));
  }
}
