/** `getTopGames(limit)`: one entry per game id with how often it was played, the stars it
    earned and the average stars per play, most played first. */
module AnalyticsRanking {
  import opened JsValues
  import opened Query

  /** `averageStars` is kept in tenths of a star (`averageTenths / 10`). */
  datatype GameStat = GameStat(gameId: Value, timesPlayed: nat, totalStars: int, averageTenths: int)

  /** `Math.round((total / played) * 10) / 10`, in tenths: `Math.round(x)` is `floor(x + 1/2)`,
      so the result is the tenth nearest to the exact average, a half rounded up. */
  function AverageTenths(total: int, played: int): (r: int)
    requires played > 0
    ensures NearestTenth(r, total, played)
  {
    var n := 20 * total + played;
    var q := n / (2 * played);
    assert n == 2 * played * q + n % (2 * played) && 0 <= n % (2 * played) < 2 * played;
    assert (2 * q - 1) * played == 2 * played * q - played;
    assert (2 * q + 1) * played == 2 * played * q + played;
    q
  }

  /** `r` tenths is the tenth nearest to `total / played` stars, a half rounded up:
      `r - 1/2 <= 10 * total / played < r + 1/2`. */
  predicate NearestTenth(r: int, total: int, played: int)
  {
    (2 * r - 1) * played <= 20 * total < (2 * r + 1) * played
  }

  /** `p => p.gameId` names this game (the dictionary key: SameValue, so NaN finds NaN). */
  function OfGame(id: Value): seq<Test>
  {
    [OneOf("gameId", [id])]
  }

  /** The game ids in the order their first record appears: the insertion order of the
      `gameStats` dictionary. `Object.values` follows it for ids that are not integer-like
      text; integer-like ids would come first in ascending order, which is not modelled. */
  function Distinct(rs: seq<Record>): (d: seq<Value>)
    ensures forall i :: 0 <= i < |rs| ==> Field(rs[i], "gameId") in d
    ensures forall i, j :: 0 <= i < j < |d| ==> d[i] != d[j]
  {
    if rs == [] then []
    else
      var init := rs[..|rs| - 1];
      var rest := Distinct(init);
      var id := Field(rs[|rs| - 1], "gameId");
      assert forall i :: 0 <= i < |rs| - 1 ==> init[i] == rs[i];
      if id in rest then rest else rest + [id]
  }

  /** The entry of one game. */
  function StatOf(rs: seq<Record>, id: Value): GameStat
  {
    var played := Count(rs, OfGame(id));
    var stars := SumStars(Filter(rs, OfGame(id)));
    GameStat(id, played, stars, if played > 0 then AverageTenths(stars, played) else 0)
  }

  /** The dictionary entry of one game before the averages pass: plays and stars so far. */
  function Tally(rs: seq<Record>, id: Value): GameStat
  {
    GameStat(id, Count(rs, OfGame(id)), SumStars(Filter(rs, OfGame(id))), 0)
  }

  /** Adding the rounded average to a game's tally gives its entry. */
  lemma AveragedTally(rs: seq<Record>, id: Value)
    ensures var t := Tally(rs, id);
            t.(averageTenths := if t.timesPlayed > 0 then AverageTenths(t.totalStars, t.timesPlayed) else 0)
            == StatOf(rs, id)
  {
  }

  /** What the tally pass of `getTopGames` keeps: the ids in first-seen order, one entry per
      id, and each entry the tally of its game. */
  ghost predicate Tallied(rs: seq<Record>, order: seq<Value>, m: map<Value, GameStat>)
  {
    && order == Distinct(rs)
    && (forall id :: id in m <==> id in order)
    && (forall id :: id in m ==> m[id] == Tally(rs, id))
  }

  /** One step of the tally pass: create the entry on the game's first record, then add one
      play and the record's stars. */
  function Counted(m: map<Value, GameStat>, r: Record): (m': map<Value, GameStat>)
    ensures m'.Keys == m.Keys + {Field(r, "gameId")}
  {
    var id := Field(r, "gameId");
    var stat := if id in m then m[id] else GameStat(id, 0, 0, 0);
    m[id := stat.(timesPlayed := stat.timesPlayed + 1, totalStars := stat.totalStars + StarsOrZero(r))]
  }

  /** The dictionary of the tally pass, and the order in which its entries were created. */
  datatype Tallies = Tallies(order: seq<Value>, stats: map<Value, GameStat>)

  /** The tally pass over a prefix of the records, one record at a time. */
  function TallyOf(rs: seq<Record>): Tallies
  {
    if rs == [] then Tallies([], map[])
    else
      var t := TallyOf(rs[..|rs| - 1]);
      var r := rs[|rs| - 1];
      var id := Field(r, "gameId");
      Tallies(if id in t.stats then t.order else t.order + [id], Counted(t.stats, r))
  }

  /** `Object.values(gameStats)` once the averages are in. */
  function Stats(rs: seq<Record>): (s: seq<GameStat>)
    ensures |s| == |Distinct(rs)|
  {
    var ids := Distinct(rs);
    seq(|ids|, i requires 0 <= i < |ids| => StatOf(rs, ids[i]))
  }

  // ---------------------------------------------------------------------------
  // Stable sort by plays, most first

  /** Inserts after every entry played at least as often, so that equal entries keep their order. */
  function InsertByPlays(s: seq<GameStat>, x: GameStat): (r: seq<GameStat>)
    ensures |r| == |s| + 1
  {
    if s == [] then [x]
    else if s[0].timesPlayed >= x.timesPlayed then [s[0]] + InsertByPlays(s[1..], x)
    else [x] + s
  }

  /** `.sort((a, b) => b.timesPlayed - a.timesPlayed)`; the sort is stable. It keeps exactly
      the entries it is given. */
  function SortByPlays(s: seq<GameStat>): (r: seq<GameStat>)
    ensures multiset(r) == multiset(s)
  {
    if s == [] then []
    else
      var sorted := SortByPlays(s[..|s| - 1]);
      InsertMultiset(sorted, s[|s| - 1]);
      SplitLast(s);
      InsertByPlays(sorted, s[|s| - 1])
  }

  predicate MostPlayedFirst(s: seq<GameStat>)
  {
    forall i, j :: 0 <= i < j < |s| ==> s[i].timesPlayed >= s[j].timesPlayed
  }

  /** The entries played exactly `p` times, in order. */
  function WithPlays(s: seq<GameStat>, p: nat): seq<GameStat>
  {
    if s == [] then [] else (if s[0].timesPlayed == p then [s[0]] else []) + WithPlays(s[1..], p)
  }

  /** `.slice(0, limit)`: a negative limit counts from the end. */
  function SliceTo<T>(s: seq<T>, limit: int): (r: seq<T>)
    ensures r <= s
    ensures limit >= 0 ==> |r| == (if limit < |s| then limit else |s|)
    ensures limit < 0 ==> |r| == (if |s| + limit > 0 then |s| + limit else 0)
  {
    var end := if limit < 0 then (if |s| + limit > 0 then |s| + limit else 0)
               else if limit < |s| then limit else |s|;
    s[..end]
  }

  /** `getTopGames(limit)`: the first `limit` entries of the ranking. */
  function TopGames(rs: seq<Record>, limit: int): (top: seq<GameStat>)
    ensures top <= SortByPlays(Stats(rs))
    ensures limit >= 0 ==> |top| == if limit < |Distinct(rs)| then limit else |Distinct(rs)|
  {
    assert |SortByPlays(Stats(rs))| == |multiset(SortByPlays(Stats(rs)))| == |Stats(rs)|;
    SliceTo(SortByPlays(Stats(rs)), limit)
  }

  // ---------------------------------------------------------------------------
  // Lemmas

  /** Adding one record to the tally of one game. */
  lemma TallyAppend(rs: seq<Record>, r: Record, id: Value)
    ensures Count(rs + [r], OfGame(id)) == Count(rs, OfGame(id)) + (if Field(r, "gameId") == id then 1 else 0)
    ensures SumStars(Filter(rs + [r], OfGame(id)))
         == SumStars(Filter(rs, OfGame(id))) + (if Field(r, "gameId") == id then StarsOrZero(r) else 0)
  {
    var f := Filter(rs, OfGame(id));
    FilterAppend(rs, r, OfGame(id));
    PassesOne(r, OneOf("gameId", [id]));
    if Field(r, "gameId") == id {
      assert Filter(rs + [r], OfGame(id)) == f + [r];
      SumStarsConcat(f, [r]);
      assert SumStars([r]) == StarsOrZero(r) by {
        assert [r][..0] == [];
      }
    } else {
      assert Filter(rs + [r], OfGame(id)) == f + [];
      assert f + [] == f;
    }
  }

  /** A game id with no record has an empty tally. */
  lemma TallyAbsent(rs: seq<Record>, id: Value)
    requires id !in Distinct(rs)
    ensures Filter(rs, OfGame(id)) == []
  {
    forall i | 0 <= i < |rs| ensures !Passes(rs[i], OfGame(id)) {
      PassesOne(rs[i], OneOf("gameId", [id]));
    }
    FilterNone(rs, OfGame(id));
  }

  /** Every listed id is the game id of some record. */
  lemma {:induction false} DistinctSeen(rs: seq<Record>)
    ensures forall x :: x in Distinct(rs) ==> exists i :: 0 <= i < |rs| && Field(rs[i], "gameId") == x
  {
    if rs != [] {
      var init := rs[..|rs| - 1];
      DistinctSeen(init);
      forall x | x in Distinct(rs) ensures exists i :: 0 <= i < |rs| && Field(rs[i], "gameId") == x {
        if x in Distinct(init) {
          var i :| 0 <= i < |init| && Field(init[i], "gameId") == x;
          assert rs[i] == init[i];
        } else {
          assert Field(rs[|rs| - 1], "gameId") == x;
        }
      }
    }
  }

  /** A record of a game not yet seen adds its id at the end of the first-seen order. */
  lemma DistinctAppend(rs: seq<Record>, r: Record)
    ensures var id := Field(r, "gameId");
            Distinct(rs + [r]) == if id in Distinct(rs) then Distinct(rs) else Distinct(rs) + [id]
  {
    var all := rs + [r];
    assert all[..|all| - 1] == rs;
  }

  /** A record changes the tally of its own game only. */
  lemma TallyAppendEntry(rs: seq<Record>, r: Record, id: Value)
    ensures Tally(rs + [r], id)
         == if Field(r, "gameId") == id
            then Tally(rs, id).(timesPlayed := Tally(rs, id).timesPlayed + 1,
                                totalStars := Tally(rs, id).totalStars + StarsOrZero(r))
            else Tally(rs, id)
  {
    TallyAppend(rs, r, id);
  }

  /** One entry of the dictionary after a step of the tally pass. */
  lemma CountedEntry(rs: seq<Record>, r: Record, m: map<Value, GameStat>, id: Value)
    requires id in m ==> m[id] == Tally(rs, id)
    requires id !in m ==> Tally(rs, id) == GameStat(id, 0, 0, 0)
    requires id in Counted(m, r)
    ensures Counted(m, r)[id] == Tally(rs + [r], id)
  {
    TallyAppendEntry(rs, r, id);
  }

  /** After one step of the tally pass every entry is the tally of its game. */
  lemma TallyStepEntries(rs: seq<Record>, r: Record, order: seq<Value>, m: map<Value, GameStat>)
    requires Tallied(rs, order, m)
    ensures forall other :: other in Counted(m, r) ==> Counted(m, r)[other] == Tally(rs + [r], other)
  {
    var m' := Counted(m, r);
    forall other | other in m' ensures m'[other] == Tally(rs + [r], other) {
      if other !in m {
        TallyAbsent(rs, other);
      }
      CountedEntry(rs, r, m, other);
    }
  }

  /** The tally pass keeps its invariant from one record to the next. */
  lemma TallyStep(rs: seq<Record>, r: Record, order: seq<Value>, m: map<Value, GameStat>)
    requires Tallied(rs, order, m)
    ensures var id := Field(r, "gameId");
            Tallied(rs + [r], if id in order then order else order + [id], Counted(m, r))
  {
    DistinctAppend(rs, r);
    TallyStepKeys(order, m, r);
    TallyStepEntries(rs, r, order, m);
  }

  /** A step of the tally pass creates an entry exactly for an id it adds to the order. */
  lemma TallyStepKeys(order: seq<Value>, m: map<Value, GameStat>, r: Record)
    requires forall x :: x in m <==> x in order
    ensures var id := Field(r, "gameId");
            forall x :: x in Counted(m, r) <==> x in (if id in order then order else order + [id])
  {
  }

  /** The tally pass ends with the first-seen order of the ids and, for each, its play count
      and star total. */
  lemma {:induction false} TallyOfMeaning(rs: seq<Record>)
    ensures Tallied(rs, TallyOf(rs).order, TallyOf(rs).stats)
  {
    if rs != [] {
      var init := rs[..|rs| - 1];
      var r := rs[|rs| - 1];
      SplitLast(rs);
      var t := TallyOf(init);
      var id := Field(r, "gameId");
      TallyOfMeaning(init);
      assert id in t.stats <==> id in t.order;
      TallyStep(init, r, t.order, t.stats);
      assert TallyOf(rs) == Tallies(if id in t.order then t.order else t.order + [id], Counted(t.stats, r));
    }
  }

  /** One entry per distinct game id: every game played has an entry, and no game has two. */
  lemma StatsCover(rs: seq<Record>)
    ensures var s := Stats(rs);
            (forall i :: 0 <= i < |rs| ==> exists k :: 0 <= k < |s| && s[k].gameId == Field(rs[i], "gameId"))
            && (forall k, l :: 0 <= k < l < |s| ==> s[k].gameId != s[l].gameId)
  {
    var ids := Distinct(rs);
    var s := Stats(rs);
    assert forall k :: 0 <= k < |s| ==> s[k].gameId == ids[k];
    forall i | 0 <= i < |rs|
      ensures exists k :: 0 <= k < |s| && s[k].gameId == Field(rs[i], "gameId")
    {
      var k :| 0 <= k < |ids| && ids[k] == Field(rs[i], "gameId");
      assert s[k].gameId == ids[k];
    }
  }

  /** Each entry was played at least once and carries that game's play count, its star total
      and the average rounded to the nearest tenth. */
  lemma StatsEntries(rs: seq<Record>)
    ensures var s := Stats(rs);
            forall k :: 0 <= k < |s| ==>
              s[k].timesPlayed >= 1
              && s[k].timesPlayed == Count(rs, OfGame(s[k].gameId))
              && s[k].totalStars == SumStars(Filter(rs, OfGame(s[k].gameId)))
              && NearestTenth(s[k].averageTenths, s[k].totalStars, s[k].timesPlayed)
  {
    var ids := Distinct(rs);
    var s := Stats(rs);
    forall k | 0 <= k < |s|
      ensures s[k].timesPlayed >= 1
      ensures s[k].timesPlayed == Count(rs, OfGame(s[k].gameId))
      ensures s[k].totalStars == SumStars(Filter(rs, OfGame(s[k].gameId)))
      ensures NearestTenth(s[k].averageTenths, s[k].totalStars, s[k].timesPlayed)
    {
      assert s[k] == StatOf(rs, ids[k]);
      StatOfSeen(rs, ids[k]);
    }
  }

  /** The entry of a game that occurs in the records. */
  lemma StatOfSeen(rs: seq<Record>, id: Value)
    requires id in Distinct(rs)
    ensures var e := StatOf(rs, id);
            e.timesPlayed >= 1
            && e.gameId == id
            && e.timesPlayed == Count(rs, OfGame(id))
            && e.totalStars == SumStars(Filter(rs, OfGame(id)))
            && NearestTenth(e.averageTenths, e.totalStars, e.timesPlayed)
  {
    SeenPlayed(rs, id);
    var played := Count(rs, OfGame(id));
    var stars := SumStars(Filter(rs, OfGame(id)));
    assert StatOf(rs, id) == GameStat(id, played, stars, AverageTenths(stars, played));
  }

  /** A game that occurs in the records was played at least once. */
  lemma SeenPlayed(rs: seq<Record>, id: Value)
    requires id in Distinct(rs)
    ensures Count(rs, OfGame(id)) >= 1
  {
    DistinctSeen(rs);
    var i :| 0 <= i < |rs| && Field(rs[i], "gameId") == id;
    FilterElements(rs, OfGame(id));
    PassesOne(rs[i], OneOf("gameId", [id]));
    assert rs[i] in Filter(rs, OfGame(id));
  }

  lemma {:induction false} InsertMultiset(s: seq<GameStat>, x: GameStat)
    ensures multiset(InsertByPlays(s, x)) == multiset(s) + multiset{x}
  {
    if s != [] && s[0].timesPlayed >= x.timesPlayed {
      InsertMultiset(s[1..], x);
      assert s == [s[0]] + s[1..];
    }
  }

  lemma {:induction false} InsertSorted(s: seq<GameStat>, x: GameStat)
    requires MostPlayedFirst(s)
    ensures MostPlayedFirst(InsertByPlays(s, x))
  {
    if s != [] && s[0].timesPlayed >= x.timesPlayed {
      InsertSorted(s[1..], x);
      InsertMultiset(s[1..], x);
      var t := InsertByPlays(s[1..], x);
      forall j | 0 <= j < |t| ensures s[0].timesPlayed >= t[j].timesPlayed {
        assert t[j] in multiset(t);
        assert t[j] in multiset(s[1..]) + multiset{x};
      }
    }
  }

  lemma {:induction false} WithPlaysConcat(a: seq<GameStat>, b: seq<GameStat>, p: nat)
    ensures WithPlays(a + b, p) == WithPlays(a, p) + WithPlays(b, p)
  {
    if a == [] {
      assert a + b == b;
    } else {
      var head := if a[0].timesPlayed == p then [a[0]] else [];
      assert (a + b)[0] == a[0];
      assert (a + b)[1..] == a[1..] + b;
      assert WithPlays(a + b, p) == head + WithPlays(a[1..] + b, p);
      WithPlaysConcat(a[1..], b, p);
      assert head + (WithPlays(a[1..], p) + WithPlays(b, p)) == (head + WithPlays(a[1..], p)) + WithPlays(b, p);
    }
  }

  lemma {:induction false} WithPlaysNone(s: seq<GameStat>, p: nat)
    requires forall i :: 0 <= i < |s| ==> s[i].timesPlayed < p
    ensures WithPlays(s, p) == []
  {
    if s != [] {
      WithPlaysNone(s[1..], p);
    }
  }

  /** Inserting keeps the other entries of the same play count ahead of the new one. */
  lemma {:induction false} InsertStable(s: seq<GameStat>, x: GameStat, p: nat)
    requires MostPlayedFirst(s)
    ensures WithPlays(InsertByPlays(s, x), p) == WithPlays(s, p) + (if x.timesPlayed == p then [x] else [])
  {
    if s == [] {
    } else if s[0].timesPlayed >= x.timesPlayed {
      InsertStable(s[1..], x, p);
      var t := InsertByPlays(s[1..], x);
      assert ([s[0]] + t)[0] == s[0] && ([s[0]] + t)[1..] == t;
    } else {
      assert forall i :: 0 <= i < |s| ==> s[i].timesPlayed < x.timesPlayed;
      if x.timesPlayed == p {
        WithPlaysNone(s, p);
      }
      assert ([x] + s)[0] == x && ([x] + s)[1..] == s;
    }
  }

  lemma {:induction false} SortSorted(s: seq<GameStat>)
    ensures MostPlayedFirst(SortByPlays(s))
  {
    if s != [] {
      SortSorted(s[..|s| - 1]);
      InsertSorted(SortByPlays(s[..|s| - 1]), s[|s| - 1]);
    }
  }

  lemma {:induction false} SortStable(s: seq<GameStat>, p: nat)
    ensures WithPlays(SortByPlays(s), p) == WithPlays(s, p)
  {
    if s != [] {
      var init := s[..|s| - 1];
      var x := s[|s| - 1];
      SortStable(init, p);
      SortSorted(init);
      InsertStable(SortByPlays(init), x, p);
      WithPlaysConcat(init, [x], p);
      assert WithPlays([x], p) == (if x.timesPlayed == p then [x] else []) by {
        assert [x][1..] == [];
      }
      SplitLast(s);
    }
  }

  /** The ranking is most played first, holds exactly the entries it was given, and keeps
      entries with equal play counts in the order they came in. */
  lemma SortByPlaysMeaning(s: seq<GameStat>)
    ensures MostPlayedFirst(SortByPlays(s))
    ensures multiset(SortByPlays(s)) == multiset(s)
    ensures forall p: nat :: WithPlays(SortByPlays(s), p) == WithPlays(s, p)
  {
    SortSorted(s);
    forall p: nat ensures WithPlays(SortByPlays(s), p) == WithPlays(s, p) {
      SortStable(s, p);
    }
  }

  /** `getTopGames(limit)` returns the `limit` most played games (all of them when there are
      fewer; a negative limit drops that many from the end), most played first, ties in the
      order the games were first played, no game twice. */
  lemma TopGamesMeaning(rs: seq<Record>, limit: int)
    ensures var top := TopGames(rs, limit);
            var ranked := SortByPlays(Stats(rs));
            var n := |Distinct(rs)|;
            top <= ranked
            && multiset(ranked) == multiset(Stats(rs))
            && MostPlayedFirst(top)
            && (limit >= 0 ==> |top| == if limit < n then limit else n)
            && (forall p: nat :: WithPlays(ranked, p) == WithPlays(Stats(rs), p))
  {
    SortByPlaysMeaning(Stats(rs));
    var top := TopGames(rs, limit);
    var ranked := SortByPlays(Stats(rs));
    assert |ranked| == |multiset(ranked)| == |Stats(rs)|;
    assert forall i :: 0 <= i < |top| ==> top[i] == ranked[i];
  }
}
