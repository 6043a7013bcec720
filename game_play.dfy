/** The game page: five generated questions, the answer step, and the stars and coins a
    finished game earns. Every `Math.random()` draw is a parameter in [0, 1). */
module GamePlay {
  import opened JsValues
  import opened Clock
  import opened Query
  import GameProgressStore
  import RewardsStore

  /** A multiple-choice question: the answers offered and the one that scores. */
  datatype Question = Question(options: seq<Value>, correct: Value)

  /** `Math.floor(Math.random() * k)`: an index into a list of `k` items. */
  function Pick(r: real, k: nat): (i: int)
    requires 0.0 <= r < 1.0 && k > 0
    ensures 0 <= i < k
  {
    var x := r * k as real;
    assert 0.0 <= x < k as real;
    x.Floor
  }

  /** `.filter(n => n >= lo)` on a list of numbers. */
  function AtLeast(xs: seq<int>, lo: int): (ys: seq<int>)
    ensures forall y :: y in ys <==> y in xs && y >= lo
    ensures |ys| <= |xs|
  {
    if xs == [] then []
    else (if xs[0] >= lo then [xs[0]] else []) + AtLeast(xs[1..], lo)
  }

  function Nums(xs: seq<int>): (vs: seq<Value>)
    ensures |vs| == |xs|
    ensures forall i :: 0 <= i < |xs| ==> vs[i] == Num(xs[i])
  {
    if xs == [] then [] else [Num(xs[0])] + Nums(xs[1..])
  }

  function Strs(xs: seq<string>): (vs: seq<Value>)
    ensures |vs| == |xs|
    ensures forall i :: 0 <= i < |xs| ==> vs[i] == Str(xs[i])
  {
    if xs == [] then [] else [Str(xs[0])] + Strs(xs[1..])
  }

  /** No answer is offered twice. */
  predicate NoRepeats(vs: seq<Value>)
  {
    forall i, j :: 0 <= i < j < |vs| ==> vs[i] != vs[j]
  }

  /** The answers around `n`: `[n - 1, n, n + 1, n + 2]`, keeping those at least `lo`. */
  function Around(n: int, lo: int): seq<Value>
  {
    Nums(AtLeast([n - 1, n, n + 1, n + 2], lo))
  }

  predicate Increasing(xs: seq<int>)
  {
    forall i, j :: 0 <= i < j < |xs| ==> xs[i] < xs[j]
  }

  /** Filtering keeps an increasing list increasing. */
  lemma {:induction false} AtLeastIncreasing(xs: seq<int>, lo: int)
    requires Increasing(xs)
    ensures Increasing(AtLeast(xs, lo))
  {
    if xs != [] {
      AtLeastIncreasing(xs[1..], lo);
      var rest := AtLeast(xs[1..], lo);
      forall k | 0 <= k < |rest| ensures xs[0] < rest[k] {
        assert rest[k] in rest;
        var j :| 0 <= j < |xs[1..]| && xs[1..][j] == rest[k];
        assert xs[j + 1] == rest[k];
      }
      if xs[0] >= lo {
        var ys := AtLeast(xs, lo);
        assert ys == [xs[0]] + rest;
        forall i, j | 0 <= i < j < |ys| ensures ys[i] < ys[j] {
          assert ys[j] == rest[j - 1];
          if i > 0 {
            assert ys[i] == rest[i - 1];
            assert rest[i - 1] < rest[j - 1];
          }
        }
      }
    }
  }

  /** Nothing is dropped when every number is at least the bound. */
  lemma {:induction false} AtLeastAll(xs: seq<int>, lo: int)
    requires forall i :: 0 <= i < |xs| ==> xs[i] >= lo
    ensures AtLeast(xs, lo) == xs
  {
    if xs != [] {
      AtLeastAll(xs[1..], lo);
      assert [xs[0]] + xs[1..] == xs;
    }
  }

  lemma IncreasingNoRepeats(xs: seq<int>)
    requires Increasing(xs)
    ensures NoRepeats(Nums(xs))
  {
    var vs := Nums(xs);
    forall i, j | 0 <= i < j < |vs| ensures vs[i] != vs[j] {
      assert vs[i] == Num(xs[i]) && vs[j] == Num(xs[j]);
    }
  }

  lemma AroundMeaning(n: int, lo: int)
    ensures var os := Around(n, lo);
            NoRepeats(os)
            && (forall v :: v in os <==> v.Num? && n - 1 <= v.n <= n + 2 && v.n >= lo)
            && (n >= lo ==> Num(n) in os)
  {
    var xs := [n - 1, n, n + 1, n + 2];
    var ys := AtLeast(xs, lo);
    AtLeastIncreasing(xs, lo);
    IncreasingNoRepeats(ys);
    NumsMembers(ys);
    forall v: Value | v.Num? ensures v.n in xs <==> n - 1 <= v.n <= n + 2 {
      if n - 1 <= v.n <= n + 2 {
        assert v.n == xs[v.n - (n - 1)];
      }
    }
  }

  /** The answers built from numbers are exactly those numbers. */
  lemma {:induction false} NumsMembers(xs: seq<int>)
    ensures forall v :: v in Nums(xs) <==> v.Num? && v.n in xs
  {
    forall v ensures v in Nums(xs) <==> v.Num? && v.n in xs {
      if v in Nums(xs) {
        var i :| 0 <= i < |Nums(xs)| && Nums(xs)[i] == v;
        assert xs[i] in xs;
      }
      if v.Num? && v.n in xs {
        var i :| 0 <= i < |xs| && xs[i] == v.n;
        assert Nums(xs)[i] == v;
      }
    }
  }

  // ---------------------------------------------------------------------------
  // Fixed lists

  const Shapes: seq<string> := ["circle", "square", "triangle", "rectangle"]
  const PatternOptions: seq<string> := ["🔴", "🔵", "🟡", "🟢"]
  const Letters: seq<string> := ["A", "B", "C", "D", "E", "F", "G", "H"]
  const Sounds: seq<string> := ["buh", "kuh", "duh", "fuh"]
  const SightWords: seq<string> := ["the", "and", "you", "see", "can", "go", "me", "up"]
  const Rhymes: seq<seq<string>> :=
    [["hat", "dog", "car", "run"], ["fun", "moon", "star", "tree"], ["wall", "book", "fish", "bird"]]
  const Definitions: seq<string> := ["feeling good and joyful", "large in size", "moving quickly"]

  /** No text occurs twice in the list. */
  predicate AllDifferent(xs: seq<string>)
  {
    forall i, j :: 0 <= i < j < |xs| ==> xs[i] != xs[j]
  }

  /** Distinct texts make distinct answers. */
  lemma StrsDistinct(xs: seq<string>)
    requires AllDifferent(xs)
    ensures NoRepeats(Strs(xs))
  {
    var vs := Strs(xs);
    forall i, j | 0 <= i < j < |vs| ensures vs[i] != vs[j] {
      assert vs[i] == Str(xs[i]) && vs[j] == Str(xs[j]);
    }
  }

  lemma ShapesDiffer()
    ensures AllDifferent(Shapes)
  {
  }

  lemma PatternsDiffer()
    ensures AllDifferent(PatternOptions)
  {
  }

  lemma LettersDiffer()
    ensures AllDifferent(Letters)
  {
  }

  lemma SightWordsDiffer()
    ensures AllDifferent(SightWords)
  {
  }

  lemma FallbackDiffer()
    ensures AllDifferent(["B", "C", "D", "E"])
  {
  }

  /** Each rhyme list is offered as it is, with no answer twice. */
  lemma RhymesDiffer(i: int)
    requires 0 <= i < |Rhymes|
    ensures AllDifferent(Rhymes[i])
  {
    assert "book"[1] != "bird"[1];
  }

  /** The drawn sound differs from the three fixed distractors. */
  lemma SoundsDiffer(i: int)
    requires 0 <= i < |Sounds|
    ensures AllDifferent([Sounds[i], "tuh", "puh", "muh"])
  {
  }

  /** The drawn definition differs from the three fixed distractors. */
  lemma DefinitionsDiffer(i: int)
    requires 0 <= i < |Definitions|
    ensures AllDifferent([Definitions[i], "small in size", "moving slowly", "feeling sad"])
  {
  }

  /** The item drawn and the next three, wrapping round the list (`letters` and `sight-words`). */
  function NextFour(items: seq<string>, i: int): seq<Value>
    requires 0 <= i < |items|
  {
    var n := |items|;
    Strs([items[i], items[(i + 1) % n], items[(i + 2) % n], items[(i + 3) % n]])
  }

  /** `(i + k) % n` for a position and a step both below `n`: one wrap at most. */
  lemma Wrap(i: int, k: int, n: int)
    requires 0 <= i < n && 0 <= k < n
    ensures (i + k) % n == if i + k < n then i + k else i + k - n
  {
    if i + k >= n {
      assert i + k == n + (i + k - n);
    }
  }

  /** Four consecutive positions of a list of at least four distinct items are four distinct items. */
  lemma NextFourDistinct(items: seq<string>, i: int)
    requires 0 <= i < |items| && |items| >= 4
    requires AllDifferent(items)
    ensures NoRepeats(NextFour(items, i)) && Str(items[i]) in NextFour(items, i)
    ensures |NextFour(items, i)| == 4
  {
    var n := |items|;
    Wrap(i, 1, n);
    Wrap(i, 2, n);
    Wrap(i, 3, n);
    var ps := [i, (i + 1) % n, (i + 2) % n, (i + 3) % n];
    var xs := [items[i], items[(i + 1) % n], items[(i + 2) % n], items[(i + 3) % n]];
    forall a, b | 0 <= a < b < 4 ensures xs[a] != xs[b] {
      assert ps[a] != ps[b];
      assert xs[a] == items[ps[a]] && xs[b] == items[ps[b]];
    }
    StrsDistinct(xs);
    assert NextFour(items, i)[0] == Str(items[i]);
  }

  // ---------------------------------------------------------------------------
  // Generators

  /** `generateMathQuestion(gameId)`; `r1` and `r2` are the draws in the order the code makes
      them (a generator that draws less ignores the rest). */
  function MathQuestion(gameId: Value, r1: real, r2: real): (q: Question)
    requires 0.0 <= r1 < 1.0 && 0.0 <= r2 < 1.0
    ensures q.correct in q.options && NoRepeats(q.options)
  {
    if gameId == Str("counting") then
      var n := Pick(r1, 10) + 1;
      AroundMeaning(n, 1);
      Question(Around(n, 1), Num(n))
    else if gameId == Str("addition") then
      var a := Pick(r1, 5) + 1;
      var b := Pick(r2, 5) + 1;
      AroundMeaning(a + b, 1);
      Question(Around(a + b, 1), Num(a + b))
    else if gameId == Str("subtraction") then
      var c := Pick(r1, 5) + 5;
      var d := Pick(r2, 5) + 1;
      AroundMeaning(c - d, 0);
      Question(Around(c - d, 0), Num(c - d))
    else if gameId == Str("shapes") then
      var shape := Shapes[Pick(r1, |Shapes|)];
      ShapesDiffer();
      StrsDistinct(Shapes);
      assert Strs(Shapes)[Pick(r1, |Shapes|)] == Str(shape);
      Question(Strs(Shapes), Str(shape))
    else if gameId == Str("patterns") then
      PatternsDiffer();
      StrsDistinct(PatternOptions);
      assert Strs(PatternOptions)[0] == Str("🔴");
      Question(Strs(PatternOptions), Str("🔴"))
    else
      IncreasingNoRepeats([1, 2, 3, 4]);
      assert Nums([1, 2, 3, 4])[1] == Num(2);
      Question(Nums([1, 2, 3, 4]), Num(2))
  }

  /** `generateReadingQuestion(gameId)`, with its one draw. */
  function ReadingQuestion(gameId: Value, r: real): (q: Question)
    requires 0.0 <= r < 1.0
    ensures q.correct in q.options && NoRepeats(q.options)
  {
    if gameId == Str("letters") then
      var i := Pick(r, |Letters|);
      LettersDiffer();
      NextFourDistinct(Letters, i);
      Question(NextFour(Letters, i), Str(Letters[i]))
    else if gameId == Str("phonics") then
      var sound := Sounds[Pick(r, |Sounds|)];
      var os := Strs([sound, "tuh", "puh", "muh"]);
      SoundsDiffer(Pick(r, |Sounds|));
      StrsDistinct([sound, "tuh", "puh", "muh"]);
      assert os[0] == Str(sound);
      Question(os, Str(sound))
    else if gameId == Str("sight-words") then
      var i := Pick(r, |SightWords|);
      SightWordsDiffer();
      NextFourDistinct(SightWords, i);
      Question(NextFour(SightWords, i), Str(SightWords[i]))
    else if gameId == Str("rhyming") then
      var options := Rhymes[Pick(r, |Rhymes|)];
      RhymesDiffer(Pick(r, |Rhymes|));
      StrsDistinct(options);
      assert Strs(options)[0] == Str(options[0]);
      Question(Strs(options), Str(options[0]))
    else if gameId == Str("vocabulary") then
      var definition := Definitions[Pick(r, |Definitions|)];
      var os := Strs([definition, "small in size", "moving slowly", "feeling sad"]);
      DefinitionsDiffer(Pick(r, |Definitions|));
      StrsDistinct([definition, "small in size", "moving slowly", "feeling sad"]);
      assert os[0] == Str(definition);
      Question(os, Str(definition))
    else
      var os := Strs(["B", "C", "D", "E"]);
      FallbackDiffer();
      StrsDistinct(["B", "C", "D", "E"]);
      assert os[0] == Str("B");
      Question(os, Str("B"))
  }

  /** The counting question: a number from 1 to 10, offered with its neighbours that are
      positive, so 1 comes with three answers and every other number with four. */
  lemma CountingQuestion(r1: real, r2: real)
    requires 0.0 <= r1 < 1.0 && 0.0 <= r2 < 1.0
    ensures var q := MathQuestion(Str("counting"), r1, r2);
            q.correct.Num? && 1 <= q.correct.n <= 10
            && |q.options| == (if q.correct.n == 1 then 3 else 4)
            && forall v :: v in q.options ==> v.Num? && v.n > 0
  {
    var n := Pick(r1, 10) + 1;
    assert MathQuestion(Str("counting"), r1, r2) == Question(Around(n, 1), Num(n));
    AroundMeaning(n, 1);
    var xs := [n - 1, n, n + 1, n + 2];
    if n == 1 {
      assert xs[1..] == [1, 2, 3];
      AtLeastAll(xs[1..], 1);
      assert AtLeast(xs, 1) == [1, 2, 3];
    } else {
      AtLeastAll(xs, 1);
    }
  }

  /** The addition question: both terms from 1 to 5, so the answer is from 2 to 10, and every
      answer offered is positive. */
  lemma AdditionQuestion(r1: real, r2: real)
    requires 0.0 <= r1 < 1.0 && 0.0 <= r2 < 1.0
    ensures var q := MathQuestion(Str("addition"), r1, r2);
            q.correct.Num? && 2 <= q.correct.n <= 10
            && |q.options| == 4
            && forall v :: v in q.options ==> v.Num? && v.n > 0
  {
    var s := Pick(r1, 5) + 1 + Pick(r2, 5) + 1;
    AroundMeaning(s, 1);
    AtLeastAll([s - 1, s, s + 1, s + 2], 1);
  }

  /** The subtraction question: from 5..9 take 1..5, so the answer is never negative, and
      neither is any answer offered. */
  lemma SubtractionQuestion(r1: real, r2: real)
    requires 0.0 <= r1 < 1.0 && 0.0 <= r2 < 1.0
    ensures var q := MathQuestion(Str("subtraction"), r1, r2);
            q.correct.Num? && 0 <= q.correct.n <= 8
            && forall v :: v in q.options ==> v.Num? && v.n >= 0
  {
    var c := Pick(r1, 5) + 5;
    var d := Pick(r2, 5) + 1;
    AroundMeaning(c - d, 0);
  }

  /** The letters and sight-words questions offer four different answers. */
  lemma CyclicQuestions(r: real)
    requires 0.0 <= r < 1.0
    ensures |ReadingQuestion(Str("letters"), r).options| == 4
    ensures |ReadingQuestion(Str("sight-words"), r).options| == 4
  {
    var i := Pick(r, |Letters|);
    var j := Pick(r, |SightWords|);
    LettersDiffer();
    SightWordsDiffer();
    assert ReadingQuestion(Str("letters"), r).options == NextFour(Letters, i);
    assert ReadingQuestion(Str("sight-words"), r).options == NextFour(SightWords, j);
    NextFourDistinct(Letters, i);
    NextFourDistinct(SightWords, j);
  }

  /** One draw pair per question. */
  predicate Draws(ds: seq<(real, real)>)
  {
    forall i :: 0 <= i < |ds| ==> 0.0 <= ds[i].0 < 1.0 && 0.0 <= ds[i].1 < 1.0
  }

  /** The question for one pair of draws: from the math generator exactly when the game's type
      is `'math'`. */
  function QuestionFor(game: Record, d: (real, real)): (q: Question)
    requires 0.0 <= d.0 < 1.0 && 0.0 <= d.1 < 1.0
    ensures q.correct in q.options && NoRepeats(q.options)
  {
    if Field(game, "type") == Str("math") then MathQuestion(Field(game, "Id"), d.0, d.1)
    else ReadingQuestion(Field(game, "Id"), d.0)
  }

  /** The question for each pair of draws, in order. */
  function Planned(game: Record, draws: seq<(real, real)>): (qs: seq<Question>)
    requires Draws(draws)
    ensures |qs| == |draws|
    ensures forall k :: 0 <= k < |qs| ==> qs[k].correct in qs[k].options && NoRepeats(qs[k].options)
  {
    seq(|draws|, k requires 0 <= k < |draws| => QuestionFor(game, draws[k]))
  }

  /** `generateQuestions(gameData)`: five questions, one per pair of draws. */
  method GenerateQuestions(game: Record, draws: seq<(real, real)>) returns (questions: seq<Question>)
    requires |draws| >= 5 && Draws(draws)
    ensures |questions| == 5
    ensures forall i :: 0 <= i < 5 ==> questions[i] == QuestionFor(game, draws[i])
    ensures forall i :: 0 <= i < 5 ==> questions[i].correct in questions[i].options
  {
    questions := [];
    var questionCount := 5;
    var i := 0;
    while i < questionCount
      invariant 0 <= i <= questionCount
      invariant |questions| == i
      invariant questions == Planned(game, draws)[..i]
    {
      var d := draws[i];
      var q: Question;
      if Field(game, "type") == Str("math") {
        q := MathQuestion(Field(game, "Id"), d.0, d.1);
      } else {
        q := ReadingQuestion(Field(game, "Id"), d.0);
      }
      assert q == Planned(game, draws)[i];
      PrefixStep(Planned(game, draws), i);
      questions := questions + [q];
      i := i + 1;
    }
  }

  // ---------------------------------------------------------------------------
  // Playing

  /** `Math.min(3, Math.max(1, finalScore))`: at least one star even with no correct answer. */
  function Stars(score: int): (s: int)
    ensures 1 <= s <= 3
    ensures 1 <= score <= 3 ==> s == score
    ensures score < 1 ==> s == 1
    ensures score > 3 ==> s == 3
  {
    var atLeastOne := if score > 1 then score else 1;
    if atLeastOne < 3 then atLeastOne else 3
  }

  /** Ten coins per star. */
  function Coins(score: int): (c: int)
    ensures c == 10 * Stars(score)
    ensures c % 10 == 0 && 10 <= c <= 30
  {
    Stars(score) * 10
  }

  /** The part of the page's state the game rules read and write. */
  datatype Play = Play(currentQuestion: int, score: int, lives: int, isPlaying: bool, isComplete: bool)

  /** After `generateQuestions`: first question, no score, three lives, playing. */
  const Start := Play(0, 0, 3, true, false)

  /** `handleAnswerSelect(answer)` once its timers have run. The answer is checked with `===`
      against the current question; the choice between the next question and `endGame` reads
      the position and the lives as they were when the answer was given. */
  function Answer(s: Play, questions: seq<Question>, answer: Value): (t: Play)
    requires 0 <= s.currentQuestion < |questions|
    ensures StrictEq(answer, questions[s.currentQuestion].correct) ==> t.score == s.score + 1 && t.lives == s.lives
    ensures !StrictEq(answer, questions[s.currentQuestion].correct) ==> t.score == s.score && t.lives == s.lives - 1
    ensures s.currentQuestion + 1 >= |questions| || s.lives <= 1 ==>
              t.isComplete && !t.isPlaying && t.currentQuestion == s.currentQuestion
    ensures !(s.currentQuestion + 1 >= |questions| || s.lives <= 1) ==>
              t.isComplete == s.isComplete && t.isPlaying == s.isPlaying
              && t.currentQuestion == s.currentQuestion + 1
  {
    var scored := if StrictEq(answer, questions[s.currentQuestion].correct)
                  then s.(score := s.score + 1)
                  else s.(lives := s.lives - 1);
    if s.currentQuestion + 1 >= |questions| || s.lives <= 1 then scored.(isComplete := true, isPlaying := false)
    else scored.(currentQuestion := scored.currentQuestion + 1)
  }

  /** While a game is being played: a current question, at least one life left, and every
      answer so far either scored a point or cost a life. */
  predicate InPlay(s: Play, n: nat)
  {
    s.isPlaying && !s.isComplete && 0 <= s.currentQuestion < n && 1 <= s.lives <= 3
    && 0 <= s.score && s.score + (3 - s.lives) == s.currentQuestion
  }

  /** A finished game: every answer given scored a point or cost a life, and no more lives
      were lost than there were. */
  predicate Finished(s: Play, n: nat)
  {
    !s.isPlaying && s.isComplete && 0 <= s.currentQuestion < n && 0 <= s.lives <= 3
    && 0 <= s.score && s.score + (3 - s.lives) == s.currentQuestion + 1
  }

  lemma StartInPlay(n: nat)
    requires n > 0
    ensures InPlay(Start, n)
  {
  }

  /** Each answer either moves to the next question with the game still in play, or ends the
      game; lives never go below zero, and a game of `n` questions ends after at most `n`
      answers. */
  lemma AnswerKeepsPlay(s: Play, questions: seq<Question>, answer: Value)
    requires InPlay(s, |questions|)
    ensures var t := Answer(s, questions, answer);
            (InPlay(t, |questions|) || Finished(t, |questions|))
            && (t.isComplete <==> s.currentQuestion == |questions| - 1 || s.lives == 1)
  {
  }

  /** The stars awarded read the score as it was before the last answer, so the last answer
      of a game never changes its reward: one earlier point and a correct last answer end with
      a score of 2 and one star. */
  lemma LastAnswerNotRewarded(s: Play, questions: seq<Question>, answer: Value)
    requires InPlay(s, |questions|) && s.currentQuestion == |questions| - 1 && s.score == 1
    requires StrictEq(answer, questions[s.currentQuestion].correct)
    ensures var t := Answer(s, questions, answer);
            t.isComplete && t.score == 2 && Stars(t.score) == 2 && Stars(s.score) == 1
  {
  }

  /** The page's game state. */
  class GameSession {
    var questions: seq<Question>
    var currentQuestion: int
    var score: int
    var lives: int
    var isPlaying: bool
    var isComplete: bool

    function State(): Play
      reads this
    {
      Play(currentQuestion, score, lives, isPlaying, isComplete)
    }

    /** The initial state, before any question is generated. */
    constructor ()
      ensures State() == Play(0, 0, 3, false, false) && questions == []
    {
      questions := [];
      currentQuestion, score, lives := 0, 0, 3;
      isPlaying, isComplete := false, false;
    }

    /** `generateQuestions` on load or `handleRestart`: a fresh round of five questions. */
    method Begin(game: Record, draws: seq<(real, real)>)
      requires |draws| >= 5 && Draws(draws)
      modifies this
      ensures |questions| == 5 && State() == Start
      ensures forall i :: 0 <= i < 5 ==> questions[i] == QuestionFor(game, draws[i])
      ensures forall i :: 0 <= i < 5 ==> questions[i].correct in questions[i].options
    {
      questions := GenerateQuestions(game, draws);
      currentQuestion, score, lives := 0, 0, 3;
      isPlaying, isComplete := true, false;
    }

    /** `handleAnswerSelect(answer)`; when the game ends, also the stars and coins `endGame`
        computes from the score it read. */
    method AnswerSelect(answer: Value) returns (reward: Option<(int, int)>)
      requires 0 <= currentQuestion < |questions|
      modifies this
      ensures questions == old(questions)
      ensures State() == Answer(old(State()), questions, answer)
      ensures reward.Some? <==> old(currentQuestion) + 1 >= |questions| || old(lives) <= 1
      ensures reward.Some? ==> reward.value == (Stars(old(score)), Coins(old(score)))
    {
      var finalScore := score;
      var endNow := currentQuestion + 1 >= |questions| || lives <= 1;
      var isCorrect := StrictEq(answer, questions[currentQuestion].correct);
      if isCorrect {
        score := score + 1;
      } else {
        lives := lives - 1;
      }
      if endNow {
        isComplete, isPlaying := true, false;
        var stars := Stars(finalScore);
        var coins := stars * 10;
        reward := Some((stars, coins));
      } else {
        currentQuestion := currentQuestion + 1;
        reward := None;
      }
    }
  }

  /** The game-completion record `endGame` writes, dated with the current instant. */
  function Completion(profile: Record, gameId: Value, difficultyLevel: Value, stars: int, now: Time): (r: Record)
    ensures Field(r, "profileId") == Field(profile, "Id") && Field(r, "gameId") == gameId
    ensures Field(r, "starsEarned") == Num(stars) && Field(r, "attemptsCount") == Num(1)
    ensures Field(r, "completedAt") == Num(now) && "Id" !in r
  {
    map["profileId" := Field(profile, "Id"), "gameId" := gameId, "starsEarned" := Num(stars),
        "attemptsCount" := Num(1), "difficultyLevel" := difficultyLevel, "completedAt" := Num(now)]
  }

  /** `{ totalStars: (p.totalStars || 0) + stars, totalCoins: (p.totalCoins || 0) + coins }` */
  function TotalsAfter(profile: Record, stars: int, coins: int): (u: Record)
    ensures u.Keys == {"totalStars", "totalCoins"}
    ensures ToNumber(OrZero(Field(profile, "totalStars"))).Num? ==>
              u["totalStars"] == Num(ToNumber(OrZero(Field(profile, "totalStars"))).n + stars)
    ensures ToNumber(OrZero(Field(profile, "totalCoins"))).Num? ==>
              u["totalCoins"] == Num(ToNumber(OrZero(Field(profile, "totalCoins"))).n + coins)
  {
    map["totalStars" := Plus(OrZero(Field(profile, "totalStars")), Num(stars)),
        "totalCoins" := Plus(OrZero(Field(profile, "totalCoins")), Num(coins))]
  }

  /** `v || 0` */
  function OrZero(v: Value): (r: Value)
    ensures Truthy(v) ==> r == v
    ensures !Truthy(v) ==> r == Num(0)
  {
    if Truthy(v) then v else Num(0)
  }

  /** The part of `endGame` that writes: one game-completion record, then the learner's
      running totals, added to what the profile says, through the rewards upsert. */
  method SaveResult(progress: GameProgressStore.GameProgressService, rewards: RewardsStore.RewardsService,
                    profile: Record, gameId: Value, difficultyLevel: Value, stars: int, coins: int, now: Time)
    returns (completion: Record, saved: Record)
    modifies progress, rewards
    ensures completion == map["Id" := NextId(old(progress.records))]
                          + Completion(profile, gameId, difficultyLevel, stars, now)
                          + map["createdAt" := Num(now)]
    ensures progress.records == old(progress.records) + [completion]
    ensures RewardsStore.Upserted(rewards.records, saved)
         == RewardsStore.UpsertReward(old(rewards.records), Field(profile, "Id"), TotalsAfter(profile, stars, coins), now)
  {
    completion := progress.Create(Completion(profile, gameId, difficultyLevel, stars, now), now);
    saved := rewards.Update(Field(profile, "Id"), TotalsAfter(profile, stars, coins), now);
  }
}
