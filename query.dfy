/** The array reads every store and page performs: `filter`, `find`/`findIndex`,
    `Math.max(...ids, 0) + 1` for the next id, and the star sums of `reduce`.

    A callback passed to `filter` or `findIndex` is described by a list of tests that
    must all hold of the record. */
module Query {
  import opened JsValues
  import opened Clock

  datatype Test =
      /** `p[field] === key` */
    | Equals(field: string, key: Value)
      /** `p[field]` is truthy */
    | IsTruthy(field: string)
      /** `isAfter(new Date(p[field]), start) && isBefore(new Date(p[field]), end)` */
    | Between(field: string, start: Time, end: Time)
      /** `keys.includes(p[field])` (SameValueZero: NaN does find NaN) */
    | OneOf(field: string, keys: seq<Value>)
      /** used by specifications: the instant lies on a day numbered `first` to `last`,
          and is neither the first nor the last millisecond of that day */
    | InDays(field: string, first: int, last: int)

  predicate Holds(r: Record, t: Test)
  {
    match t
    case Equals(f, key) => StrictEq(Field(r, f), key)
    case IsTruthy(f) => Truthy(Field(r, f))
    case Between(f, start, end) =>
      var d := DateOf(Field(r, f));
      d.Some? && start < d.value < end
    case OneOf(f, keys) => Field(r, f) in keys
    case InDays(f, first, last) =>
      var d := DateOf(Field(r, f));
      d.Some? && first <= DayOf(d.value) <= last
      && d.value % DayMs != 0 && d.value % DayMs != DayMs - 1
  }

  predicate Passes(r: Record, tests: seq<Test>)
  {
    forall k :: 0 <= k < |tests| ==> Holds(r, tests[k])
  }

  /** `rs.filter(p => tests hold of p)`: the passing records, each as often as it occurs. */
  function Filter(rs: seq<Record>, tests: seq<Test>): (out: seq<Record>)
    ensures |out| <= |rs|
    ensures forall i :: 0 <= i < |out| ==> Passes(out[i], tests)
  {
    if rs == [] then []
    else (if Passes(rs[0], tests) then [rs[0]] else []) + Filter(rs[1..], tests)
  }

  function Count(rs: seq<Record>, tests: seq<Test>): nat
  {
    |Filter(rs, tests)|
  }

  /** `rs.findIndex(p => tests hold of p)`: the first passing position, or -1. */
  function FindIndex(rs: seq<Record>, tests: seq<Test>): (i: int)
    ensures -1 <= i < |rs|
    ensures i >= 0 ==> Passes(rs[i], tests)
    ensures forall j {:trigger Passes(rs[j], tests)} :: 0 <= j < |rs| && (i == -1 || j < i) ==> !Passes(rs[j], tests)
  {
    if rs == [] then -1
    else if Passes(rs[0], tests) then 0
    else
      var k := FindIndex(rs[1..], tests);
      if k == -1 then -1 else k + 1
  }

  /** `p.Id === parseInt(id)`, the lookup of the numeric-id stores. */
  function ById(id: Value): seq<Test>
  {
    [Equals("Id", ParseInt(id))]
  }

  // ---------------------------------------------------------------------------
  // Next id

  /** `Number(p.Id)` as `Math.max` sees it. */
  function IdNumber(r: Record): Value
  {
    ToNumber(Field(r, "Id"))
  }

  /** `Math.max(...rs.map(p => p.Id), 0)`: NaN as soon as one id is not a number,
      otherwise the largest id, and never below 0. */
  function MaxId(rs: seq<Record>): (m: Value)
    ensures m.Num? <==> forall i :: 0 <= i < |rs| ==> IdNumber(rs[i]).Num?
    ensures !m.Num? ==> m.NaN?
    ensures m.Num? ==> 0 <= m.n && forall i :: 0 <= i < |rs| ==> IdNumber(rs[i]).n <= m.n
    ensures m.Num? && m.n != 0 ==> exists i :: 0 <= i < |rs| && IdNumber(rs[i]).n == m.n
  {
    if rs == [] then Num(0)
    else
      var last := IdNumber(rs[|rs| - 1]);
      var rest := MaxId(rs[..|rs| - 1]);
      assert forall i :: 0 <= i < |rs| - 1 ==> rs[..|rs| - 1][i] == rs[i];
      if last.Num? && rest.Num? then Num(if last.n > rest.n then last.n else rest.n) else NaN
  }

  /** `getNextId()`: one more than the largest id (1 for an empty store); NaN when some id
      is not a number. */
  function NextId(rs: seq<Record>): (id: Value)
    ensures id.Num? <==> forall i :: 0 <= i < |rs| ==> IdNumber(rs[i]).Num?
    ensures id.Num? ==> id.n >= 1 && forall i :: 0 <= i < |rs| ==> IdNumber(rs[i]).n < id.n
    ensures !id.Num? ==> id.NaN?
  {
    Plus(MaxId(rs), Num(1))
  }

  // ---------------------------------------------------------------------------
  // Star sums

  /** `game.starsEarned || 0` as a number. */
  function StarsOrZero(r: Record): int
  {
    var v := Field(r, "starsEarned");
    if Truthy(v) && ToNumber(v).Num? then ToNumber(v).n else 0
  }

  /** `rs.reduce((sum, game) => sum + (game.starsEarned || 0), 0)` */
  function SumStars(rs: seq<Record>): int
  {
    if rs == [] then 0 else SumStars(rs[..|rs| - 1]) + StarsOrZero(rs[|rs| - 1])
  }

  /** A numeric `starsEarned` is taken as it is; a missing, falsy or non-numeric one counts
      as no stars. */
  lemma StarsOrZeroMeaning(r: Record)
    ensures Field(r, "starsEarned").Num? ==> StarsOrZero(r) == Field(r, "starsEarned").n
    ensures !Truthy(Field(r, "starsEarned")) || ToNumber(Field(r, "starsEarned")).NaN? ==> StarsOrZero(r) == 0
  {
  }

  /** Records of zero to three stars each add up to at most three stars per record. */
  lemma {:induction false} SumStarsBounds(rs: seq<Record>)
    requires forall i :: 0 <= i < |rs| ==> 0 <= StarsOrZero(rs[i]) <= 3
    ensures 0 <= SumStars(rs) <= 3 * |rs|
  {
    if rs != [] {
      var init := rs[..|rs| - 1];
      assert forall i :: 0 <= i < |init| ==> init[i] == rs[i];
      SumStarsBounds(init);
    }
  }

  // ---------------------------------------------------------------------------
  // Lemmas

  lemma PassesOne(r: Record, t: Test)
    ensures Passes(r, [t]) <==> Holds(r, t)
  {
    assert [t][0] == t;
  }

  lemma PassesConcat(r: Record, a: seq<Test>, b: seq<Test>)
    ensures Passes(r, a + b) <==> Passes(r, a) && Passes(r, b)
  {
    if Passes(r, a) && Passes(r, b) {
      forall k | 0 <= k < |a + b| ensures Holds(r, (a + b)[k]) {
        if k >= |a| { assert (a + b)[k] == b[k - |a|]; }
      }
    }
    if Passes(r, a + b) {
      forall k | 0 <= k < |a| ensures Holds(r, a[k]) {
        assert (a + b)[k] == a[k];
      }
      forall k | 0 <= k < |b| ensures Holds(r, b[k]) {
        assert (a + b)[|a| + k] == b[k];
      }
    }
  }

  /** `filter` keeps the order of the array: filtering a concatenation filters each part. */
  lemma {:induction false} FilterConcat(a: seq<Record>, b: seq<Record>, tests: seq<Test>)
    ensures Filter(a + b, tests) == Filter(a, tests) + Filter(b, tests)
  {
    if a == [] {
      assert a + b == b;
    } else {
      assert (a + b)[0] == a[0];
      assert (a + b)[1..] == a[1..] + b;
      FilterConcat(a[1..], b, tests);
    }
  }

  lemma FilterOne(r: Record, tests: seq<Test>)
    ensures Filter([r], tests) == if Passes(r, tests) then [r] else []
  {
    assert [r][1..] == [];
  }

  lemma FilterAppend(rs: seq<Record>, r: Record, tests: seq<Test>)
    ensures Filter(rs + [r], tests) == Filter(rs, tests) + (if Passes(r, tests) then [r] else [])
  {
    FilterConcat(rs, [r], tests);
    FilterOne(r, tests);
  }

  /** `filter` keeps exactly the passing records, each as often as it occurs in the array. */
  lemma {:induction false} FilterMultiset(rs: seq<Record>, tests: seq<Test>)
    ensures forall r :: multiset(Filter(rs, tests))[r] == if Passes(r, tests) then multiset(rs)[r] else 0
  {
    if rs != [] {
      FilterMultiset(rs[1..], tests);
      assert rs == [rs[0]] + rs[1..];
    }
  }

  lemma FilterElements(rs: seq<Record>, tests: seq<Test>)
    ensures forall r :: r in Filter(rs, tests) <==> r in rs && Passes(r, tests)
  {
    FilterMultiset(rs, tests);
    forall r ensures r in Filter(rs, tests) <==> r in rs && Passes(r, tests) {
      assert r in Filter(rs, tests) <==> multiset(Filter(rs, tests))[r] > 0;
      assert r in rs <==> multiset(rs)[r] > 0;
    }
  }

  lemma {:induction false} FilterNone(rs: seq<Record>, tests: seq<Test>)
    requires forall i :: 0 <= i < |rs| ==> !Passes(rs[i], tests)
    ensures Filter(rs, tests) == []
  {
    if rs != [] {
      FilterNone(rs[1..], tests);
    }
  }

  /** Two filters whose tests agree on every record give the same result. */
  lemma {:induction false} FilterSame(rs: seq<Record>, a: seq<Test>, b: seq<Test>)
    requires forall i :: 0 <= i < |rs| ==> (Passes(rs[i], a) <==> Passes(rs[i], b))
    ensures Filter(rs, a) == Filter(rs, b)
  {
    if rs != [] {
      FilterSame(rs[1..], a, b);
    }
  }

  /** Counting over a test that is the disjoint union of two others adds up. */
  lemma {:induction false} CountSplit(rs: seq<Record>, a: seq<Test>, b: seq<Test>, c: seq<Test>)
    requires forall i :: 0 <= i < |rs| ==> (Passes(rs[i], c) <==> Passes(rs[i], a) || Passes(rs[i], b))
    requires forall i :: 0 <= i < |rs| ==> !(Passes(rs[i], a) && Passes(rs[i], b))
    ensures Count(rs, c) == Count(rs, a) + Count(rs, b)
  {
    if rs != [] {
      CountSplit(rs[1..], a, b, c);
    }
  }

  /** `find` on a filtered array finds the first record that passes both sets of tests. */
  lemma {:induction false} FindIndexInFilter(rs: seq<Record>, a: seq<Test>, b: seq<Test>)
    ensures var f := Filter(rs, a);
            var i := FindIndex(f, b);
            var j := FindIndex(rs, a + b);
            (i == -1 <==> j == -1) && (i >= 0 ==> f[i] == rs[j])
  {
    if rs != [] {
      PassesConcat(rs[0], a, b);
      FindIndexInFilter(rs[1..], a, b);
      var f := Filter(rs, a);
      var rest := Filter(rs[1..], a);
      if Passes(rs[0], a) {
        assert f == [rs[0]] + rest;
        assert f[1..] == rest;
      } else {
        assert f == rest;
      }
    }
  }

  lemma {:induction false} SumStarsConcat(a: seq<Record>, b: seq<Record>)
    ensures SumStars(a + b) == SumStars(a) + SumStars(b)
  {
    if b == [] {
      assert a + b == a;
    } else {
      assert (a + b)[..|a + b| - 1] == a + b[..|b| - 1];
      SumStarsConcat(a, b[..|b| - 1]);
    }
  }

  /** The first passing record is the one `findIndex` returns. */
  lemma FindIndexAt(rs: seq<Record>, tests: seq<Test>, k: int)
    requires 0 <= k < |rs| && Passes(rs[k], tests)
    requires forall j :: 0 <= j < k ==> !Passes(rs[j], tests)
    ensures FindIndex(rs, tests) == k
  {
  }

  /** Appending a passing record to a store without one makes it the first found. */
  lemma FindIndexAppended(rs: seq<Record>, r: Record, tests: seq<Test>)
    requires FindIndex(rs, tests) == -1 && Passes(r, tests)
    ensures FindIndex(rs + [r], tests) == |rs|
  {
    forall j | 0 <= j < |rs| ensures !Passes((rs + [r])[j], tests) {
      assert (rs + [r])[j] == rs[j];
    }
    FindIndexAt(rs + [r], tests, |rs|);
  }

  /** A sequence is its prefix followed by its last element. */
  lemma SplitLast<T>(s: seq<T>)
    requires |s| > 0
    ensures s[..|s| - 1] + [s[|s| - 1]] == s
  {
  }

  /** A prefix one longer is the prefix followed by the next element. */
  lemma PrefixStep<T>(s: seq<T>, j: int)
    requires 0 <= j < |s|
    ensures s[..j + 1] == s[..j] + [s[j]]
  {
  }

  /** `splice(i, 1)`: the record at `i` goes, the others keep their order. */
  lemma SpliceOne(rs: seq<Record>, i: int)
    requires 0 <= i < |rs|
    ensures var out := rs[..i] + rs[i + 1..];
            |out| == |rs| - 1
            && multiset(out) == multiset(rs) - multiset{rs[i]}
            && (forall k :: 0 <= k < i ==> out[k] == rs[k])
            && (forall k :: i <= k < |out| ==> out[k] == rs[k + 1])
  {
    assert rs == rs[..i] + [rs[i]] + rs[i + 1..];
  }
}
