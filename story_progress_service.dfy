/** The story-progress store: one record per (learner, story) pair, kept in an array that
    `create` (an upsert on the pair), `update` and `delete` change in place. */
module StoryProgressStore {
  import opened JsValues
  import opened Clock
  import opened Query

  const NotFound := "Story progress not found"

  /** The callback `create` searches with: `p.profileId === data.profileId && p.storyId === data.storyId`. */
  function PairOf(data: Record): seq<Test>
  {
    [Equals("profileId", Field(data, "profileId")), Equals("storyId", Field(data, "storyId"))]
  }

  /** The store after `create`, and the record `create` returns. */
  datatype Upserted = Upserted(records: seq<Record>, saved: Record)

  /** `create`: merge the input into the first record of the same pair, or append a new record
      with the next id and the current instant as `createdAt`. */
  function Upsert(rs: seq<Record>, data: Record, now: Time): (u: Upserted)
    ensures |u.records| == |rs| || |u.records| == |rs| + 1
    ensures |u.records| == |rs| <==> FindIndex(rs, PairOf(data)) >= 0
    ensures u.saved in u.records
  {
    var i := FindIndex(rs, PairOf(data));
    if i >= 0 then
      var merged := rs[i] + data;
      assert rs[i := merged][i] == merged;
      Upserted(rs[i := merged], merged)
    else
      var created := map["Id" := NextId(rs)] + data + map["createdAt" := Num(now)];
      Upserted(rs + [created], created)
  }

  /** No two records of the store share a (profileId, storyId) pair under `===`. */
  predicate UniquePairs(rs: seq<Record>)
  {
    forall i, j :: 0 <= i < j < |rs| ==> !Passes(rs[j], PairOf(rs[i]))
  }

  lemma PassesPair(r: Record, data: Record)
    ensures Passes(r, PairOf(data))
        <==> StrictEq(Field(r, "profileId"), Field(data, "profileId"))
             && StrictEq(Field(r, "storyId"), Field(data, "storyId"))
  {
    var p := PairOf(data);
    assert p[0] == Equals("profileId", Field(data, "profileId"));
    assert p[1] == Equals("storyId", Field(data, "storyId"));
  }

  /** Merging an input into the record of its own pair leaves the pair fields as they were. */
  lemma MergeKeepsPair(r: Record, data: Record)
    requires Passes(r, PairOf(data))
    ensures Field(r + data, "profileId") == Field(r, "profileId")
    ensures Field(r + data, "storyId") == Field(r, "storyId")
  {
    PassesPair(r, data);
  }

  /** When the pair is already stored, `create` merges in place: the input's fields win, the
      record's other fields (its `Id`, its `createdAt`) stay, and no other record changes. */
  lemma UpsertMerges(rs: seq<Record>, data: Record, now: Time)
    requires FindIndex(rs, PairOf(data)) >= 0
    ensures var i := FindIndex(rs, PairOf(data));
            var u := Upsert(rs, data, now);
            |u.records| == |rs|
            && u.records[i] == u.saved
            && (forall k :: k in data ==> u.saved[k] == data[k])
            && (forall k :: k in rs[i] && k !in data ==> u.saved[k] == rs[i][k])
            && (forall j :: 0 <= j < |rs| && j != i ==> u.records[j] == rs[j])
  {
  }

  /** When the pair is new, `create` appends exactly one record: the input's fields, a fresh
      `createdAt`, and an `Id` above every stored id unless the input brings its own. */
  lemma UpsertAppends(rs: seq<Record>, data: Record, now: Time)
    requires FindIndex(rs, PairOf(data)) == -1
    ensures var u := Upsert(rs, data, now);
            u.records == rs + [u.saved]
            && Field(u.saved, "createdAt") == Num(now)
            && (forall k :: k in data && k != "createdAt" ==> u.saved[k] == data[k])
            && ("Id" !in data ==> Field(u.saved, "Id") == NextId(rs))
  {
    var c := map["Id" := NextId(rs)] + data + map["createdAt" := Num(now)];
    assert Upsert(rs, data, now) == Upserted(rs + [c], c);
    StampedFields(NextId(rs), data, Num(now));
  }

  /** The fields of a new record: the input's own, between an `Id` they may override and a
      `createdAt` that overrides them. */
  lemma StampedFields(id: Value, data: Record, createdAt: Value)
    ensures var c := map["Id" := id] + data + map["createdAt" := createdAt];
            c["createdAt"] == createdAt
            && (forall k :: k in data && k != "createdAt" ==> c[k] == data[k])
            && ("Id" !in data ==> c["Id"] == id)
            && (forall k :: k != "Id" && k != "createdAt" ==> Field(c, k) == Field(data, k))
  {
  }

  /** `create` never gives a pair a second record. */
  lemma UpsertKeepsPairsUnique(rs: seq<Record>, data: Record, now: Time)
    requires UniquePairs(rs)
    ensures UniquePairs(Upsert(rs, data, now).records)
  {
    var i := FindIndex(rs, PairOf(data));
    if i >= 0 {
      MergeKeepsPair(rs[i], data);
      ReplaceKeepsUnique(rs, i, rs[i] + data);
    } else {
      var c := map["Id" := NextId(rs)] + data + map["createdAt" := Num(now)];
      assert Upsert(rs, data, now).records == rs + [c];
      StampedFields(NextId(rs), data, Num(now));
      forall a | 0 <= a < |rs| ensures !Passes(c, PairOf(rs[a])) {
        PassesPair(c, rs[a]);
        PassesPair(rs[a], data);
      }
      AppendKeepsUnique(rs, c);
    }
  }

  /** Replacing a record by one with the same pair keeps the pairs unique. */
  lemma ReplaceKeepsUnique(rs: seq<Record>, i: int, m: Record)
    requires UniquePairs(rs) && 0 <= i < |rs|
    requires Field(m, "profileId") == Field(rs[i], "profileId")
    requires Field(m, "storyId") == Field(rs[i], "storyId")
    ensures UniquePairs(rs[i := m])
  {
    var out := rs[i := m];
    forall a, b | 0 <= a < b < |out| ensures !Passes(out[b], PairOf(out[a])) {
      PassesPair(out[b], out[a]);
      PassesPair(rs[b], rs[a]);
    }
  }

  /** Appending a record whose pair no stored record has keeps the pairs unique. */
  lemma AppendKeepsUnique(rs: seq<Record>, c: Record)
    requires UniquePairs(rs)
    requires forall a :: 0 <= a < |rs| ==> !Passes(c, PairOf(rs[a]))
    ensures UniquePairs(rs + [c])
  {
    var out := rs + [c];
    forall a, b | 0 <= a < b < |out| ensures !Passes(out[b], PairOf(out[a])) {
      if b == |rs| {
        assert out[a] == rs[a] && out[b] == c;
      } else {
        assert out[a] == rs[a] && out[b] == rs[b];
      }
    }
  }

  /** After `create`, looking the pair up finds the record `create` returned (a pair value that
      is NaN never matches under `===`, so it is excluded). */
  lemma UpsertThenFind(rs: seq<Record>, data: Record, now: Time)
    requires !Field(data, "profileId").NaN? && !Field(data, "storyId").NaN?
    ensures var u := Upsert(rs, data, now);
            var k := FindIndex(u.records, PairOf(data));
            k >= 0 && u.records[k] == u.saved
  {
    if FindIndex(rs, PairOf(data)) >= 0 {
      MergedFound(rs, data, now);
    } else {
      AppendedFound(rs, data, now);
    }
  }

  lemma MergedFound(rs: seq<Record>, data: Record, now: Time)
    requires FindIndex(rs, PairOf(data)) >= 0
    ensures var u := Upsert(rs, data, now);
            FindIndex(u.records, PairOf(data)) == FindIndex(rs, PairOf(data))
            && u.records[FindIndex(rs, PairOf(data))] == u.saved
  {
    var i := FindIndex(rs, PairOf(data));
    var m := rs[i] + data;
    var out := rs[i := m];
    assert Upsert(rs, data, now) == Upserted(out, m);
    MergeKeepsPair(rs[i], data);
    PassesPair(rs[i], data);
    PassesPair(m, data);
    forall j | 0 <= j < i ensures !Passes(out[j], PairOf(data)) {
      assert out[j] == rs[j];
    }
    FindIndexAt(out, PairOf(data), i);
  }

  lemma AppendedFound(rs: seq<Record>, data: Record, now: Time)
    requires FindIndex(rs, PairOf(data)) == -1
    requires !Field(data, "profileId").NaN? && !Field(data, "storyId").NaN?
    ensures var u := Upsert(rs, data, now);
            FindIndex(u.records, PairOf(data)) == |rs| && u.records[|rs|] == u.saved
  {
    var c := map["Id" := NextId(rs)] + data + map["createdAt" := Num(now)];
    var out := rs + [c];
    assert Upsert(rs, data, now) == Upserted(out, c);
    NewRecordPasses(NextId(rs), data, Num(now));
    FindIndexAppended(rs, c, PairOf(data));
  }

  /** A new record keeps the pair of its input, so it matches its own pair. */
  lemma NewRecordPasses(id: Value, data: Record, createdAt: Value)
    requires !Field(data, "profileId").NaN? && !Field(data, "storyId").NaN?
    ensures Passes(map["Id" := id] + data + map["createdAt" := createdAt], PairOf(data))
  {
    var c := map["Id" := id] + data + map["createdAt" := createdAt];
    StampedFields(id, data, createdAt);
    assert Field(c, "profileId") == Field(data, "profileId");
    assert Field(c, "storyId") == Field(data, "storyId");
    PassesPair(c, data);
  }

  class StoryProgressService {
    var records: seq<Record>

    /** The store starts as a copy of the seed fixture. */
    constructor (seed: seq<Record>)
      ensures records == seed
    {
      records := seed;
    }

    /** `getAll`: a copy of the whole store, in store order. */
    method GetAll() returns (all: seq<Record>)
      ensures all == records
    {
      all := records;
    }

    /** `getById`: the first record whose `Id` is `parseInt(id)`, or the not-found error. */
    method GetById(id: Value) returns (r: Result<Record>)
      ensures r.Ok? <==> exists i :: 0 <= i < |records| && Passes(records[i], ById(id))
      ensures r.Ok? ==> exists i :: 0 <= i < |records| && records[i] == r.value
                          && Passes(records[i], ById(id))
                          && forall j :: 0 <= j < i ==> !Passes(records[j], ById(id))
      ensures r.Err? ==> r.message == NotFound
    {
      var i := FindIndex(records, ById(id));
      if i == -1 {
        r := Err(NotFound);
      } else {
        r := Ok(records[i]);
      }
    }

    /** `getByProfileId`: the progress of one learner, in store order. */
    method GetByProfileId(profileId: Value) returns (rs: seq<Record>)
      ensures rs == Filter(records, [Equals("profileId", profileId)])
      ensures forall r :: r in rs <==> r in records && StrictEq(Field(r, "profileId"), profileId)
    {
      rs := Filter(records, [Equals("profileId", profileId)]);
      FilterElements(records, [Equals("profileId", profileId)]);
      forall r ensures Passes(r, [Equals("profileId", profileId)]) <==> StrictEq(Field(r, "profileId"), profileId) {
        PassesOne(r, Equals("profileId", profileId));
      }
    }

    /** `create`: the upsert on (profileId, storyId); a store without duplicate pairs keeps
        having none. */
    method Create(data: Record, now: Time) returns (saved: Record)
      modifies this
      ensures Upserted(records, saved) == Upsert(old(records), data, now)
      ensures UniquePairs(old(records)) ==> UniquePairs(records)
    {
      if UniquePairs(records) {
        UpsertKeepsPairsUnique(records, data, now);
      }
      var i := FindIndex(records, PairOf(data));
      if i != -1 {
        records := records[i := records[i] + data];
        saved := records[i];
        return;
      }
      var id := GetNextId();
      saved := map["Id" := id] + data + map["createdAt" := Num(now)];
      records := records + [saved];
    }

    /** `update`: merges the updates into the first record with that id; nothing else changes. */
    method Update(id: Value, updates: Record) returns (r: Result<Record>)
      modifies this
      ensures var i := FindIndex(old(records), ById(id));
              && (i == -1 ==> r == Err(NotFound) && records == old(records))
              && (i >= 0 ==> r == Ok(old(records)[i] + updates)
                             && records == old(records)[i := old(records)[i] + updates])
    {
      var i := FindIndex(records, ById(id));
      if i == -1 {
        r := Err(NotFound);
        return;
      }
      records := records[i := records[i] + updates];
      r := Ok(records[i]);
    }

    /** `delete`: removes the first record with that id and keeps the others in order. */
    method Delete(id: Value) returns (r: Result<bool>)
      modifies this
      ensures FindIndex(old(records), ById(id)) == -1 ==> r == Err(NotFound) && records == old(records)
      ensures var i := FindIndex(old(records), ById(id));
              i >= 0 ==> r == Ok(true) && records == old(records)[..i] + old(records)[i + 1..]
    {
      var i := FindIndex(records, ById(id));
      if i == -1 {
        r := Err(NotFound);
      } else {
        records := records[..i] + records[i + 1..];
        r := Ok(true);
      }
    }

    /** `getNextId`: larger than every id in the store, or NaN when an id is not a number. */
    method GetNextId() returns (id: Value)
      ensures id == NextId(records)
      ensures id.Num? ==> id.n >= 1 && forall i :: 0 <= i < |records| ==> IdNumber(records[i]).n < id.n
    {
      id := NextId(records);
    }
  }
}
