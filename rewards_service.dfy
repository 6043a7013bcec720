/** The rewards store: one running total of stars, coins and badges per learner. `update` is
    keyed by the learner, not by the record id, and creates the learner's record on first use. */
module RewardsStore {
  import opened JsValues
  import opened Clock
  import opened Query

  const NotFound := "Reward not found"

  /** `r => r.profileId === profileId` */
  function OfProfile(profileId: Value): seq<Test>
  {
    [Equals("profileId", profileId)]
  }

  /** The record `getByProfileId` makes up, without storing it, for a learner with none. */
  function DefaultReward(profileId: Value): Record
  {
    map["profileId" := profileId, "totalStars" := Num(0), "totalCoins" := Num(0),
        "unlockedBadges" := Arr([])]
  }

  /** `getByProfileId`: the learner's first record, or a zero record for that learner when the
      store holds none. */
  function RewardOf(rs: seq<Record>, profileId: Value): (r: Record)
    ensures (exists x :: x in rs && StrictEq(Field(x, "profileId"), profileId)) ==>
              StrictEq(Field(r, "profileId"), profileId) &&
              exists i :: 0 <= i < |rs| && rs[i] == r &&
                (forall j :: 0 <= j < i ==> !StrictEq(Field(rs[j], "profileId"), profileId))
    ensures (forall x :: x in rs ==> !StrictEq(Field(x, "profileId"), profileId)) ==>
              r.Keys == {"profileId", "totalStars", "totalCoins", "unlockedBadges"}
              && Field(r, "totalStars") == Num(0) && Field(r, "totalCoins") == Num(0)
              && Field(r, "unlockedBadges") == Arr([]) && Field(r, "profileId") == profileId
  {
    var i := FindIndex(rs, OfProfile(profileId));
    if i >= 0 then
      PassesOne(rs[i], Equals("profileId", profileId));
      assert forall j :: 0 <= j < i ==> !StrictEq(Field(rs[j], "profileId"), profileId) by {
        forall j | 0 <= j < i ensures !StrictEq(Field(rs[j], "profileId"), profileId) {
          PassesOne(rs[j], Equals("profileId", profileId));
        }
      }
      rs[i]
    else
      assert forall x :: x in rs ==> !StrictEq(Field(x, "profileId"), profileId) by {
        forall x | x in rs ensures !StrictEq(Field(x, "profileId"), profileId) {
          var j :| 0 <= j < |rs| && rs[j] == x;
          PassesOne(rs[j], Equals("profileId", profileId));
        }
      }
      DefaultReward(profileId)
  }

  /** The store after `update`, and the record `update` returns. */
  datatype Upserted = Upserted(records: seq<Record>, saved: Record)

  /** `update(profileId, updates)`: merge into the learner's first record, or append a new one
      carrying the learner, the updates and the current instant. */
  function UpsertReward(rs: seq<Record>, profileId: Value, updates: Record, now: Time): (u: Upserted)
    ensures |u.records| == |rs| || |u.records| == |rs| + 1
    ensures |u.records| == |rs| <==> FindIndex(rs, OfProfile(profileId)) >= 0
  {
    var i := FindIndex(rs, OfProfile(profileId));
    if i >= 0 then
      var merged := rs[i] + updates;
      Upserted(rs[i := merged], merged)
    else
      var created := map["Id" := NextId(rs), "profileId" := profileId] + updates + map["createdAt" := Num(now)];
      Upserted(rs + [created], created)
  }

  /** A known learner: the first record is merged in place, the length and every other record
      stay as they were. */
  lemma UpsertRewardMerges(rs: seq<Record>, profileId: Value, updates: Record, now: Time)
    requires FindIndex(rs, OfProfile(profileId)) >= 0
    ensures var i := FindIndex(rs, OfProfile(profileId));
            var u := UpsertReward(rs, profileId, updates, now);
            |u.records| == |rs|
            && u.records[i] == u.saved
            && (forall k :: k in updates ==> u.saved[k] == updates[k])
            && (forall k :: k in rs[i] && k !in updates ==> u.saved[k] == rs[i][k])
            && (forall j :: 0 <= j < |rs| && j != i ==> u.records[j] == rs[j])
  {
  }

  /** An unknown learner: exactly one record is appended, with the learner (unless the updates
      name another), the updates, a fresh `createdAt` and an `Id` above every stored id unless
      the updates bring one. */
  lemma UpsertRewardAppends(rs: seq<Record>, profileId: Value, updates: Record, now: Time)
    requires FindIndex(rs, OfProfile(profileId)) == -1
    ensures var u := UpsertReward(rs, profileId, updates, now);
            u.records == rs + [u.saved]
            && Field(u.saved, "createdAt") == Num(now)
            && (forall k :: k in updates && k != "createdAt" ==> u.saved[k] == updates[k])
            && ("profileId" !in updates ==> Field(u.saved, "profileId") == profileId)
            && ("Id" !in updates ==> Field(u.saved, "Id") == NextId(rs))
  {
    var c := map["Id" := NextId(rs), "profileId" := profileId] + updates + map["createdAt" := Num(now)];
    assert UpsertReward(rs, profileId, updates, now) == Upserted(rs + [c], c);
    StampedFields(NextId(rs), profileId, updates, Num(now));
  }

  /** The fields of a new reward record: the updates, between an `Id` and a `profileId` they
      may override and a `createdAt` that overrides them. */
  lemma StampedFields(id: Value, profileId: Value, updates: Record, createdAt: Value)
    ensures var c := map["Id" := id, "profileId" := profileId] + updates + map["createdAt" := createdAt];
            c["createdAt"] == createdAt
            && (forall k :: k in updates && k != "createdAt" ==> c[k] == updates[k])
            && ("profileId" !in updates ==> c["profileId"] == profileId)
            && ("Id" !in updates ==> c["Id"] == id)
  {
  }

  /** Reading the learner back after `update` gives the record `update` returned, as long as
      the updates leave `profileId` alone (a NaN learner never matches under `===`). */
  lemma {:induction false} UpsertThenRead(rs: seq<Record>, profileId: Value, updates: Record, now: Time)
    requires !profileId.NaN? && "profileId" !in updates
    ensures var u := UpsertReward(rs, profileId, updates, now);
            RewardOf(u.records, profileId) == u.saved
  {
    var p := OfProfile(profileId);
    var i := FindIndex(rs, p);
    if i >= 0 {
      var m := rs[i] + updates;
      var out := rs[i := m];
      assert UpsertReward(rs, profileId, updates, now) == Upserted(out, m);
      PassesOne(rs[i], Equals("profileId", profileId));
      assert Field(m, "profileId") == Field(rs[i], "profileId");
      PassesOne(m, Equals("profileId", profileId));
      assert out[i] == m && Passes(m, p);
      forall j | 0 <= j < i ensures !Passes(out[j], p) {
        assert out[j] == rs[j];
      }
      FindIndexAt(out, p, i);
    } else {
      var c := map["Id" := NextId(rs), "profileId" := profileId] + updates + map["createdAt" := Num(now)];
      assert UpsertReward(rs, profileId, updates, now) == Upserted(rs + [c], c);
      StampedFields(NextId(rs), profileId, updates, Num(now));
      PassesOne(c, Equals("profileId", profileId));
      FindIndexAppended(rs, c, p);
    }
  }

  class RewardsService {
    var records: seq<Record>

    /** The store starts as a copy of the seed fixture. */
    constructor (seed: seq<Record>)
      ensures records == seed
    {
      records := seed;
    }

    /** `getAll`: a copy of the whole store, in store order. */
    method GetAll() returns (all: seq<Record>)
      ensures all == records
    {
      all := records;
    }

    /** `getById`: the first record whose `Id` is `parseInt(id)`, or the not-found error. */
    method GetById(id: Value) returns (r: Result<Record>)
      ensures r.Ok? <==> exists i :: 0 <= i < |records| && Passes(records[i], ById(id))
      ensures r.Ok? ==> exists i :: 0 <= i < |records| && records[i] == r.value
                          && Passes(records[i], ById(id))
                          && forall j :: 0 <= j < i ==> !Passes(records[j], ById(id))
      ensures r.Err? ==> r.message == NotFound
    {
      var i := FindIndex(records, ById(id));
      if i == -1 {
        r := Err(NotFound);
      } else {
        r := Ok(records[i]);
      }
    }

    /** `getByProfileId`: never fails, and never stores the zero record it may return. */
    method GetByProfileId(profileId: Value) returns (r: Record)
      ensures r == RewardOf(records, profileId)
    {
      var i := FindIndex(records, OfProfile(profileId));
      if i >= 0 {
        r := records[i];
      } else {
        r := DefaultReward(profileId);
      }
    }

    /** `create`: always appends, with the next id unless the input has one. */
    method Create(data: Record, now: Time) returns (created: Record)
      modifies this
      ensures created == map["Id" := NextId(old(records))] + data + map["createdAt" := Num(now)]
      ensures records == old(records) + [created]
      ensures "Id" !in data ==> Field(created, "Id") == NextId(old(records))
    {
      var id := GetNextId();
      created := map["Id" := id] + data + map["createdAt" := Num(now)];
      records := records + [created];
    }

    /** `update`: the upsert keyed by learner. */
    method Update(profileId: Value, updates: Record, now: Time) returns (saved: Record)
      modifies this
      ensures Upserted(records, saved) == UpsertReward(old(records), profileId, updates, now)
    {
      var i := FindIndex(records, OfProfile(profileId));
      if i == -1 {
        var id := GetNextId();
        saved := map["Id" := id, "profileId" := profileId] + updates + map["createdAt" := Num(now)];
        records := records + [saved];
        return;
      }
      records := records[i := records[i] + updates];
      saved := records[i];
    }

    /** `delete`: removes the first record with that id and keeps the others in order. */
    method Delete(id: Value) returns (r: Result<bool>)
      modifies this
      ensures FindIndex(old(records), ById(id)) == -1 ==> r == Err(NotFound) && records == old(records)
      ensures var i := FindIndex(old(records), ById(id));
              i >= 0 ==> r == Ok(true) && records == old(records)[..i] + old(records)[i + 1..]
    {
      var i := FindIndex(records, ById(id));
      if i == -1 {
        r := Err(NotFound);
      } else {
        records := records[..i] + records[i + 1..];
        r := Ok(true);
      }
    }

    /** `getNextId`: larger than every id in the store, or NaN when an id is not a number. */
    method GetNextId() returns (id: Value)
      ensures id == NextId(records)
      ensures id.Num? ==> id.n >= 1 && forall i :: 0 <= i < |records| ==> IdNumber(records[i]).n < id.n
    {
      id := NextId(records);
    }
  }
}
