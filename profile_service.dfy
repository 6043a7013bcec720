/** The learner-profile store. A new profile always starts with no stars and no coins. */
module ProfileStore {
  import opened JsValues
  import opened Clock
  import opened Query

  const NotFound := "Profile not found"

  /** The profile `create` builds: the next id (unless the input brings one), the input, zero
      totals whatever the input says, and the current instant. */
  function NewProfile(rs: seq<Record>, data: Record, now: Time): (p: Record)
    ensures Field(p, "totalStars") == Num(0) && Field(p, "totalCoins") == Num(0)
    ensures Field(p, "createdAt") == Num(now)
    ensures forall k :: k in data && k != "totalStars" && k != "totalCoins" && k != "createdAt" ==> Field(p, k) == data[k]
    ensures "Id" !in data ==> Field(p, "Id") == NextId(rs)
    ensures "Id" in data ==> Field(p, "Id") == data["Id"]
  {
    var base := map["Id" := NextId(rs)] + data;
    var totals := base + map["totalStars" := Num(0), "totalCoins" := Num(0)];
    var p := totals + map["createdAt" := Num(now)];
    assert p["totalStars"] == Num(0) && p["totalCoins"] == Num(0);
    assert p["createdAt"] == Num(now);
    assert "Id" in p && p["Id"] == base["Id"];
    assert forall k :: k in data && k != "totalStars" && k != "totalCoins" && k != "createdAt" ==> k in p && p[k] == data[k];
    p
  }

  class ProfileService {
    var records: seq<Record>

    /** The store starts as a copy of the seed fixture. */
    constructor (seed: seq<Record>)
      ensures records == seed
    {
      records := seed;
    }

    /** `getAll`: a copy of the whole store, in store order. */
    method GetAll() returns (all: seq<Record>)
      ensures all == records
    {
      all := records;
    }

    /** `getById`: the first profile whose `Id` is `parseInt(id)`, or the not-found error. */
    method GetById(id: Value) returns (r: Result<Record>)
      ensures r.Ok? <==> exists i :: 0 <= i < |records| && Passes(records[i], ById(id))
      ensures r.Ok? ==> exists i :: 0 <= i < |records| && records[i] == r.value
                          && Passes(records[i], ById(id))
                          && forall j :: 0 <= j < i ==> !Passes(records[j], ById(id))
      ensures r.Err? ==> r.message == NotFound
    {
      var i := FindIndex(records, ById(id));
      if i == -1 {
        r := Err(NotFound);
      } else {
        r := Ok(records[i]);
      }
    }

    /** `create`: appends one profile with zero totals. */
    method Create(data: Record, now: Time) returns (created: Record)
      modifies this
      ensures created == NewProfile(old(records), data, now)
      ensures records == old(records) + [created]
    {
      var id := GetNextId();
      created := map["Id" := id] + data + map["totalStars" := Num(0), "totalCoins" := Num(0)]
                 + map["createdAt" := Num(now)];
      records := records + [created];
    }

    /** `update`: merges the updates into the first profile with that id; nothing else changes. */
    method Update(id: Value, updates: Record) returns (r: Result<Record>)
      modifies this
      ensures var i := FindIndex(old(records), ById(id));
              && (i == -1 ==> r == Err(NotFound) && records == old(records))
              && (i >= 0 ==> r == Ok(old(records)[i] + updates)
                             && records == old(records)[i := old(records)[i] + updates])
    {
      var i := FindIndex(records, ById(id));
      if i == -1 {
        r := Err(NotFound);
        return;
      }
      records := records[i := records[i] + updates];
      r := Ok(records[i]);
    }

    /** `delete`: removes the first profile with that id and keeps the others in order. */
    method Delete(id: Value) returns (r: Result<bool>)
      modifies this
      ensures FindIndex(old(records), ById(id)) == -1 ==> r == Err(NotFound) && records == old(records)
      ensures var i := FindIndex(old(records), ById(id));
              i >= 0 ==> r == Ok(true) && records == old(records)[..i] + old(records)[i + 1..]
    {
      var i := FindIndex(records, ById(id));
      if i == -1 {
        r := Err(NotFound);
      } else {
        records := records[..i] + records[i + 1..];
        r := Ok(true);
      }
    }

    /** `getNextId`: larger than every id in the store, or NaN when an id is not a number. */
    method GetNextId() returns (id: Value)
      ensures id == NextId(records)
      ensures id.Num? ==> id.n >= 1 && forall i :: 0 <= i < |records| ==> IdNumber(records[i]).n < id.n
    {
      id := NextId(records);
    }
  }
}
