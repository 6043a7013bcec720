/** The game-completion store: one record per finished game, kept in an array that
    `create`, `update` and `delete` change in place. Ids are numbers; lookups compare
    them with `parseInt(id)`. */
module GameProgressStore {
  import opened JsValues
  import opened Clock
  import opened Query

  const NotFound := "Game progress not found"

  class GameProgressService {
    var records: seq<Record>

    /** The store starts as a copy of the seed fixture. */
    constructor (seed: seq<Record>)
      ensures records == seed
    {
      records := seed;
    }

    /** `getAll`: a copy of the whole store, in store order. */
    method GetAll() returns (all: seq<Record>)
      ensures all == records
    {
      all := records;
    }

    /** `getById`: the first record whose `Id` is `parseInt(id)`, or the not-found error. */
    method GetById(id: Value) returns (r: Result<Record>)
      ensures r.Ok? <==> exists i :: 0 <= i < |records| && Passes(records[i], ById(id))
      ensures r.Ok? ==> exists i :: 0 <= i < |records| && records[i] == r.value
                          && Passes(records[i], ById(id))
                          && forall j :: 0 <= j < i ==> !Passes(records[j], ById(id))
      ensures r.Err? ==> r.message == NotFound
    {
      var i := FindIndex(records, ById(id));
      if i == -1 {
        r := Err(NotFound);
      } else {
        r := Ok(records[i]);
      }
    }

    /** `getByProfileId`: the records of one learner, in store order. */
    method GetByProfileId(profileId: Value) returns (rs: seq<Record>)
      ensures rs == Filter(records, [Equals("profileId", profileId)])
      ensures forall r :: r in rs <==> r in records && StrictEq(Field(r, "profileId"), profileId)
    {
      rs := Filter(records, [Equals("profileId", profileId)]);
      FilterElements(records, [Equals("profileId", profileId)]);
      forall r ensures Passes(r, [Equals("profileId", profileId)]) <==> StrictEq(Field(r, "profileId"), profileId) {
        PassesOne(r, Equals("profileId", profileId));
      }
    }

    /** `create`: always appends (no de-duplication); the id is the next free one unless
        the input carries its own, and `createdAt` is the current instant. */
    method Create(data: Record, now: Time) returns (created: Record)
      modifies this
      ensures created == map["Id" := NextId(old(records))] + data + map["createdAt" := Num(now)]
      ensures records == old(records) + [created]
      ensures "Id" !in data ==> Field(created, "Id") == NextId(old(records))
    {
      var id := GetNextId();
      created := map["Id" := id] + data + map["createdAt" := Num(now)];
      records := records + [created];
    }

    /** `update`: merges the updates into the first record with that id; nothing else changes. */
    method Update(id: Value, updates: Record) returns (r: Result<Record>)
      modifies this
      ensures var i := FindIndex(old(records), ById(id));
              && (i == -1 ==> r == Err(NotFound) && records == old(records))
              && (i >= 0 ==> r == Ok(old(records)[i] + updates)
                             && records == old(records)[i := old(records)[i] + updates])
    {
      var i := FindIndex(records, ById(id));
      if i == -1 {
        r := Err(NotFound);
        return;
      }
      records := records[i := records[i] + updates];
      r := Ok(records[i]);
    }

    /** `delete`: removes the first record with that id and keeps the others in order. */
    method Delete(id: Value) returns (r: Result<bool>)
      modifies this
      ensures FindIndex(old(records), ById(id)) == -1 ==> r == Err(NotFound) && records == old(records)
      ensures var i := FindIndex(old(records), ById(id));
              i >= 0 ==> r == Ok(true) && records == old(records)[..i] + old(records)[i + 1..]
    {
      var i := FindIndex(records, ById(id));
      if i == -1 {
        r := Err(NotFound);
      } else {
        records := records[..i] + records[i + 1..];
        r := Ok(true);
      }
    }

    /** `getNextId`: larger than every id in the store, or NaN when an id is not a number. */
    method GetNextId() returns (id: Value)
      ensures id == NextId(records)
      ensures id.Num? ==> id.n >= 1 && forall i :: 0 <= i < |records| ==> IdNumber(records[i]).n < id.n
    {
      id := NextId(records);
    }
  }
}
