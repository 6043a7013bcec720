/** The story library. Story ids are compared with `===` directly, without `parseInt`. */
module StoriesStore {
  import opened JsValues
  import opened Clock
  import opened Query

  const NotFound := "Story not found"

  /** `s => s.Id === id` */
  function WithId(id: Value): seq<Test>
  {
    [Equals("Id", id)]
  }

  class StoriesService {
    var records: seq<Record>

    /** The library starts as a copy of the seed fixture. */
    constructor (seed: seq<Record>)
      ensures records == seed
    {
      records := seed;
    }

    /** `getAll`: a copy of the whole library, in order. */
    method GetAll() returns (all: seq<Record>)
      ensures all == records
    {
      all := records;
    }

    /** `getById`: the first story whose `Id` is `===` to the argument, or the not-found error. */
    method GetById(id: Value) returns (r: Result<Record>)
      ensures r.Ok? <==> exists i :: 0 <= i < |records| && StrictEq(Field(records[i], "Id"), id)
      ensures r.Ok? ==> exists i :: 0 <= i < |records| && records[i] == r.value
                          && StrictEq(Field(records[i], "Id"), id)
                          && forall j :: 0 <= j < i ==> !StrictEq(Field(records[j], "Id"), id)
      ensures r.Err? ==> r.message == NotFound
    {
      forall r ensures Passes(r, WithId(id)) <==> StrictEq(Field(r, "Id"), id) {
        PassesOne(r, Equals("Id", id));
      }
      var i := FindIndex(records, WithId(id));
      if i == -1 {
        r := Err(NotFound);
      } else {
        r := Ok(records[i]);
      }
    }

    /** `create`: appends exactly one story, with the next id unless the input has one. */
    method Create(data: Record, now: Time) returns (created: Record)
      modifies this
      ensures created == map["Id" := NextId(old(records))] + data + map["createdAt" := Num(now)]
      ensures records == old(records) + [created]
      ensures "Id" !in data ==> Field(created, "Id") == NextId(old(records))
    {
      var id := GetNextId();
      created := map["Id" := id] + data + map["createdAt" := Num(now)];
      records := records + [created];
    }

    /** `update`: merges the updates into the first story with that id; nothing else changes. */
    method Update(id: Value, updates: Record) returns (r: Result<Record>)
      modifies this
      ensures var i := FindIndex(old(records), WithId(id));
              && (i == -1 ==> r == Err(NotFound) && records == old(records))
              && (i >= 0 ==> r == Ok(old(records)[i] + updates)
                             && records == old(records)[i := old(records)[i] + updates])
    {
      var i := FindIndex(records, WithId(id));
      if i == -1 {
        r := Err(NotFound);
        return;
      }
      records := records[i := records[i] + updates];
      r := Ok(records[i]);
    }

    /** `delete`: removes the first story with that id and keeps the others in order. */
    method Delete(id: Value) returns (r: Result<bool>)
      modifies this
      ensures FindIndex(old(records), WithId(id)) == -1 ==> r == Err(NotFound) && records == old(records)
      ensures var i := FindIndex(old(records), WithId(id));
              i >= 0 ==> r == Ok(true) && records == old(records)[..i] + old(records)[i + 1..]
    {
      var i := FindIndex(records, WithId(id));
      if i == -1 {
        r := Err(NotFound);
      } else {
        records := records[..i] + records[i + 1..];
        r := Ok(true);
      }
    }

    /** `getNextId`: larger than every id when all ids are numbers, NaN otherwise. */
    method GetNextId() returns (id: Value)
      ensures id == NextId(records)
      ensures id.Num? ==> id.n >= 1 && forall i :: 0 <= i < |records| ==> IdNumber(records[i]).n < id.n
    {
      id := NextId(records);
    }
  }
}
