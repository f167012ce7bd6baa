/** The in-memory property store. Latency and promises are left out: every
    call is synchronous, and a thrown "not found" Error is an `Err` result. */
module PropertyService {
  import opened Json
  import opened Records
  import opened Seqs

  const NotFound := "Property not found"

  class PropertyStore {
    var properties: seq<Record>

    ghost predicate Valid()
      reads this
    {
      NumericIds(properties)
    }

    /** The seed records (the mock JSON) are passed in. */
    constructor (seed: seq<Record>)
      requires NumericIds(seed)
      ensures Valid() && properties == seed
    {
      properties := seed;
    }

    /** A copy of every record, in insertion order. */
    method GetAll() returns (all: seq<Record>)
      ensures all == properties
    {
      all := properties;
    }

    /** The first record with that `Id`, or the not-found error. */
    method GetById(id: real) returns (r: Result<Record>)
      ensures match FindIndex(properties, id)
              case Some(i) => r == Ok(properties[i])
              case None => r == Err(NotFound)
    {
      match FindIndex(properties, id)
      case Some(i) => r := Ok(properties[i]);
      case None => r := Err(NotFound);
    }

    /** Appends a new record with `Id = max(ids) + 1`. `Math.max()` of no ids
        is `-Infinity`, so the store must not be empty. */
    method Create(fields: Record, now: string) returns (created: Record)
      requires Valid() && |properties| > 0
      requires "Id" in fields ==> fields["Id"].Num?
      modifies this
      ensures Valid()
      ensures created == NewRecord(old(properties), fields, map["createdAt" := Str(now)])
      ensures properties == old(properties) + [created]
    {
      created := NewRecord(properties, fields, map["createdAt" := Str(now)]);
      NumericIdsAppend(properties, created);
      properties := properties + [created];
    }

    /** Shallow-merges `patch` into the first record with that `Id`. */
    method Update(id: real, patch: Record) returns (r: Result<Record>)
      requires Valid()
      requires "Id" in patch ==> patch["Id"].Num?
      modifies this
      ensures Valid()
      ensures match FindIndex(old(properties), id)
              case None => r == Err(NotFound) && properties == old(properties)
              case Some(i) =>
                && properties == old(properties)[i := Spread(old(properties)[i], patch)]
                && r == Ok(properties[i])
    {
      match FindIndex(properties, id)
      case None => r := Err(NotFound);
      case Some(i) =>
        properties := properties[i := Spread(properties[i], patch)];
        r := Ok(properties[i]);
    }

    /** Removes the first record with that `Id` and returns it. */
    method Delete(id: real) returns (r: Result<Record>)
      requires Valid()
      modifies this
      ensures Valid()
      ensures match FindIndex(old(properties), id)
              case None => r == Err(NotFound) && properties == old(properties)
              case Some(i) => r == Ok(old(properties)[i]) && properties == RemoveAt(old(properties), i)
    {
      match FindIndex(properties, id)
      case None => r := Err(NotFound);
      case Some(i) =>
        r := Ok(properties[i]);
        properties := RemoveAt(properties, i);
    }
  }
}
