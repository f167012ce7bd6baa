/** The in-memory commission store. Latency and promises are left out: every
    call is synchronous, and a thrown "not found" Error is an `Err` result. */
module CommissionService {
  import opened Json
  import opened Records
  import opened Seqs

  const NotFound := "Commission record not found"

  class CommissionStore {
    var commissions: seq<Record>

    ghost predicate Valid()
      reads this
    {
      NumericIds(commissions)
    }

    /** The seed records (the mock JSON) are passed in. */
    constructor (seed: seq<Record>)
      requires NumericIds(seed)
      ensures Valid() && commissions == seed
    {
      commissions := seed;
    }

    /** A copy of every record, in insertion order. */
    method GetAll() returns (all: seq<Record>)
      ensures all == commissions
    {
      all := commissions;
    }

    /** The first record with that `Id`, or the not-found error. */
    method GetById(id: real) returns (r: Result<Record>)
      ensures match FindIndex(commissions, id)
              case Some(i) => r == Ok(commissions[i])
              case None => r == Err(NotFound)
    {
      match FindIndex(commissions, id)
      case Some(i) => r := Ok(commissions[i]);
      case None => r := Err(NotFound);
    }

    /** Appends a new record with `Id = max(ids) + 1`. `Math.max()` of no ids
        is `-Infinity`, so the store must not be empty. */
    method Create(fields: Record, now: string) returns (created: Record)
      requires Valid() && |commissions| > 0
      requires "Id" in fields ==> fields["Id"].Num?
      modifies this
      ensures Valid()
      ensures created == NewRecord(old(commissions), fields, map["date" := Str(now)])
      ensures commissions == old(commissions) + [created]
    {
      created := NewRecord(commissions, fields, map["date" := Str(now)]);
      NumericIdsAppend(commissions, created);
      commissions := commissions + [created];
    }

    /** Shallow-merges `patch` into the first record with that `Id`. */
    method Update(id: real, patch: Record) returns (r: Result<Record>)
      requires Valid()
      requires "Id" in patch ==> patch["Id"].Num?
      modifies this
      ensures Valid()
      ensures match FindIndex(old(commissions), id)
              case None => r == Err(NotFound) && commissions == old(commissions)
              case Some(i) =>
                && commissions == old(commissions)[i := Spread(old(commissions)[i], patch)]
                && r == Ok(commissions[i])
    {
      match FindIndex(commissions, id)
      case None => r := Err(NotFound);
      case Some(i) =>
        commissions := commissions[i := Spread(commissions[i], patch)];
        r := Ok(commissions[i]);
    }

    /** Removes the first record with that `Id` and returns it. */
    method Delete(id: real) returns (r: Result<Record>)
      requires Valid()
      modifies this
      ensures Valid()
      ensures match FindIndex(old(commissions), id)
              case None => r == Err(NotFound) && commissions == old(commissions)
              case Some(i) => r == Ok(old(commissions)[i]) && commissions == RemoveAt(old(commissions), i)
    {
      match FindIndex(commissions, id)
      case None => r := Err(NotFound);
      case Some(i) =>
        r := Ok(commissions[i]);
        commissions := RemoveAt(commissions, i);
    }

    /** The records whose `userId` is `userId`, in store order. */
    method GetByUserId(userId: Value) returns (found: seq<Record>)
      ensures found == Filter(commissions, c => FieldIs(c, "userId", userId))
      ensures forall i :: 0 <= i < |found| ==> FieldIs(found[i], "userId", userId)
    {
      found := Filter(commissions, c => FieldIs(c, "userId", userId));
    }

    /** The records whose `propertyId` is `propertyId`, in store order. */
    method GetByPropertyId(propertyId: Value) returns (found: seq<Record>)
      ensures found == Filter(commissions, c => FieldIs(c, "propertyId", propertyId))
      ensures forall i :: 0 <= i < |found| ==> FieldIs(found[i], "propertyId", propertyId)
    {
      found := Filter(commissions, c => FieldIs(c, "propertyId", propertyId));
    }
  }
}
