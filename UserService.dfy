/** The in-memory user (team member) store. Latency and promises are left out: every
    call is synchronous, and a thrown "not found" Error is an `Err` result. */
module UserService {
  import opened Json
  import opened Records
  import opened Seqs

  const NotFound := "User not found"

  class UserStore {
    var users: seq<Record>

    ghost predicate Valid()
      reads this
    {
      NumericIds(users)
    }

    /** The seed records (the mock JSON) are passed in. */
    constructor (seed: seq<Record>)
      requires NumericIds(seed)
      ensures Valid() && users == seed
    {
      users := seed;
    }

    /** A copy of every record, in insertion order. */
    method GetAll() returns (all: seq<Record>)
      ensures all == users
    {
      all := users;
    }

    /** The first record with that `Id`, or the not-found error. */
    method GetById(id: real) returns (r: Result<Record>)
      ensures match FindIndex(users, id)
              case Some(i) => r == Ok(users[i])
              case None => r == Err(NotFound)
    {
      match FindIndex(users, id)
      case Some(i) => r := Ok(users[i]);
      case None => r := Err(NotFound);
    }

    /** Appends a new record with `Id = max(ids) + 1`. `Math.max()` of no ids
        is `-Infinity`, so the store must not be empty. */
    method Create(fields: Record, now: string) returns (created: Record)
      requires Valid() && |users| > 0
      requires "Id" in fields ==> fields["Id"].Num?
      modifies this
      ensures Valid()
      ensures created == NewRecord(old(users), fields, map["joinedDate" := Str(now), "isActive" := Bool(true)])
      ensures users == old(users) + [created]
    {
      created := NewRecord(users, fields, map["joinedDate" := Str(now), "isActive" := Bool(true)]);
      NumericIdsAppend(users, created);
      users := users + [created];
    }

    /** Shallow-merges `patch` into the first record with that `Id`. */
    method Update(id: real, patch: Record) returns (r: Result<Record>)
      requires Valid()
      requires "Id" in patch ==> patch["Id"].Num?
      modifies this
      ensures Valid()
      ensures match FindIndex(old(users), id)
              case None => r == Err(NotFound) && users == old(users)
              case Some(i) =>
                && users == old(users)[i := Spread(old(users)[i], patch)]
                && r == Ok(users[i])
    {
      match FindIndex(users, id)
      case None => r := Err(NotFound);
      case Some(i) =>
        users := users[i := Spread(users[i], patch)];
        r := Ok(users[i]);
    }

    /** Removes the first record with that `Id` and returns it. */
    method Delete(id: real) returns (r: Result<Record>)
      requires Valid()
      modifies this
      ensures Valid()
      ensures match FindIndex(old(users), id)
              case None => r == Err(NotFound) && users == old(users)
              case Some(i) => r == Ok(old(users)[i]) && users == RemoveAt(old(users), i)
    {
      match FindIndex(users, id)
      case None => r := Err(NotFound);
      case Some(i) =>
        r := Ok(users[i]);
        users := RemoveAt(users, i);
    }

    /** The users whose `uplineId` is `uplineId`, in store order. */
    method GetTeamByUplineId(uplineId: Value) returns (team: seq<Record>)
      ensures team == Filter(users, u => FieldIs(u, "uplineId", uplineId))
      ensures forall i :: 0 <= i < |team| ==> FieldIs(team[i], "uplineId", uplineId)
    {
      team := Filter(users, u => FieldIs(u, "uplineId", uplineId));
    }
  }
}
