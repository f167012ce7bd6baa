/** What the three in-memory stores have in common: how an `Id` is looked up,
    how the next `Id` is chosen, and how a created record is assembled. */
module Records {
  import opened Json

  /** `r.Id === id`. */
  predicate HasId(r: Record, id: real) {
    FieldIs(r, "Id", Num(id))
  }

  predicate NumericId(r: Record) {
    "Id" in r && r["Id"].Num?
  }

  /** Every record carries a numeric `Id`, so that `Math.max` over the ids is a number. */
  predicate NumericIds(s: seq<Record>) {
    forall i :: 0 <= i < |s| ==> NumericId(s[i])
  }

  function IdOf(r: Record): real
    requires NumericId(r)
  {
    r["Id"].n
  }

  /** `Math.max(...s.map(r => r.Id))` on a non-empty store. */
  function MaxId(s: seq<Record>): (m: real)
    requires |s| > 0 && NumericIds(s)
    ensures forall i :: 0 <= i < |s| ==> IdOf(s[i]) <= m
    ensures exists i :: 0 <= i < |s| && IdOf(s[i]) == m
  {
    if |s| == 1 then IdOf(s[0])
    else
      var m := MaxId(s[..|s| - 1]);
      if IdOf(s[|s| - 1]) > m then IdOf(s[|s| - 1]) else m
  }

  /** The `Id` that `create` generates: one more than the largest, hence
      strictly greater than every `Id` in the store. */
  function NextId(s: seq<Record>): (id: real)
    requires |s| > 0 && NumericIds(s)
    ensures id == MaxId(s) + 1.0
    ensures forall i :: 0 <= i < |s| ==> IdOf(s[i]) < id
    ensures exists i :: 0 <= i < |s| && id == IdOf(s[i]) + 1.0
  {
    MaxId(s) + 1.0
  }

  /** `{ Id: NextId(s), ...fields, ...stamps }`: the caller's fields are spread
      over the generated `Id` (so a caller-supplied `Id` wins), and the store's
      own `stamps` (timestamps, flags) are written last, so they always win. */
  function NewRecord(s: seq<Record>, fields: Record, stamps: Record): (r: Record)
    requires |s| > 0 && NumericIds(s)
    ensures r.Keys == {"Id"} + fields.Keys + stamps.Keys
    ensures forall k :: k in stamps ==> r[k] == stamps[k]
    ensures forall k :: k in fields && k !in stamps ==> r[k] == fields[k]
    ensures "Id" !in fields && "Id" !in stamps ==> r["Id"] == Num(NextId(s))
  {
    Spread(Spread(map["Id" := Num(NextId(s))], fields), stamps)
  }

  /** `s.findIndex(r => r.Id === id)`, with `None` for `-1`. */
  function FindIndex(s: seq<Record>, id: real): (r: Option<nat>)
    ensures r.Some? ==> r.value < |s| && HasId(s[r.value], id)
    ensures r.Some? ==> forall j :: 0 <= j < r.value ==> !HasId(s[j], id)
    ensures r.None? <==> forall j :: 0 <= j < |s| ==> !HasId(s[j], id)
  {
    if s == [] then None
    else if HasId(s[0], id) then Some(0)
    else
      match FindIndex(s[1..], id)
      case None => None
      case Some(k) => Some(k + 1)
  }

  /** `s.splice(k, 1)`: the list without its `k`-th element, in the same order. */
  function RemoveAt(s: seq<Record>, k: nat): (r: seq<Record>)
    requires k < |s|
    ensures |r| == |s| - 1
    ensures forall j :: 0 <= j < k ==> r[j] == s[j]
    ensures forall j :: k <= j < |r| ==> r[j] == s[j + 1]
  {
    s[..k] + s[k + 1..]
  }

  /** A store stays numerically keyed when a numerically keyed record is
      appended or replaced, or a record is removed. */
  lemma NumericIdsAppend(s: seq<Record>, r: Record)
    requires NumericIds(s) && NumericId(r)
    ensures NumericIds(s + [r])
  {
    assert forall i :: 0 <= i < |s| ==> (s + [r])[i] == s[i];
  }

  /** Creating a record, deleting it again, and creating once more issues the
      same `Id` twice: ids are reused, not reserved. */
  lemma {:induction false} DeleteNewestReissuesId(s: seq<Record>, fields: Record, stamps: Record)
    requires |s| > 0 && NumericIds(s)
    requires "Id" !in fields && "Id" !in stamps
    ensures var s' := s + [NewRecord(s, fields, stamps)];
            NumericIds(s')
            && FindIndex(s', NextId(s)) == Some(|s|)
            && RemoveAt(s', |s|) == s
            && NextId(RemoveAt(s', |s|)) == NextId(s)
  {
    var r := NewRecord(s, fields, stamps);
    var s' := s + [r];
    NumericIdsAppend(s, r);
    assert forall j :: 0 <= j < |s| ==> s'[j] == s[j] && IdOf(s[j]) < NextId(s);
    assert HasId(s'[|s|], NextId(s));
    assert s'[..|s|] == s;
  }

  /** Deleting any record never raises the next generated `Id`. */
  lemma DeleteNeverRaisesNextId(s: seq<Record>, k: nat)
    requires 2 <= |s| && NumericIds(s) && k < |s|
    ensures NumericIds(RemoveAt(s, k))
    ensures NextId(RemoveAt(s, k)) <= NextId(s)
  {
    var r := RemoveAt(s, k);
    assert forall j :: 0 <= j < |r| ==> NumericId(r[j]) && IdOf(r[j]) <= MaxId(s) by {
      forall j | 0 <= j < |r| ensures NumericId(r[j]) && IdOf(r[j]) <= MaxId(s) {
        if j < k { assert r[j] == s[j]; } else { assert r[j] == s[j + 1]; }
      }
    }
  }
}
