/** The property detail page: the image gallery's position and the status
    actions offered for a property, with the store update they make. */
module PropertyDetailPage {
  import opened Json
  import opened Records
  import opened PropertyService

  const Placeholder := "/api/placeholder/800/500"

  /** The "previous" arrow: one back, never below the first image. */
  function Prev(i: int): int {
    if 0 > i - 1 then 0 else i - 1
  }

  /** The "next" arrow: one on, never past the last of `n` images. */
  function Next(i: int, n: nat): int {
    if n - 1 < i + 1 then n - 1 else i + 1
  }

  /** A click in the gallery; thumbnails exist for each image, so a thumbnail
      click carries a valid index. The arrows and thumbnails are shown only
      when there is more than one image. */
  datatype Click = PrevClick | NextClick | Thumbnail(index: nat)

  function Step(i: int, n: nat, c: Click): int {
    match c
    case PrevClick => Prev(i)
    case NextClick => Next(i, n)
    case Thumbnail(j) => j
  }

  function Clicks(i: int, n: nat, cs: seq<Click>): int
    decreases |cs|
  {
    if cs == [] then i else Clicks(Step(i, n, cs[0]), n, cs[1..])
  }

  predicate ThumbnailsInRange(n: nat, cs: seq<Click>) {
    forall k :: 0 <= k < |cs| && cs[k].Thumbnail? ==> cs[k].index < n
  }

  /** One click from a valid index lands on a valid index. */
  lemma StepInRange(i: int, n: nat, c: Click)
    requires 0 <= i < n
    requires c.Thumbnail? ==> c.index < n
    ensures 0 <= Step(i, n, c) < n
  {
  }

  /** Any sequence of gallery clicks from the first image keeps the shown
      index inside the image list. */
  lemma {:induction false} ClicksInRange(i: int, n: nat, cs: seq<Click>)
    requires 0 <= i < n
    requires ThumbnailsInRange(n, cs)
    ensures 0 <= Clicks(i, n, cs) < n
    decreases |cs|
  {
    if cs != [] {
      StepInRange(i, n, cs[0]);
      assert ThumbnailsInRange(n, cs[1..]) by {
        forall k | 0 <= k < |cs| - 1 && cs[1..][k].Thumbnail? ensures cs[1..][k].index < n {
          assert cs[1..][k] == cs[k + 1];
        }
      }
      ClicksInRange(Step(i, n, cs[0]), n, cs[1..]);
    }
  }

  /** Going back from the last image and on again returns to it, and the
      first image is a fixed point of "previous". */
  lemma PrevNextRoundTrip(i: int, n: nat)
    requires 0 < i < n
    ensures Next(Prev(i), n) == i
    ensures Prev(0) == 0 && Next(n - 1, n) == n - 1
  {
  }

  /** `property.images?.[i]` exists and is truthy. */
  predicate HasImageAt(property: Record, i: nat) {
    var images := Field(property, "images");
    images.Arr? && i < |images.items| && Truthy(images.items[i])
  }

  /** `property.images?.[i] || placeholder`: the image at the index, or the
      placeholder when there is no truthy value there. */
  function ShownImage(property: Record, i: nat): (src: Value)
    ensures HasImageAt(property, i) ==> src == Field(property, "images").items[i] && Truthy(src)
    ensures !HasImageAt(property, i) ==> src == Str(Placeholder)
  {
    var images := Field(property, "images");
    if images.Arr? && i < |images.items| && Truthy(images.items[i]) then images.items[i] else Str(Placeholder)
  }

  /** The statuses offered: three, and only while the property is available. */
  function StatusActions(property: Record): (actions: seq<string>)
    ensures FieldIs(property, "status", Str("available")) <==> actions != []
    ensures forall a :: a in actions ==> a in {"under-negotiation", "sold", "rented"}
  {
    if FieldIs(property, "status", Str("available")) then ["under-negotiation", "sold", "rented"] else []
  }

  /** `{ ...property, status }`. */
  function StatusPatch(property: Record, status: string): (patch: Record)
    ensures patch.Keys == property.Keys + {"status"}
    ensures patch["status"] == Str(status)
    ensures forall k :: k in property && k != "status" ==> patch[k] == property[k]
  {
    Spread(property, map["status" := Str(status)])
  }

  /** When the page's copy is the stored record, the stored record becomes
      exactly the patch: merging a record with itself changes nothing but the
      status. */
  lemma PatchOfStoredRecord(property: Record, status: string)
    ensures Spread(property, StatusPatch(property, status)) == StatusPatch(property, status)
    ensures Spread(property, StatusPatch(property, status)) == property["status" := Str(status)]
  {
  }

  /** `handleStatusUpdate`: the store merges the patch into the record with the
      property's `Id`; the page shows what the store returns, or keeps its copy
      when the store reports the record missing. */
  method UpdateStatus(store: PropertyStore, property: Record, status: string) returns (shown: Record)
    requires store.Valid() && NumericId(property)
    modifies store
    ensures store.Valid()
    ensures match FindIndex(old(store.properties), IdOf(property))
            case None => shown == property && store.properties == old(store.properties)
            case Some(i) =>
              && store.properties == old(store.properties)[i := Spread(old(store.properties)[i], StatusPatch(property, status))]
              && shown == store.properties[i]
              && shown["status"] == Str(status)
  {
    var r := store.Update(IdOf(property), StatusPatch(property, status));
    match r
    case Ok(updated) => shown := updated;
    case Err(_) => shown := property;
  }
}
