/** The fixed tables of the dashboard: property categories and statuses, user
    roles, the commission rate table and the quick price-range buckets. */
module Constants {
  import opened Json

  datatype Category = Category(id: string, text: string, icon: string)
  datatype StatusOption = StatusOption(id: string, text: string, color: string)
  datatype RoleOption = RoleOption(id: string, text: string, level: nat)

  /** The rate of each role, as a fraction of the sale amount. */
  datatype CommissionRates = CommissionRates(admin: real, member: real, subMember: real)

  /** A price bucket in whole rupees; `max == None` is the unbounded last bucket. */
  datatype PriceRange = PriceRange(min: int, max: Option<int>, text: string)

  const PropertyCategories: seq<Category> := [
    Category("land", "Land", "MapPin"),
    Category("villa", "Villa", "Home"),
    Category("apartment", "Apartment", "Building"),
    Category("commercial", "Commercial Space", "Building2"),
    Category("building", "Buildings", "Warehouse")
  ]

  const PropertyStatuses: seq<StatusOption> := [
    StatusOption("available", "Available", "success"),
    StatusOption("under-negotiation", "Under Negotiation", "warning"),
    StatusOption("sold", "Sold", "error"),
    StatusOption("rented", "Rented", "primary")
  ]

  const UserRoles: seq<RoleOption> := [
    RoleOption("admin", "Admin", 0),
    RoleOption("member", "Team Member", 1),
    RoleOption("sub-member", "Sub Member", 2)
  ]

  const Rates: CommissionRates := CommissionRates(0.15, 0.10, 0.05)

  const PriceRanges: seq<PriceRange> := [
    PriceRange(0, Some(1000000), "Under ₹10 Lakh"),
    PriceRange(1000000, Some(2500000), "₹10 - 25 Lakh"),
    PriceRange(2500000, Some(5000000), "₹25 - 50 Lakh"),
    PriceRange(5000000, Some(10000000), "₹50 Lakh - 1 Crore"),
    PriceRange(10000000, Some(25000000), "₹1 - 2.5 Crore"),
    PriceRange(25000000, Some(50000000), "₹2.5 - 5 Crore"),
    PriceRange(50000000, None, "Above ₹5 Crore")
  ]

  /** Buckets that start at 0, each ending where the next begins, with strictly
      increasing lower bounds and only the last one open-ended. */
  predicate Contiguous(ranges: seq<PriceRange>) {
    && |ranges| > 0
    && ranges[0].min == 0
    && (forall i :: 0 <= i < |ranges| - 1 ==> ranges[i].max == Some(ranges[i + 1].min))
    && (forall i :: 0 <= i < |ranges| - 1 ==> ranges[i].min < ranges[i + 1].min)
    && ranges[|ranges| - 1].max == None
  }

  /** `price` lies in bucket `r` read half-open (lower bound inclusive, upper
      bound exclusive), the reading under which the labels do not overlap. The
      page itself applies a bucket inclusively at both ends (`InQuickRange`). */
  predicate InRange(r: PriceRange, price: int) {
    r.min <= price && (r.max.None? || price < r.max.value)
  }

  /** The shape `Contiguous` keeps after dropping leading buckets: linked bounds,
      an open last bucket, and a first bucket starting at or below `price`. */
  predicate CoversFrom(ranges: seq<PriceRange>, price: int) {
    && |ranges| > 0
    && ranges[0].min <= price
    && (forall i :: 0 <= i < |ranges| - 1 ==> ranges[i].max == Some(ranges[i + 1].min))
    && ranges[|ranges| - 1].max == None
  }

  lemma {:induction false} ContiguousCoversFrom(ranges: seq<PriceRange>, price: int)
    requires CoversFrom(ranges, price)
    ensures exists i :: 0 <= i < |ranges| && InRange(ranges[i], price)
    decreases |ranges|
  {
    if |ranges| == 1 || price < ranges[1].min {
      assert InRange(ranges[0], price);
    } else {
      var tail := ranges[1..];
      assert CoversFrom(tail, price);
      ContiguousCoversFrom(tail, price);
      var i :| 0 <= i < |tail| && InRange(tail[i], price);
      assert InRange(ranges[i + 1], price);
    }
  }

  lemma {:induction false} MinsIncrease(ranges: seq<PriceRange>, i: nat, j: nat)
    requires Contiguous(ranges) && i < j < |ranges|
    ensures ranges[i].min < ranges[j].min
    decreases j - i
  {
    if i + 1 < j {
      MinsIncrease(ranges, i + 1, j);
    }
  }

  /** Read half-open, no price falls in two buckets of a contiguous table. */
  lemma ContiguousDisjoint(ranges: seq<PriceRange>, price: int, i: nat, j: nat)
    requires Contiguous(ranges) && i < j < |ranges|
    ensures !(InRange(ranges[i], price) && InRange(ranges[j], price))
  {
    if i + 1 < j {
      MinsIncrease(ranges, i + 1, j);
    }
  }

  /** `price` passes the quick range filter of bucket `r`: `min <= price <= max`. */
  predicate InQuickRange(r: PriceRange, price: int) {
    r.min <= price && (r.max.None? || price <= r.max.value)
  }

  /** As the page applies them, adjacent buckets overlap: the price where one
      bucket ends and the next begins passes both. */
  lemma BoundaryInTwoQuickRanges(ranges: seq<PriceRange>, i: nat)
    requires Contiguous(ranges) && i + 1 < |ranges|
    ensures InQuickRange(ranges[i], ranges[i + 1].min) && InQuickRange(ranges[i + 1], ranges[i + 1].min)
    ensures !InRange(ranges[i], ranges[i + 1].min)
  {
    assert ranges[i].max == Some(ranges[i + 1].min) && ranges[i].min < ranges[i + 1].min;
    if i + 2 < |ranges| {
      assert ranges[i + 1].max == Some(ranges[i + 2].min) && ranges[i + 1].min < ranges[i + 2].min;
    }
  }

  lemma PriceRangesContiguous()
    ensures Contiguous(PriceRanges)
  {
  }

  /** Every non-negative price falls in some bucket of a contiguous table. */
  lemma ContiguousCovers(ranges: seq<PriceRange>, price: int)
    requires Contiguous(ranges) && 0 <= price
    ensures exists i :: 0 <= i < |ranges| && InRange(ranges[i], price)
  {
    ContiguousCoversFrom(ranges, price);
  }

  predicate DistinctCategoryIds(cs: seq<Category>) {
    forall i, j :: 0 <= i < j < |cs| ==> cs[i].id != cs[j].id
  }

  predicate DistinctStatusIds(ss: seq<StatusOption>) {
    forall i, j :: 0 <= i < j < |ss| ==> ss[i].id != ss[j].id
  }

  lemma TablesHaveDistinctIds()
    ensures |PropertyCategories| == 5 && DistinctCategoryIds(PropertyCategories)
    ensures |PropertyStatuses| == 4 && DistinctStatusIds(PropertyStatuses)
    ensures forall i, j :: 0 <= i < j < |UserRoles| ==> UserRoles[i].id != UserRoles[j].id
  {
  }

  /** Roles are listed in hierarchy order: admin at level 0, then member, then sub-member. */
  lemma RolesInHierarchyOrder()
    ensures forall i :: 0 <= i < |UserRoles| ==> UserRoles[i].level == i
    ensures UserRoles[0].id == "admin" && UserRoles[1].id == "member" && UserRoles[2].id == "sub-member"
  {
  }

  /** The rate table decreases down the hierarchy. */
  lemma RatesDecreaseDownTheHierarchy()
    ensures Rates.admin > Rates.member > Rates.subMember > 0.0
  {
  }
}
