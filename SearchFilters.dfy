/** The search-and-filter panel: its six filter fields, the handlers that
    change them, and the notifications each handler sends to the page. */
module SearchFilters {
  import opened Json
  import opened Constants
  import PropertiesPage

  const FilterKeys: set<string> := {"search", "category", "status", "location", "minPrice", "maxPrice"}

  /** Every filter field empty. */
  const Blank: Record := map["search" := Str(""), "category" := Str(""), "status" := Str(""),
                             "location" := Str(""), "minPrice" := Str(""), "maxPrice" := Str("")]

  /** The panel's state after a handler, and the filter records it passed to
      `onFiltersChange`, in order. */
  datatype Changed = Changed(filters: Record, notified: seq<Record>)

  /** The starting filters: all fields empty, overridden by the caller's. */
  function Initial(initial: Record): (f: Record)
    ensures f.Keys == FilterKeys + initial.Keys
    ensures forall k :: k in initial ==> f[k] == initial[k]
    ensures forall k :: k in FilterKeys && k !in initial ==> f[k] == Str("")
  {
    Spread(Blank, initial)
  }

  /** `true` when some field holds a truthy value; the number 0 and "" do not count. */
  predicate HasActive(f: Record) {
    exists k :: k in f && Truthy(f[k])
  }

  /** Only a truthy value makes the panel active: the number 0 does not, any
      non-empty text does. */
  lemma ActiveOnlyWhenTruthy(f: Record, key: string, value: Value)
    requires !HasActive(f)
    ensures HasActive(SetFilter(f, key, value).filters) <==> Truthy(value)
    ensures !HasActive(SetFilter(f, key, Num(0.0)).filters)
  {
    var g := SetFilter(f, key, value).filters;
    if Truthy(value) {
      assert key in g && Truthy(g[key]);
    }
  }

  /** `handleFilterChange(key, value)`: one field replaced, the new filters sent on. */
  function SetFilter(f: Record, key: string, value: Value): (c: Changed)
    ensures c.filters.Keys == f.Keys + {key}
    ensures c.filters[key] == value
    ensures forall k :: k in f && k != key ==> c.filters[k] == f[k]
    ensures c.notified == [c.filters]
  {
    var g := Spread(f, map[key := value]);
    Changed(g, [g])
  }

  /** `clearFilters`: every field back to "", and that sent on. */
  function Clear(f: Record): (c: Changed)
    ensures c.filters.Keys == FilterKeys
    ensures forall k :: k in c.filters ==> c.filters[k] == Str("")
    ensures !HasActive(c.filters)
    ensures c.notified == [c.filters]
  {
    Changed(Blank, [Blank])
  }

  /** The value the maximum field takes from a bucket: `range.max || ""`. */
  function MaxValue(r: PriceRange): (v: Value)
    ensures r.max.Some? && r.max.value != 0 ==> v == Num(r.max.value as real)
    ensures r.max.None? ==> v == Str("")
    ensures r.max.Some? && r.max.value == 0 ==> v == Str("")
  {
    if r.max.Some? && r.max.value != 0 then Num(r.max.value as real) else Str("")
  }

  /** A quick-range button as the panel is written: both field changes spread
      the same filters the button was rendered with, so the second change and
      the state it leaves carry the old minimum. */
  function QuickRangeAsWritten(f: Record, r: PriceRange): Changed {
    var first := SetFilter(f, "minPrice", Num(r.min as real));
    var second := SetFilter(f, "maxPrice", MaxValue(r));
    Changed(second.filters, first.notified + second.notified)
  }

  /** The bucket's minimum is lost: what the panel keeps and what the page
      sees last still hold the old minimum. */
  lemma QuickRangeDropsMinimum(f: Record, r: PriceRange)
    requires "minPrice" in f
    ensures QuickRangeAsWritten(f, r).filters["minPrice"] == f["minPrice"]
    ensures |QuickRangeAsWritten(f, r).notified| == 2
    ensures QuickRangeAsWritten(f, r).notified[1]["minPrice"] == f["minPrice"]
  {
  }

  /** From the blank panel, the "₹50 Lakh - 1 Crore" button leaves no minimum. */
  lemma QuickRangeFromBlankLosesBucketMinimum()
    ensures var c := QuickRangeAsWritten(Blank, PriceRanges[3]);
      c.filters["minPrice"] == Str("") && c.filters["maxPrice"] == Num(10000000.0)
      && PriceRanges[3].min == 5000000
  {
    var c := QuickRangeAsWritten(Blank, PriceRanges[3]);
    assert c.filters == Blank["maxPrice" := Num(10000000.0)];
  }

  /** A quick-range button that sets both bounds at once. */
  function QuickRange(f: Record, r: PriceRange): (c: Changed)
    ensures c.filters.Keys == f.Keys + {"minPrice", "maxPrice"}
    ensures c.filters["minPrice"] == Num(r.min as real)
    ensures c.filters["maxPrice"] == MaxValue(r)
    ensures forall k :: k in f && k != "minPrice" && k != "maxPrice" ==> c.filters[k] == f[k]
    ensures c.notified == [c.filters]
  {
    var g := Spread(f, map["minPrice" := Num(r.min as real), "maxPrice" := MaxValue(r)]);
    Changed(g, [g])
  }

  lemma ParseIntOfWhole(n: int)
    ensures PropertiesPage.ParseInt(Num(n as real)) == Some(n)
  {
    if n < 0 {
      assert (-(n as real)).Floor == -n;
    }
  }

  /** From the blank panel, a quick range admits exactly the properties priced
      within the bucket, both bounds inclusive (the page compares with `>=`
      and `<=`). */
  lemma QuickRangeSelectsBucket(r: PriceRange, p: Record, price: real)
    requires r.min >= 0 && (r.max.Some? ==> r.max.value > 0)
    requires FieldIs(p, "price", Num(price)) && price >= 0.0
    ensures PropertiesPage.Admits(QuickRange(Blank, r).filters, p)
        <==> r.min as real <= price && (r.max.None? || price <= r.max.value as real)
  {
    var f := QuickRange(Blank, r).filters;
    ParseIntOfWhole(r.min);
    if r.max.Some? {
      ParseIntOfWhole(r.max.value);
    }
    assert !Truthy(Field(f, "search")) && !Truthy(Field(f, "category")) && !Truthy(Field(f, "status"))
      && !Truthy(Field(f, "location"));
  }

  /** A property priced at exactly ₹10 Lakh is selected both by "Under ₹10 Lakh"
      and by "₹10 - 25 Lakh". */
  lemma BoundaryPriceSelectedTwice(p: Record)
    requires FieldIs(p, "price", Num(1000000.0))
    ensures PropertiesPage.Admits(QuickRange(Blank, PriceRanges[0]).filters, p)
    ensures PropertiesPage.Admits(QuickRange(Blank, PriceRanges[1]).filters, p)
  {
    QuickRangeSelectsBucket(PriceRanges[0], p, 1000000.0);
    QuickRangeSelectsBucket(PriceRanges[1], p, 1000000.0);
  }
}
