/** The properties page: the conjunctive search filter and the four sort modes,
    and how the page's shown list moves as filters and the sort key change. */
module PropertiesPage {
  import opened Json
  import opened Text
  import opened Seqs
  import opened Sorting

  /** How many leading characters of `s` are digits. */
  function LeadingDigits(s: string): (n: nat)
    ensures n <= |s| && forall i :: 0 <= i < n ==> IsDigit(s[i])
    ensures n < |s| ==> !IsDigit(s[n])
  {
    if s == [] || !IsDigit(s[0]) then 0 else 1 + LeadingDigits(s[1..])
  }

  /** `parseInt(s)`: an optional sign, then the longest run of leading digits;
      no digits at all is `NaN`, here `None`. */
  function ParseIntText(s: string): Option<int> {
    var signed := |s| > 0 && (s[0] == '-' || s[0] == '+');
    var body := if signed then s[1..] else s;
    var n := LeadingDigits(body);
    if n == 0 then None
    else if signed && s[0] == '-' then Some(-(DecimalValue(body[..n]) as int))
    else Some(DecimalValue(body[..n]))
  }

  /** `parseInt(v)` for a filter value: numbers truncate toward zero, strings
      are parsed, anything else is `NaN`. */
  function ParseInt(v: Value): Option<int> {
    match v
    case Num(n) => Some(if n >= 0.0 then n.Floor else -((-n).Floor))
    case Str(s) => ParseIntText(s)
    case _ => None
  }

  lemma {:induction false} AllDigitsLead(s: string)
    requires forall i :: 0 <= i < |s| ==> IsDigit(s[i])
    ensures LeadingDigits(s) == |s|
  {
    if s != [] {
      AllDigitsLead(s[1..]);
    }
  }

  /** A price typed into a number input is read back as that price. */
  lemma ParseIntOfDecimal(n: nat)
    ensures ParseIntText(DecimalText(n)) == Some(n)
  {
    var s := DecimalText(n);
    AllDigitsLead(s);
    DecimalRoundTrip(n);
    assert s[..|s|] == s;
  }

  function PriceOf(p: Record): real {
    if Field(p, "price").Num? then Field(p, "price").n else 0.0
  }

  predicate SearchHit(p: Record, q: string) {
    ContainsFolded(TextOf(Field(p, "title")), q) || ContainsFolded(TextOf(Field(p, "location")), q)
  }

  /** `p.price >= bound` and `p.price <= bound`; a `NaN` bound admits nothing. */
  predicate PriceAtLeast(p: Record, bound: Option<int>) {
    Field(p, "price").Num? && bound.Some? && Field(p, "price").n >= bound.value as real
  }

  predicate PriceAtMost(p: Record, bound: Option<int>) {
    Field(p, "price").Num? && bound.Some? && Field(p, "price").n <= bound.value as real
  }

  predicate Active(filters: Record, k: string) {
    Truthy(Field(filters, k))
  }

  /** A property passes the filters when it meets the condition of every
      active (truthy) filter: search text in the title or the location, case
      ignored; the exact category; the exact status; location text in the
      location; price within the inclusive bounds. */
  predicate Admits(filters: Record, p: Record) {
    && (Active(filters, "search") ==> SearchHit(p, TextOf(Field(filters, "search"))))
    && (Active(filters, "category") ==> FieldIs(p, "category", Field(filters, "category")))
    && (Active(filters, "status") ==> FieldIs(p, "status", Field(filters, "status")))
    && (Active(filters, "location") ==> ContainsFolded(TextOf(Field(p, "location")), TextOf(Field(filters, "location"))))
    && (Active(filters, "minPrice") ==> PriceAtLeast(p, ParseInt(Field(filters, "minPrice"))))
    && (Active(filters, "maxPrice") ==> PriceAtMost(p, ParseInt(Field(filters, "maxPrice"))))
  }

  /** The condition each filter applies, as the list callback it passes. */
  function Condition(filters: Record, k: string): Record -> bool {
    match k
    case "search" => p => SearchHit(p, TextOf(Field(filters, "search")))
    case "category" => p => FieldIs(p, "category", Field(filters, "category"))
    case "status" => p => FieldIs(p, "status", Field(filters, "status"))
    case "location" => p => ContainsFolded(TextOf(Field(p, "location")), TextOf(Field(filters, "location")))
    case "minPrice" => p => PriceAtLeast(p, ParseInt(Field(filters, "minPrice")))
    case _ => p => PriceAtMost(p, ParseInt(Field(filters, "maxPrice")))
  }

  /** `filtered.filter(...)` when the filter `k` is truthy. */
  function Apply(s: seq<Record>, filters: Record, k: string): seq<Record> {
    Stage(s, Active(filters, k), Condition(filters, k))
  }

  /** `handleFiltersChange`: always starts again from the full list. */
  function FilterProperties(properties: seq<Record>, filters: Record): seq<Record> {
    var s1 := Apply(properties, filters, "search");
    var s2 := Apply(s1, filters, "category");
    var s3 := Apply(s2, filters, "status");
    var s4 := Apply(s3, filters, "location");
    var s5 := Apply(s4, filters, "minPrice");
    Apply(s5, filters, "maxPrice")
  }

  /** Applying filter `k` after the filter `before` is one filter by both. */
  lemma ApplyAfter(s: seq<Record>, filters: Record, k: string, before: Record -> bool, after: Record -> bool)
    requires forall x :: after(x) == (before(x) && (Active(filters, k) ==> Condition(filters, k)(x)))
    ensures Apply(Filter(s, before), filters, k) == Filter(s, after)
  {
    StageCompose(s, before, Active(filters, k), Condition(filters, k), after);
  }

  /** The chain of filters is the one conjunctive filter `Admits`. */
  lemma FilterPropertiesExact(properties: seq<Record>, filters: Record)
    ensures FilterProperties(properties, filters) == Filter(properties, p => Admits(filters, p))
  {
    var f := filters;
    var p0 := (p: Record) => true;
    var p1 := p => (Active(f, "search") ==> SearchHit(p, TextOf(Field(f, "search"))));
    var p2 := p => p1(p) && (Active(f, "category") ==> FieldIs(p, "category", Field(f, "category")));
    var p3 := p => p2(p) && (Active(f, "status") ==> FieldIs(p, "status", Field(f, "status")));
    var p4 := p => p3(p) && (Active(f, "location") ==> ContainsFolded(TextOf(Field(p, "location")), TextOf(Field(f, "location"))));
    var p5 := p => p4(p) && (Active(f, "minPrice") ==> PriceAtLeast(p, ParseInt(Field(f, "minPrice"))));
    var p6 := p => Admits(f, p);
    FilterAll(properties, p0);
    ApplyAfter(properties, f, "search", p0, p1);
    ApplyAfter(properties, f, "category", p1, p2);
    ApplyAfter(properties, f, "status", p2, p3);
    ApplyAfter(properties, f, "location", p3, p4);
    ApplyAfter(properties, f, "minPrice", p4, p5);
    ApplyAfter(properties, f, "maxPrice", p5, p6);
  }

  /** The ascending key behind each comparator of `sortProperties`: the
      comparator `b - a` of the descending modes is the ascending order of the
      negated key; an unknown mode compares everything as equal. `instant`
      stands for `new Date(v)` read as milliseconds. */
  function SortKey(sortBy: string, instant: Value -> int, p: Record): real {
    match sortBy
    case "price-low" => PriceOf(p)
    case "price-high" => -PriceOf(p)
    case "newest" => -(instant(Field(p, "createdAt")) as real)
    case "oldest" => instant(Field(p, "createdAt")) as real
    case _ => 0.0
  }

  function SortProperties(s: seq<Record>, sortBy: string, instant: Value -> int): (r: seq<Record>)
    ensures multiset(r) == multiset(s)
    ensures sortBy == "price-low" ==> forall i, j :: 0 <= i < j < |r| ==> PriceOf(r[i]) <= PriceOf(r[j])
    ensures sortBy == "price-high" ==> forall i, j :: 0 <= i < j < |r| ==> PriceOf(r[i]) >= PriceOf(r[j])
    ensures sortBy == "newest" ==> forall i, j :: 0 <= i < j < |r| ==>
      instant(Field(r[i], "createdAt")) >= instant(Field(r[j], "createdAt"))
    ensures sortBy == "oldest" ==> forall i, j :: 0 <= i < j < |r| ==>
      instant(Field(r[i], "createdAt")) <= instant(Field(r[j], "createdAt"))
  {
    var key := p => SortKey(sortBy, instant, p);
    SortByKeySorted(s, key);
    SortByKey(s, key)
  }

  /** Properties the comparator calls equal keep their relative order. */
  lemma SortPropertiesIsStable(s: seq<Record>, sortBy: string, instant: Value -> int, c: real, tie: Record -> bool)
    requires forall p :: tie(p) == (SortKey(sortBy, instant, p) == c)
    ensures Filter(SortProperties(s, sortBy, instant), tie) == Filter(s, tie)
  {
    var key := p => SortKey(sortBy, instant, p);
    var r := SortProperties(s, sortBy, instant);
    SortIsStable(s, key, c);
    FilterCongruent(s, KeyIs(key, c), tie);
    FilterCongruent(r, KeyIs(key, c), tie);
  }

  /** A mode that is none of the four leaves the list as it was. */
  lemma UnknownSortKeepsOrder(s: seq<Record>, sortBy: string, instant: Value -> int)
    requires sortBy !in {"price-low", "price-high", "newest", "oldest"}
    ensures SortProperties(s, sortBy, instant) == s
  {
    ConstantKeyKeepsOrder(s, p => SortKey(sortBy, instant, p), 0.0);
  }

  /** What the page holds: the loaded list, the list on screen and the sort mode. */
  datatype PropertiesView = PropertiesView(properties: seq<Record>, shown: seq<Record>, sortBy: string)

  const InitialView := PropertiesView([], [], "newest")

  /** `loadProperties` stores the list and shows it; the sort effect, which
      watches the stored list, then sorts what is shown. */
  function Loaded(v: PropertiesView, data: seq<Record>, instant: Value -> int): PropertiesView {
    v.(properties := data, shown := SortProperties(data, v.sortBy, instant))
  }

  /** Choosing a sort mode re-sorts what is currently shown. */
  function SortChanged(v: PropertiesView, sortBy: string, instant: Value -> int): PropertiesView {
    v.(sortBy := sortBy, shown := SortProperties(v.shown, sortBy, instant))
  }

  /** New filters replace what is shown by the filtered stored list, in store
      order: the sort effect does not watch the filters. */
  function FiltersChanged(v: PropertiesView, filters: Record): PropertiesView {
    v.(shown := FilterProperties(v.properties, filters))
  }

  /** After a load the page shows every stored property, once each. */
  lemma LoadedShowsEverything(v: PropertiesView, data: seq<Record>, instant: Value -> int)
    ensures multiset(Loaded(v, data, instant).shown) == multiset(data)
    ensures Loaded(v, data, instant).properties == data
  {
  }

  /** After a filter change the page shows exactly the admitted stored
      properties, in store order, whatever sort mode is selected. */
  lemma FiltersChangedShowsAdmitted(v: PropertiesView, filters: Record)
    ensures FiltersChanged(v, filters).shown == Filter(v.properties, p => Admits(filters, p))
    ensures IsSubseq(FiltersChanged(v, filters).shown, v.properties)
    ensures forall p :: p in FiltersChanged(v, filters).shown <==> p in v.properties && Admits(filters, p)
  {
    var adm := p => Admits(filters, p);
    FilterPropertiesExact(v.properties, filters);
    FilterIsSubseq(v.properties, adm);
    forall p ensures p in Filter(v.properties, adm) <==> p in v.properties && Admits(filters, p) {
      FilterMultiplicity(v.properties, adm, p);
    }
  }

  /** Re-sorting changes only the order of what is shown. */
  lemma SortChangedPermutes(v: PropertiesView, sortBy: string, instant: Value -> int)
    ensures multiset(SortChanged(v, sortBy, instant).shown) == multiset(v.shown)
    ensures SortChanged(v, sortBy, instant).properties == v.properties
  {
  }

  /** Filters with nothing active show the whole stored list in store order. */
  lemma NoActiveFilterShowsAll(properties: seq<Record>, filters: Record)
    requires forall k :: k in filters ==> !Truthy(filters[k])
    ensures FilterProperties(properties, filters) == properties
  {
    FilterPropertiesExact(properties, filters);
    FilterAll(properties, p => Admits(filters, p));
  }
}
