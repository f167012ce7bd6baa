/** The commissions page: the history filter, the two earnings figures, the
    choice of properties a sale can be recorded against, and the sale-recording
    workflow that writes to the commission store and then the property store. */
module CommissionsPage {
  import opened Json
  import opened Seqs
  import opened Records
  import CommissionService
  import PropertyService

  /** The single commission rate a recorded sale uses. */
  const SaleRate: real := 0.05

  /** The record-sale form after `parseInt`/`parseFloat` of its inputs. */
  datatype SaleForm = SaleForm(propertyId: int, saleAmount: real, buyerName: string, saleDate: string)

  datatype SaleOutcome = Recorded(commission: Record) | Failed

  function Distribution(role: string, amount: real, percentage: real): Value {
    Obj(map["role" := Str(role), "amount" := Num(amount), "percentage" := Num(percentage)])
  }

  /** The 60/40 member and sub-member split of a recorded sale's commission. */
  function SaleDistributions(total: real): seq<Value> {
    [Distribution("member", total * 0.6, 60.0), Distribution("sub-member", total * 0.4, 40.0)]
  }

  /** The fields `handleRecordSale` passes to the commission store's `create`:
      5% of the sale, split 60/40 between member and sub-member, status pending. */
  function SaleFields(form: SaleForm): (r: Record)
    ensures "Id" !in r && "date" !in r
  {
    var total := form.saleAmount * SaleRate;
    map[
      "propertyId" := Num(form.propertyId as real),
      "saleAmount" := Num(form.saleAmount),
      "commissionRate" := Num(SaleRate),
      "totalCommission" := Num(total),
      "distributions" := Arr(SaleDistributions(total)),
      "status" := Str("pending"),
      "buyerName" := Str(form.buyerName),
      "saleDate" := Str(form.saleDate)
    ]
  }

  /** The first entry of a distribution list that is an object whose `role` is `role`. */
  function FirstWithRole(items: seq<Value>, role: string): (r: Option<Record>)
    ensures r.Some? <==> exists i :: 0 <= i < |items| && items[i].Obj? && FieldIs(items[i].fields, "role", Str(role))
    ensures r.Some? ==> exists i :: 0 <= i < |items| && items[i] == Obj(r.value)
                           && FieldIs(r.value, "role", Str(role))
                           && forall j :: 0 <= j < i ==> !(items[j].Obj? && FieldIs(items[j].fields, "role", Str(role)))
  {
    if items == [] then None
    else if items[0].Obj? && FieldIs(items[0].fields, "role", Str(role)) then Some(items[0].fields)
    else
      var r := FirstWithRole(items[1..], role);
      assert r.Some? ==> exists i :: 0 <= i < |items| - 1 && items[1..][i] == Obj(r.value)
                           && FieldIs(r.value, "role", Str(role))
                           && forall j :: 0 <= j < i ==> !(items[1..][j].Obj? && FieldIs(items[1..][j].fields, "role", Str(role)));
      r
  }

  /** `c.distributions?.find(d => d.role === "member")?.amount || 0`, as the
      running sum `sum + userEarning` adds it: a falsy amount is 0 and `true`
      adds 1. A non-empty string, array or object would turn the sum into
      string concatenation; it is read as 0 here. */
  function MemberEarning(c: Record): (e: real)
    ensures e != 0.0 ==> Field(c, "distributions").Arr?
                         && FirstWithRole(Field(c, "distributions").items, "member").Some?
  {
    match Field(c, "distributions")
    case Arr(items) =>
      (match FirstWithRole(items, "member")
       case Some(d) =>
         (match Field(d, "amount")
          case Num(n) => n
          case Bool(b) => if b then 1.0 else 0.0
          case _ => 0.0)
       case None => 0.0)
    case _ => 0.0
  }

  /** `calculateTotalEarnings`: the member share summed over all commissions. */
  function TotalEarnings(cs: seq<Record>): (total: real)
    ensures (forall i :: 0 <= i < |cs| ==> MemberEarning(cs[i]) >= 0.0) ==> total >= 0.0
  {
    if cs == [] then 0.0 else MemberEarning(cs[0]) + TotalEarnings(cs[1..])
  }

  predicate IsPending(c: Record) {
    FieldIs(c, "status", Str("pending"))
  }

  /** `calculatePendingEarnings`: the same sum over the pending commissions only. */
  function PendingEarnings(cs: seq<Record>): real {
    TotalEarnings(Filter(cs, IsPending))
  }

  /** Restricting the sum to a sub-list never raises it while shares are non-negative. */
  lemma {:induction false} FilteredEarningsAtMostTotal(cs: seq<Record>, p: Record -> bool)
    requires forall i :: 0 <= i < |cs| ==> MemberEarning(cs[i]) >= 0.0
    ensures 0.0 <= TotalEarnings(Filter(cs, p)) <= TotalEarnings(cs)
  {
    if cs != [] {
      FilteredEarningsAtMostTotal(cs[1..], p);
    }
  }

  lemma PendingAtMostTotal(cs: seq<Record>)
    requires forall i :: 0 <= i < |cs| ==> MemberEarning(cs[i]) >= 0.0
    ensures 0.0 <= PendingEarnings(cs) <= TotalEarnings(cs)
  {
    FilteredEarningsAtMostTotal(cs, IsPending);
  }

  /** `new Date(c.date).toDateString() === new Date(dateFilter).toDateString()`;
      `day` stands for `v => new Date(v).toDateString()`. */
  predicate OnDay(c: Record, dateFilter: string, day: Value -> string) {
    day(Field(c, "date")) == day(Str(dateFilter))
  }

  predicate HasStatus(c: Record, statusFilter: string) {
    FieldIs(c, "status", Str(statusFilter))
  }

  /** `filterCommissions`: an optional day filter on the store-assigned `date`,
      then an optional status filter; an empty filter string is inactive. */
  function FilterCommissions(cs: seq<Record>, dateFilter: string, statusFilter: string, day: Value -> string): seq<Record> {
    var byDate := if dateFilter != "" then Filter(cs, c => OnDay(c, dateFilter, day)) else cs;
    if statusFilter != "" then Filter(byDate, c => HasStatus(c, statusFilter)) else byDate
  }

  /** The condition the history table applies: each active filter must match. */
  predicate Shown(c: Record, dateFilter: string, statusFilter: string, day: Value -> string) {
    && (dateFilter != "" ==> OnDay(c, dateFilter, day))
    && (statusFilter != "" ==> HasStatus(c, statusFilter))
  }

  /** The two filters are one conjunctive filter, so the table shows exactly the
      commissions that match every active filter, in store order. */
  lemma FilterCommissionsExact(cs: seq<Record>, dateFilter: string, statusFilter: string, day: Value -> string)
    ensures FilterCommissions(cs, dateFilter, statusFilter, day) == Filter(cs, c => Shown(c, dateFilter, statusFilter, day))
  {
    var shown := c => Shown(c, dateFilter, statusFilter, day);
    var onDay := c => OnDay(c, dateFilter, day);
    var hasStatus := c => HasStatus(c, statusFilter);
    if dateFilter != "" && statusFilter != "" {
      FilterFilter(cs, onDay, hasStatus, shown);
    } else if dateFilter != "" {
      FilterCongruent(cs, onDay, shown);
    } else if statusFilter != "" {
      FilterCongruent(cs, hasStatus, shown);
    } else {
      FilterAll(cs, shown);
    }
  }

  /** A status that no commission has gives an empty table, not an error. */
  lemma UnmatchedStatusGivesEmpty(cs: seq<Record>, dateFilter: string, statusFilter: string, day: Value -> string)
    requires statusFilter != ""
    requires forall i :: 0 <= i < |cs| ==> !HasStatus(cs[i], statusFilter)
    ensures FilterCommissions(cs, dateFilter, statusFilter, day) == []
  {
    var r := FilterCommissions(cs, dateFilter, statusFilter, day);
    FilterCommissionsExact(cs, dateFilter, statusFilter, day);
    if r != [] {
      FilterMultiplicity(cs, c => Shown(c, dateFilter, statusFilter, day), r[0]);
    }
  }

  /** Only the store-assigned `date` is compared, never the buyer's `saleDate`. */
  lemma DayFilterIgnoresSaleDate(c: Record, v: Value, dateFilter: string, statusFilter: string, day: Value -> string)
    ensures Shown(c["saleDate" := v], dateFilter, statusFilter, day) == Shown(c, dateFilter, statusFilter, day)
  {
  }

  /** The properties offered in the record-sale form: the available ones, in store order. */
  function AvailableForSale(ps: seq<Record>): (r: seq<Record>)
    ensures forall p :: p in r <==> p in ps && IsAvailable(p)
    ensures IsSubseq(r, ps)
  {
    var r := Filter(ps, IsAvailable);
    forall p ensures p in r <==> p in ps && IsAvailable(p) {
      FilterMultiplicity(ps, IsAvailable, p);
    }
    FilterIsSubseq(ps, IsAvailable);
    r
  }

  predicate IsAvailable(p: Record) {
    FieldIs(p, "status", Str("available"))
  }

  /** The sum of a numeric field over the object entries of a list. */
  function SumOf(items: seq<Value>, k: string): real {
    if items == [] then 0.0
    else (if items[0].Obj? && Field(items[0].fields, k).Num? then Field(items[0].fields, k).n else 0.0) + SumOf(items[1..], k)
  }

  /** The split's amounts add up to the total, its percentages to 100, and the
      member entry, which the earnings figures read, carries 60% of the total. */
  lemma SaleDistributionsSum(total: real)
    ensures SumOf(SaleDistributions(total), "amount") == total
    ensures SumOf(SaleDistributions(total), "percentage") == 100.0
    ensures MemberEarning(map["distributions" := Arr(SaleDistributions(total))]) == total * 0.6
  {
    var items := SaleDistributions(total);
    var rest := items[1..];
    assert rest == [items[1]] && rest[1..] == [];
    assert Field(items[0].fields, "amount") == Num(total * 0.6) && Field(items[1].fields, "amount") == Num(total * 0.4);
    assert Field(items[0].fields, "percentage") == Num(60.0) && Field(items[1].fields, "percentage") == Num(40.0);
    assert SumOf(rest, "amount") == total * 0.4 && SumOf(rest, "percentage") == 40.0;
    assert FirstWithRole(items, "member") == Some(items[0].fields);
  }

  /** The commission a recorded sale stores: a fresh `Id`, the store's `date`,
      the property it refers to, rate 0.05, total 5% of the sale, status pending. */
  lemma RecordedSaleShape(store: seq<Record>, form: SaleForm, now: string)
    requires |store| > 0 && NumericIds(store)
    ensures var c := NewRecord(store, SaleFields(form), map["date" := Str(now)]);
            && c["Id"] == Num(NextId(store))
            && c["date"] == Str(now)
            && c["propertyId"] == Num(form.propertyId as real)
            && c["commissionRate"] == Num(SaleRate)
            && c["totalCommission"] == Num(form.saleAmount * SaleRate)
            && c["status"] == Str("pending")
  {
    var f := SaleFields(form);
    assert f["status"] == Str("pending") && f["totalCommission"] == Num(form.saleAmount * SaleRate);
    assert f["commissionRate"] == Num(SaleRate) && f["propertyId"] == Num(form.propertyId as real);
  }

  /** The stored split is the 60/40 one, so the member share that the earnings
      figures count for a recorded sale is 60% of its 5% commission. */
  lemma RecordedSaleMemberShare(store: seq<Record>, form: SaleForm, now: string)
    requires |store| > 0 && NumericIds(store)
    ensures var c := NewRecord(store, SaleFields(form), map["date" := Str(now)]);
            && c["distributions"] == Arr(SaleDistributions(form.saleAmount * SaleRate))
            && MemberEarning(c) == form.saleAmount * SaleRate * 0.6
  {
    var f := SaleFields(form);
    var c := NewRecord(store, f, map["date" := Str(now)]);
    var total := form.saleAmount * SaleRate;
    SaleDistributionsSum(total);
    assert f["distributions"] == Arr(SaleDistributions(total));
    assert Field(c, "distributions") == Field(map["distributions" := Arr(SaleDistributions(total))], "distributions");
  }

  /** `handleRecordSale`: create the commission, then mark the property sold,
      then append the commission to the page's list. The two store writes are
      not atomic: when the property is missing, the commission stays in the
      store but the page's list is left as it was. */
  method RecordSale(commissions: CommissionService.CommissionStore, properties: PropertyService.PropertyStore,
                    shown: seq<Record>, form: SaleForm, now: string)
    returns (shownAfter: seq<Record>, outcome: SaleOutcome)
    requires commissions.Valid() && |commissions.commissions| > 0
    requires properties.Valid()
    modifies commissions, properties
    ensures commissions.Valid() && properties.Valid()
    ensures var created := NewRecord(old(commissions.commissions), SaleFields(form), map["date" := Str(now)]);
            && commissions.commissions == old(commissions.commissions) + [created]
            && match FindIndex(old(properties.properties), form.propertyId as real)
               case None =>
                 properties.properties == old(properties.properties) && shownAfter == shown && outcome == Failed
               case Some(i) =>
                 && properties.properties == old(properties.properties)[i := Spread(old(properties.properties)[i], map["status" := Str("sold")])]
                 && shownAfter == shown + [created] && outcome == Recorded(created)
  {
    var created := commissions.Create(SaleFields(form), now);
    var updated := properties.Update(form.propertyId as real, map["status" := Str("sold")]);
    if updated.Err? {
      shownAfter, outcome := shown, Failed;
    } else {
      shownAfter, outcome := shown + [created], Recorded(created);
    }
  }
}
