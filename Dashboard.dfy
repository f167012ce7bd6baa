/** The dashboard: the six most recent listings and the five headline metrics,
    computed from one read of each store. */
module Dashboard {
  import opened Json
  import opened Seqs
  import opened Text

  const EarningRate := 0.05

  datatype Metrics = Metrics(
    totalProperties: nat,
    availableProperties: nat,
    totalSales: nat,
    totalEarnings: Option<real>,
    teamSize: nat)

  /** `propertiesData.slice(0, 6)`. */
  function Recent(properties: seq<Record>): (r: seq<Record>)
    ensures |r| == if |properties| < 6 then |properties| else 6
    ensures properties == r + properties[|r|..]
  {
    var n := if |properties| < 6 then |properties| else 6;
    assert properties == properties[..n] + properties[n..];
    properties[..n]
  }

  function HasStatus(status: string): Record -> bool {
    p => FieldIs(p, "status", Str(status))
  }

  /** `c.saleAmount` as `c.saleAmount * 0.05` reads it: coerced by `Number`;
      an absent field is `undefined`, which makes the product `NaN`. */
  function SaleAmount(c: Record): (amount: Option<real>)
    ensures "saleAmount" !in c ==> amount.None?
    ensures "saleAmount" in c && c["saleAmount"].Num? ==> amount == Some(c["saleAmount"].n)
  {
    if "saleAmount" in c then ToNumber(c["saleAmount"]) else None
  }

  /** `commissionsData.reduce((sum, c) => sum + c.saleAmount * 0.05, 0)`,
      with `None` for a `NaN` sum. */
  function Earnings(commissions: seq<Record>): Option<real> {
    if commissions == [] then Some(0.0)
    else
      var last := commissions[|commissions| - 1];
      match (Earnings(commissions[..|commissions| - 1]), SaleAmount(last))
      case (Some(sum), Some(amount)) => Some(sum + amount * EarningRate)
      case _ => None
  }

  /** The plain sum of the sale amounts. */
  function SalesTotal(commissions: seq<Record>): real
    requires forall i :: 0 <= i < |commissions| ==> SaleAmount(commissions[i]).Some?
  {
    if commissions == [] then 0.0
    else SalesTotal(commissions[1..]) + SaleAmount(commissions[0]).value
  }

  lemma {:induction false} SalesTotalAppend(commissions: seq<Record>, c: Record)
    requires forall i :: 0 <= i < |commissions| ==> SaleAmount(commissions[i]).Some?
    requires SaleAmount(c).Some?
    ensures SalesTotal(commissions + [c]) == SalesTotal(commissions) + SaleAmount(c).value
  {
    if commissions != [] {
      assert (commissions + [c])[1..] == commissions[1..] + [c];
      SalesTotalAppend(commissions[1..], c);
    }
  }

  predicate AllCoerce(commissions: seq<Record>) {
    forall i :: 0 <= i < |commissions| ==> SaleAmount(commissions[i]).Some?
  }

  lemma {:induction false} EarningsOfCoercible(commissions: seq<Record>)
    requires AllCoerce(commissions)
    ensures Earnings(commissions) == Some(EarningRate * SalesTotal(commissions))
  {
    if commissions != [] {
      var init := commissions[..|commissions| - 1];
      var last := commissions[|commissions| - 1];
      assert AllCoerce(init) by {
        forall i | 0 <= i < |init| ensures SaleAmount(init[i]).Some? {
          assert init[i] == commissions[i];
        }
      }
      assert SaleAmount(last).Some?;
      EarningsOfCoercible(init);
      var sum, amount := SalesTotal(init), SaleAmount(last).value;
      assert Earnings(commissions) == Some(EarningRate * sum + amount * EarningRate);
      SalesTotalAppend(init, last);
      assert commissions == init + [last];
      assert SalesTotal(commissions) == sum + amount;
    }
  }

  lemma {:induction false} EarningsOfUncoercible(commissions: seq<Record>, i: nat)
    requires i < |commissions| && SaleAmount(commissions[i]).None?
    ensures Earnings(commissions) == None
  {
    var init := commissions[..|commissions| - 1];
    if i < |init| {
      assert init[i] == commissions[i];
      EarningsOfUncoercible(init, i);
    }
  }

  /** The earnings card is 5% of all sales when every sale amount coerces to a
      number, and `NaN` as soon as one does not. */
  lemma EarningsAreRateOfSales(commissions: seq<Record>)
    ensures AllCoerce(commissions) ==> Earnings(commissions) == Some(EarningRate * SalesTotal(commissions))
    ensures (exists i :: 0 <= i < |commissions| && SaleAmount(commissions[i]).None?)
        ==> Earnings(commissions) == None
  {
    if AllCoerce(commissions) {
      EarningsOfCoercible(commissions);
    } else {
      var i :| 0 <= i < |commissions| && SaleAmount(commissions[i]).None?;
      EarningsOfUncoercible(commissions, i);
    }
  }

  /** `u.role !== "admin"`. */
  predicate OnTeam(u: Record) {
    !FieldIs(u, "role", Str("admin"))
  }

  /** `loadDashboardData`'s metrics: the card values, with the counts bounded
      by the lists they count. */
  function ComputeMetrics(properties: seq<Record>, users: seq<Record>, commissions: seq<Record>): (m: Metrics)
    ensures m.totalProperties == |properties|
    ensures m.availableProperties == Count(properties, HasStatus("available"))
    ensures m.totalSales == Count(properties, HasStatus("sold"))
    ensures m.totalEarnings == Earnings(commissions)
    ensures m.teamSize == Count(users, OnTeam)
    ensures m.availableProperties + m.totalSales <= m.totalProperties
    ensures m.teamSize <= |users|
  {
    CountDisjoint(properties, HasStatus("available"), HasStatus("sold"));
    Metrics(
      |properties|,
      Count(properties, HasStatus("available")),
      Count(properties, HasStatus("sold")),
      Earnings(commissions),
      Count(users, OnTeam))
  }

  /** `null * 0.05` is 0, `"100" * 0.05` is 5 and `true * 0.05` is 0.05. */
  lemma CoercedAmountsAddUp()
    ensures Earnings([map["saleAmount" := Null], map["saleAmount" := Str(" 100")],
                      map["saleAmount" := Bool(true)]]) == Some(5.05)
  {
    var c0, c1, c2 := map["saleAmount" := Null], map["saleAmount" := Str(" 100")], map["saleAmount" := Bool(true)];
    var cs := [c0, c1, c2];
    TrimPadded(" ", "100", "");
    assert " " + "100" + "" == " 100";
    assert DecimalValue("10") == 10 by {
      assert "10"[..1] == "1";
      assert "1"[..0] == "";
    }
    assert "100"[..2] == "10";
    assert SaleAmount(c1) == Some(100.0);
    assert cs[..2] == [c0, c1] && [c0, c1][..1] == [c0] && [c0][..0] == [];
    assert Earnings([c0]) == Some(0.0);
    assert Earnings([c0, c1]) == Some(5.0);
  }
}
