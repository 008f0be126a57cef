/** The dashboard's simulated hidden-fee scan: a fixed database of fee
    groups revealed in two waves while a progress counter climbs to 100,
    and the monthly impact of the revealed fees, each item converted from
    its billing frequency to a monthly amount. */
module FeeScanner {

  /** One fee of the database; `frequency` is free text, as in the source. */
  datatype FeeItem = FeeItem(name: string, amount: real, frequency: string, impact: string)

  datatype FeeGroup = FeeGroup(category: string, items: seq<FeeItem>)

  /** The database the scan reveals, in its display order. */
  const Database: seq<FeeGroup> := [
    FeeGroup("Bancaire", [
      FeeItem("Frais de tenue de compte", 3.5, "monthly", "medium"),
      FeeItem("Commission découvert", 8.0, "occasional", "high"),
      FeeItem("Frais carte bancaire", 45.0, "yearly", "medium"),
      FeeItem("Virements internationaux", 15.0, "occasional", "low")]),
    FeeGroup("Abonnements", [
      FeeItem("Netflix Premium (non utilisé)", 17.99, "monthly", "medium"),
      FeeItem("Spotify Family", 15.99, "monthly", "low"),
      FeeItem("Abonnement gym (non fréquenté)", 39.90, "monthly", "high"),
      FeeItem("Adobe Creative Cloud", 59.99, "monthly", "medium")]),
    FeeGroup("Automobile", [
      FeeItem("Assurance tous risques surdimensionnée", 95.0, "monthly", "high"),
      FeeItem("Péages autoroutes", 45.0, "monthly", "medium"),
      FeeItem("Stationnement non optimisé", 120.0, "monthly", "high")]),
    FeeGroup("Logement", [
      FeeItem("Assurance habitation premium", 25.0, "monthly", "medium"),
      FeeItem("Abonnements énergie multiples", 180.0, "monthly", "high"),
      FeeItem("Internet haut débit non utilisé", 49.99, "monthly", "medium")]),
    FeeGroup("Lifestyle", [
      FeeItem("Cafés quotidiens bureaux", 4.5, "daily", "high"),
      FeeItem("Livraisons repas récurrentes", 25.0, "weekly", "high"),
      FeeItem("Achats impulsifs supermarché", 35.0, "weekly", "medium")])
  ]

  // ---------------------------------------------------------------------
  // Monthly impact

  /** The factor that turns one billing period into a month: 30 days, 4
      weeks, a twelfth of a year, half an occasional charge; a monthly or
      unrecognised frequency is taken as it is. */
  function MonthlyFactor(frequency: string): (f: real)
    ensures f > 0.0
    ensures frequency !in {"daily", "weekly", "yearly", "occasional"} ==> f == 1.0
  {
    match frequency
    case "daily" => 30.0
    case "weekly" => 4.0
    case "yearly" => 1.0 / 12.0
    case "occasional" => 0.5
    case _ => 1.0
  }

  /** The monthly amount of one item, as the `switch` in the reduce computes
      it; the conversion keeps the amount's sign. */
  function MonthlyAmount(item: FeeItem): (r: real)
    ensures r > 0.0 <==> item.amount > 0.0
    ensures r == 0.0 <==> item.amount == 0.0
  {
    match item.frequency
    case "daily" => item.amount * 30.0
    case "weekly" => item.amount * 4.0
    case "yearly" => item.amount / 12.0
    case "occasional" => item.amount * 0.5
    case _ => item.amount
  }

  /** `calculateMonthlyImpact`: the converted amounts summed from the left. */
  function MonthlyImpact(items: seq<FeeItem>): real {
    if items == [] then 0.0 else MonthlyImpact(items[..|items| - 1]) + MonthlyAmount(items[|items| - 1])
  }

  /** `totalMonthlyFees`: the impacts of the revealed groups summed. */
  function TotalMonthlyFees(groups: seq<FeeGroup>): real {
    if groups == [] then 0.0 else TotalMonthlyFees(groups[..|groups| - 1]) + MonthlyImpact(groups[|groups| - 1].items)
  }

  /** Each conversion is a scaling by the frequency's positive factor. */
  lemma MonthlyAmountIsScaling(item: FeeItem)
    ensures MonthlyAmount(item) == item.amount * MonthlyFactor(item.frequency)
  {
  }

  /** The impact of a concatenation is the sum of the impacts. */
  lemma {:induction false} MonthlyImpactAppend(a: seq<FeeItem>, b: seq<FeeItem>)
    ensures MonthlyImpact(a + b) == MonthlyImpact(a) + MonthlyImpact(b)
    decreases |b|
  {
    if b == [] {
      assert a + b == a;
    } else {
      assert (a + b)[..|a + b| - 1] == a + b[..|b| - 1];
      MonthlyImpactAppend(a, b[..|b| - 1]);
    }
  }

  /** The total over a concatenation of group lists is the sum of the totals. */
  lemma {:induction false} TotalMonthlyFeesAppend(a: seq<FeeGroup>, b: seq<FeeGroup>)
    ensures TotalMonthlyFees(a + b) == TotalMonthlyFees(a) + TotalMonthlyFees(b)
    decreases |b|
  {
    if b == [] {
      assert a + b == a;
    } else {
      assert (a + b)[..|a + b| - 1] == a + b[..|b| - 1];
      TotalMonthlyFeesAppend(a, b[..|b| - 1]);
    }
  }

  predicate NonNegativeAmounts(items: seq<FeeItem>) {
    forall i :: 0 <= i < |items| ==> items[i].amount >= 0.0
  }

  /** Non-negative amounts give a non-negative impact. */
  lemma {:induction false} MonthlyImpactNonNegative(items: seq<FeeItem>)
    requires NonNegativeAmounts(items)
    ensures MonthlyImpact(items) >= 0.0
  {
    if items != [] {
      MonthlyImpactNonNegative(items[..|items| - 1]);
      MonthlyAmountIsScaling(items[|items| - 1]);
    }
  }

  /** Groups whose items all have non-negative amounts give a non-negative
      total. */
  lemma {:induction false} TotalMonthlyFeesNonNegative(groups: seq<FeeGroup>)
    requires forall g :: g in groups ==> NonNegativeAmounts(g.items)
    ensures TotalMonthlyFees(groups) >= 0.0
  {
    if groups != [] {
      var init := groups[..|groups| - 1];
      assert forall g :: g in init ==> g in groups;
      TotalMonthlyFeesNonNegative(init);
      MonthlyImpactNonNegative(groups[|groups| - 1].items);
    }
  }

  /** Raising the amount of one item never lowers the impact of its group. */
  lemma {:induction false} MonthlyImpactMonotone(items: seq<FeeItem>, i: int, x: real)
    requires 0 <= i < |items| && items[i].amount <= x
    ensures MonthlyImpact(items) <= MonthlyImpact(items[i := items[i].(amount := x)])
  {
    var raised := items[i := items[i].(amount := x)];
    var n := |items| - 1;
    if i == n {
      assert raised[..n] == items[..n];
      MonthlyAmountIsScaling(items[n]);
      MonthlyAmountIsScaling(raised[n]);
      assert items[n].amount * MonthlyFactor(items[n].frequency) <= x * MonthlyFactor(items[n].frequency);
    } else {
      MonthlyImpactMonotone(items[..n], i, x);
      assert raised[..n] == items[..n][i := items[i].(amount := x)];
      assert raised[n] == items[n];
    }
  }

  lemma ImpactOfThree(a: FeeItem, b: FeeItem, c: FeeItem)
    ensures MonthlyImpact([a, b, c]) == MonthlyAmount(a) + MonthlyAmount(b) + MonthlyAmount(c)
  {
    assert [a][..0] == [];
    assert MonthlyImpact([a]) == MonthlyAmount(a);
    assert [a, b][..1] == [a];
    assert MonthlyImpact([a, b]) == MonthlyAmount(a) + MonthlyAmount(b);
    assert [a, b, c][..2] == [a, b];
  }

  lemma ImpactOfFour(a: FeeItem, b: FeeItem, c: FeeItem, d: FeeItem)
    ensures MonthlyImpact([a, b, c, d]) == MonthlyAmount(a) + MonthlyAmount(b) + MonthlyAmount(c) + MonthlyAmount(d)
  {
    assert [a, b, c, d][..3] == [a, b, c];
    ImpactOfThree(a, b, c);
  }

  /** The database's monthly total, group by group: 18.75, 133.87, 260,
      254.99 and 375, so 1042.61 in all. */
  lemma DatabaseTotal()
    ensures MonthlyImpact(Database[0].items) == 18.75
    ensures MonthlyImpact(Database[4].items) == 375.0
    ensures TotalMonthlyFees(Database) == 1042.61
  {
    var g := Database;
    var i0, i1, i2, i3, i4 := g[0].items, g[1].items, g[2].items, g[3].items, g[4].items;
    ImpactOfFour(i0[0], i0[1], i0[2], i0[3]);
    assert i0 == [i0[0], i0[1], i0[2], i0[3]];
    ImpactOfFour(i1[0], i1[1], i1[2], i1[3]);
    assert i1 == [i1[0], i1[1], i1[2], i1[3]];
    ImpactOfThree(i2[0], i2[1], i2[2]);
    assert i2 == [i2[0], i2[1], i2[2]];
    ImpactOfThree(i3[0], i3[1], i3[2]);
    assert i3 == [i3[0], i3[1], i3[2]];
    ImpactOfThree(i4[0], i4[1], i4[2]);
    assert i4 == [i4[0], i4[1], i4[2]];
    var t1 := TotalMonthlyFees(g[..1]);
    var h := g[..1];
    assert |h| == 1 && h[..0] == [] && h[0].items == i0;
    assert TotalMonthlyFees(h[..0]) == 0.0;
    assert TotalMonthlyFees(h) == TotalMonthlyFees(h[..0]) + MonthlyImpact(h[0].items);
    assert t1 == 18.75;
    assert g[..2][..1] == g[..1];
    assert TotalMonthlyFees(g[..2]) == t1 + 133.87;
    assert g[..3][..2] == g[..2];
    assert TotalMonthlyFees(g[..3]) == t1 + 133.87 + 260.0;
    assert g[..4][..3] == g[..3];
    assert TotalMonthlyFees(g[..4]) == t1 + 133.87 + 260.0 + 254.99;
    assert g[..4] == g[..|g| - 1];
  }

  // ---------------------------------------------------------------------
  // The scan

  /** The component's state: whether a scan runs, its progress, and the
      groups revealed so far. */
  class Scanner {
    var isScanning: bool
    var scanProgress: int
    var detectedFees: seq<FeeGroup>

    constructor ()
      ensures !isScanning && scanProgress == 0 && detectedFees == []
    {
      isScanning, scanProgress, detectedFees := false, 0, [];
    }

    /** What the view shows after tick `k` of the scan: the progress and
        the number of groups revealed. */
    static function Tick(k: nat): (int, nat) {
      var p := 10 * k;
      (p, if p < 50 then 0 else if p < 80 then 2 else |Database|)
    }

    /** `startScan` without its delays: reset, then for progress 0, 10, …,
        100 set the progress, reveal the first two groups at 50 and the
        other three at 80, and stop. `ticks` records what each tick shows. */
    method StartScan() returns (ticks: seq<(int, nat)>)
      modifies this
      ensures !isScanning && scanProgress == 100
      ensures detectedFees == Database
      ensures |ticks| == 11 && forall k :: 0 <= k < 11 ==> ticks[k] == Tick(k)
    {
      isScanning := true;
      scanProgress := 0;
      detectedFees := [];
      ticks := [];
      var i := 0;
      while i <= 100
        invariant 0 <= i <= 110 && i % 10 == 0
        invariant |ticks| == i / 10
        invariant forall k :: 0 <= k < |ticks| ==> ticks[k] == Tick(k)
        invariant detectedFees == if i <= 50 then [] else if i <= 80 then Database[..2] else Database
        invariant i > 0 ==> scanProgress == i - 10
      {
        scanProgress := i;
        if i == 50 {
          detectedFees := detectedFees + Database[..2];
        }
        if i == 80 {
          detectedFees := detectedFees + Database[2..];
        }
        ticks := ticks + [(scanProgress, |detectedFees|)];
        i := i + 10;
      }
      isScanning := false;
    }
  }
}
