/** Campaign metrics over exact rationals, overall and per platform. */
module Metrics {
  import opened Wrappers
  import opened Sorting

  datatype Campaign = Campaign(platform: string, impressions: nat, clicks: nat, conversions: nat, spend: real, revenue: real)

  /** What an accepted campaign row satisfies. */
  predicate ValidRow(c: Campaign) {
    c.conversions <= c.clicks <= c.impressions && c.spend >= 0.0 && c.revenue >= 0.0
  }

  predicate ValidRows(campaigns: seq<Campaign>) { forall c :: c in campaigns ==> ValidRow(c) }

  datatype Totals = Totals(impressions: nat, clicks: nat, conversions: nat, spend: real, revenue: real)

  datatype Metrics = Metrics(totals: Totals, ctr: real, conversionRate: real, cpa: Option<real>, roas: Option<real>)

  const ZERO := Totals(0, 0, 0, 0.0, 0.0)

  function Plus(a: Totals, b: Totals): Totals {
    Totals(a.impressions + b.impressions, a.clicks + b.clicks, a.conversions + b.conversions, a.spend + b.spend, a.revenue + b.revenue)
  }

  function RowTotals(c: Campaign): Totals { Totals(c.impressions, c.clicks, c.conversions, c.spend, c.revenue) }

  function TotalsOf(campaigns: seq<Campaign>): Totals {
    if campaigns == [] then ZERO
    else
      Plus(TotalsOf(campaigns[..|campaigns| - 1]), RowTotals(campaigns[|campaigns| - 1]))
  }

  function Calculate(campaigns: seq<Campaign>): Metrics {
    var t := TotalsOf(campaigns);
    Metrics(t,
            if t.impressions != 0 then t.clicks as real / t.impressions as real else 0.0,
            if t.clicks != 0 then t.conversions as real / t.clicks as real else 0.0,
            if t.conversions != 0 then Some(t.spend / t.conversions as real) else None,
            if t.spend != 0.0 then Some(t.revenue / t.spend) else None)
  }

  /** The sum of a column, over the rows in any order. */
  function Sum(campaigns: seq<Campaign>, column: Campaign -> real): real {
    if campaigns == [] then 0.0 else column(campaigns[0]) + Sum(campaigns[1..], column)
  }

  lemma {:induction false} SumOfInit(campaigns: seq<Campaign>, column: Campaign -> real)
    requires campaigns != []
    ensures Sum(campaigns, column) == Sum(campaigns[..|campaigns| - 1], column) + column(campaigns[|campaigns| - 1])
  {
    if |campaigns| > 1 {
      SumOfInit(campaigns[1..], column);
      assert campaigns[1..][..|campaigns| - 2] == campaigns[..|campaigns| - 1][1..];
    }
  }

  function Impressions(c: Campaign): real { c.impressions as real }
  function Clicks(c: Campaign): real { c.clicks as real }
  function Conversions(c: Campaign): real { c.conversions as real }
  function Spend(c: Campaign): real { c.spend }
  function Revenue(c: Campaign): real { c.revenue }

  /** Every total is the sum of its own column. */
  lemma {:induction false} TotalsAreSums(campaigns: seq<Campaign>)
    ensures var t := TotalsOf(campaigns);
      && t.impressions as real == Sum(campaigns, Impressions) && t.clicks as real == Sum(campaigns, Clicks)
      && t.conversions as real == Sum(campaigns, Conversions)
      && t.spend == Sum(campaigns, Spend) && t.revenue == Sum(campaigns, Revenue)
  {
    if campaigns != [] {
      TotalsAreSums(campaigns[..|campaigns| - 1]);
      SumOfInit(campaigns, Impressions);
      SumOfInit(campaigns, Clicks);
      SumOfInit(campaigns, Conversions);
      SumOfInit(campaigns, Spend);
      SumOfInit(campaigns, Revenue);
    }
  }

  /** q is the quotient of n and d. */
  predicate Quotient(q: real, n: real, d: real) { d != 0.0 && q * d == n }

  lemma DivisionGivesQuotient(n: real, d: real)
    requires d != 0.0
    ensures Quotient(n / d, n, d)
  {
  }

  /** Each rate is its own numerator over its own denominator; without one, 0. */
  lemma RatesExact(campaigns: seq<Campaign>)
    ensures var m, t := Calculate(campaigns), TotalsOf(campaigns);
      && m.totals == t
      && (if t.impressions == 0 then m.ctr == 0.0 else Quotient(m.ctr, t.clicks as real, t.impressions as real))
      && (if t.clicks == 0 then m.conversionRate == 0.0 else Quotient(m.conversionRate, t.conversions as real, t.clicks as real))
  {
    var t := TotalsOf(campaigns);
    if t.impressions != 0 { DivisionGivesQuotient(t.clicks as real, t.impressions as real); }
    if t.clicks != 0 { DivisionGivesQuotient(t.conversions as real, t.clicks as real); }
  }

  /** So are cost per conversion and return on spend; without a denominator, absent. */
  lemma MoneyRatesExact(campaigns: seq<Campaign>)
    ensures var m, t := Calculate(campaigns), TotalsOf(campaigns);
      && (if t.conversions == 0 then m.cpa.None? else m.cpa.Some? && Quotient(m.cpa.value, t.spend, t.conversions as real))
      && (if t.spend == 0.0 then m.roas.None? else m.roas.Some? && Quotient(m.roas.value, t.revenue, t.spend))
  {
    var t := TotalsOf(campaigns);
    if t.conversions != 0 { DivisionGivesQuotient(t.spend, t.conversions as real); }
    if t.spend != 0.0 { DivisionGivesQuotient(t.revenue, t.spend); }
  }

  predicate ValidTotals(t: Totals) {
    t.conversions <= t.clicks <= t.impressions && t.spend >= 0.0 && t.revenue >= 0.0
  }

  lemma {:induction false} TotalsKeepTheFunnel(campaigns: seq<Campaign>)
    requires ValidRows(campaigns)
    ensures ValidTotals(TotalsOf(campaigns))
  {
    if campaigns != [] {
      assert campaigns[|campaigns| - 1] in campaigns;
      TotalsKeepTheFunnel(campaigns[..|campaigns| - 1]);
    }
  }

  lemma RatioWithinOne(part: real, whole: real)
    requires 0.0 <= part <= whole && whole > 0.0
    ensures 0.0 <= part / whole <= 1.0
  {
  }

  /** Rates of accepted rows are proportions, for every list of rows, the empty one included. */
  lemma RatesAreProportions(campaigns: seq<Campaign>)
    requires ValidRows(campaigns)
    ensures 0.0 <= Calculate(campaigns).ctr <= 1.0 && 0.0 <= Calculate(campaigns).conversionRate <= 1.0
  {
    TotalsKeepTheFunnel(campaigns);
    var t := TotalsOf(campaigns);
    if t.impressions != 0 { RatioWithinOne(t.clicks as real, t.impressions as real); }
    if t.clicks != 0 { RatioWithinOne(t.conversions as real, t.clicks as real); }
  }

  // ----- grouping -----

  function OfPlatform(campaigns: seq<Campaign>, platform: string): seq<Campaign> {
    if campaigns == [] then []
    else
      var init, c := OfPlatform(campaigns[..|campaigns| - 1], platform), campaigns[|campaigns| - 1];
      if c.platform == platform then init + [c] else init
  }

  lemma {:induction false} OfPlatformMembers(campaigns: seq<Campaign>, platform: string)
    ensures forall c :: c in OfPlatform(campaigns, platform) <==> c in campaigns && c.platform == platform
  {
    if campaigns != [] {
      OfPlatformMembers(campaigns[..|campaigns| - 1], platform);
      assert campaigns == campaigns[..|campaigns| - 1] + [campaigns[|campaigns| - 1]];
    }
  }

  function GroupTotals(campaigns: seq<Campaign>, platforms: seq<string>): (r: seq<Totals>)
    ensures |r| == |platforms| && forall i :: 0 <= i < |r| ==> r[i] == TotalsOf(OfPlatform(campaigns, platforms[i]))
  {
    seq(|platforms|, i requires 0 <= i < |platforms| => TotalsOf(OfPlatform(campaigns, platforms[i])))
  }

  function SumTotals(groups: seq<Totals>): Totals {
    if groups == [] then ZERO else Plus(groups[0], SumTotals(groups[1..]))
  }

  predicate Lists(platforms: seq<string>, campaigns: seq<Campaign>) {
    && Distinct(platforms)
    && (forall c :: c in campaigns ==> c.platform in platforms)
  }

  /** Changing one group by one row changes the sum of the groups by that row. */
  lemma {:induction false} AddToOneGroup(before: seq<Totals>, after: seq<Totals>, k: nat, row: Totals)
    requires |before| == |after| && k < |before| && after[k] == Plus(before[k], row)
    requires forall i :: 0 <= i < |before| && i != k ==> after[i] == before[i]
    ensures SumTotals(after) == Plus(SumTotals(before), row)
  {
    if k == 0 {
      assert before[1..] == after[1..];
    } else {
      AddToOneGroup(before[1..], after[1..], k - 1, row);
    }
  }

  lemma NoRows(platform: string)
    ensures TotalsOf(OfPlatform([], platform)) == ZERO
  {
  }

  lemma {:induction false} NoRowsSumToZero(groups: seq<Totals>)
    requires forall i :: 0 <= i < |groups| ==> groups[i] == ZERO
    ensures SumTotals(groups) == ZERO
  {
    if groups != [] {
      var rest := groups[1..];
      assert forall i :: 0 <= i < |rest| ==> rest[i] == groups[i + 1];
      NoRowsSumToZero(rest);
      assert groups[0] == ZERO;
      assert Plus(ZERO, ZERO) == ZERO;
    }
  }

  /** One more row changes the totals of its own platform, and of no other. */
  lemma OneMoreRow(campaigns: seq<Campaign>, platform: string)
    requires campaigns != []
    ensures var init, c := campaigns[..|campaigns| - 1], campaigns[|campaigns| - 1];
      TotalsOf(OfPlatform(campaigns, platform)) ==
      if c.platform == platform then Plus(TotalsOf(OfPlatform(init, platform)), RowTotals(c)) else TotalsOf(OfPlatform(init, platform))
  {
    var init, c := campaigns[..|campaigns| - 1], campaigns[|campaigns| - 1];
    var before := OfPlatform(init, platform);
    assert (before + [c])[..|before|] == before;
  }

  /** Grouping loses nothing and counts nothing twice. */
  lemma {:induction false} GroupsAddUp(campaigns: seq<Campaign>, platforms: seq<string>)
    requires Lists(platforms, campaigns)
    ensures SumTotals(GroupTotals(campaigns, platforms)) == TotalsOf(campaigns)
  {
    var after := GroupTotals(campaigns, platforms);
    if campaigns == [] {
      forall i | 0 <= i < |platforms| ensures after[i] == ZERO { NoRows(platforms[i]); }
      NoRowsSumToZero(after);
    } else {
      var init, c := campaigns[..|campaigns| - 1], campaigns[|campaigns| - 1];
      var before := GroupTotals(init, platforms);
      assert c in campaigns;
      GroupsAddUp(init, platforms);
      var k :| 0 <= k < |platforms| && platforms[k] == c.platform;
      forall i | 0 <= i < |platforms| ensures after[i] == if i == k then Plus(before[i], RowTotals(c)) else before[i] {
        OneMoreRow(campaigns, platforms[i]);
      }
      AddToOneGroup(before, after, k, RowTotals(c));
    }
  }

  // ----- the mediant bound -----

  datatype Ratio = Ratio(num: real, den: real)

  function Nums(gs: seq<Ratio>): real { if gs == [] then 0.0 else gs[0].num + Nums(gs[1..]) }

  function Dens(gs: seq<Ratio>): real { if gs == [] then 0.0 else gs[0].den + Dens(gs[1..]) }

  predicate Below(g: Ratio, q: real) { g.den > 0.0 && g.num / g.den <= q }

  predicate Above(g: Ratio, q: real) { g.den > 0.0 && g.num / g.den >= q }

  lemma DivisionIsProduct(g: Ratio, q: real)
    requires g.den > 0.0
    ensures g.num / g.den <= q <==> g.num <= q * g.den
    ensures g.num / g.den >= q <==> g.num >= q * g.den
  {
    var r := g.num / g.den;
    assert r * g.den == g.num;
  }

  /** By how much a group is above the ratio q, in units of the numerator. */
  function Excess(g: Ratio, q: real): real { g.num - q * g.den }

  function TotalExcess(gs: seq<Ratio>, q: real): real {
    if gs == [] then 0.0 else Excess(gs[0], q) + TotalExcess(gs[1..], q)
  }

  lemma {:induction false} TotalExcessIsOfTotals(gs: seq<Ratio>, q: real)
    ensures TotalExcess(gs, q) == Nums(gs) - q * Dens(gs)
  {
    if gs != [] {
      TotalExcessIsOfTotals(gs[1..], q);
      Distribute(q, gs[0].den, Dens(gs[1..]));
    }
  }

  lemma Distribute(q: real, a: real, b: real)
    ensures q * (a + b) == q * a + q * b
  {
  }

  /** Not at or below q: strictly above it, or without a denominator. */
  lemma NotBelow(g: Ratio, q: real)
    requires g.num >= 0.0 && g.den >= 0.0 && !Below(g, q)
    ensures Excess(g, q) >= 0.0 && (g.den > 0.0 ==> Excess(g, q) > 0.0)
  {
    if g.den > 0.0 { DivisionIsProduct(g, q); }
  }

  lemma {:induction false} AllAboveSum(gs: seq<Ratio>, q: real)
    requires forall g :: g in gs ==> g.den >= 0.0 && Excess(g, q) >= 0.0 && (g.den > 0.0 ==> Excess(g, q) > 0.0)
    ensures TotalExcess(gs, q) >= 0.0 && (Dens(gs) > 0.0 ==> TotalExcess(gs, q) > 0.0)
  {
    if gs != [] {
      assert gs[0] in gs;
      AllAboveSum(gs[1..], q);
    }
  }

  /** Some group is at or below the overall ratio. */
  lemma SomeGroupIsBelow(gs: seq<Ratio>)
    requires forall g :: g in gs ==> g.num >= 0.0 && g.den >= 0.0
    requires Dens(gs) > 0.0
    ensures exists g :: g in gs && Below(g, Nums(gs) / Dens(gs))
  {
    var q := Nums(gs) / Dens(gs);
    TotalExcessIsOfTotals(gs, q);
    assert TotalExcess(gs, q) == 0.0;
    if forall g :: g in gs ==> !Below(g, q) {
      forall g | g in gs ensures Excess(g, q) >= 0.0 && (g.den > 0.0 ==> Excess(g, q) > 0.0) { NotBelow(g, q); }
      AllAboveSum(gs, q);
    }
  }

  /** The numerators of the groups that have no denominator. */
  function Alone(gs: seq<Ratio>): real {
    if gs == [] then 0.0 else (if gs[0].den == 0.0 then gs[0].num else 0.0) + Alone(gs[1..])
  }

  /** How much the numerators of the other groups fall short of the ratio m. */
  function Slack(gs: seq<Ratio>, m: real): real {
    if gs == [] then 0.0 else (if gs[0].den == 0.0 then 0.0 else m * gs[0].den - gs[0].num) + Slack(gs[1..], m)
  }

  predicate Attains(g: Ratio, m: real) { g.den > 0.0 && g.num / g.den == m }

  /** m is the highest ratio of any group that has one. */
  predicate Highest(gs: seq<Ratio>, m: real) {
    && (exists g :: g in gs && Attains(g, m))
    && (forall g :: g in gs && g.den > 0.0 ==> Below(g, m))
  }

  lemma {:induction false} SomeHighest(gs: seq<Ratio>) returns (m: real)
    requires forall g :: g in gs ==> g.den >= 0.0
    requires Dens(gs) > 0.0
    ensures Highest(gs, m)
  {
    var g, rest := gs[0], gs[1..];
    assert g in gs && gs == [g] + rest;
    if g.den > 0.0 {
      DenomsAreNotNegative(rest);
      m := g.num / g.den;
      assert Attains(g, m);
      if Dens(rest) > 0.0 {
        var n := SomeHighest(rest);
        if n > m {
          var h :| h in rest && Attains(h, n);
          assert h in gs;
          m := n;
        }
      }
    } else {
      m := SomeHighest(rest);
      var h :| h in rest && Attains(h, m);
      assert h in gs;
    }
  }

  lemma {:induction false} DenomsAreNotNegative(gs: seq<Ratio>)
    requires forall g :: g in gs ==> g.den >= 0.0
    ensures Dens(gs) >= 0.0
    ensures Dens(gs) == 0.0 ==> forall g :: g in gs ==> g.den == 0.0
  {
    if gs != [] {
      assert gs[0] in gs && gs == [gs[0]] + gs[1..];
      DenomsAreNotNegative(gs[1..]);
    }
  }

  lemma {:induction false} ExcessIsAloneMinusSlack(gs: seq<Ratio>, m: real)
    ensures TotalExcess(gs, m) == Alone(gs) - Slack(gs, m)
  {
    if gs != [] {
      ExcessIsAloneMinusSlack(gs[1..], m);
      if gs[0].den == 0.0 { assert m * gs[0].den == 0.0; }
    }
  }

  /**
   Some group is at or above the overall ratio exactly when the numerators that stand alone are made up
   for by what the other groups fall short of the highest ratio.
   */
  lemma SomeGroupIsAboveIff(gs: seq<Ratio>, m: real)
    requires Dens(gs) > 0.0 && Highest(gs, m)
    ensures (exists g :: g in gs && Above(g, Nums(gs) / Dens(gs))) <==> Alone(gs) <= Slack(gs, m)
  {
    var q := Nums(gs) / Dens(gs);
    HighestExceedsIff(gs, m, Nums(gs), Dens(gs));
    var top :| top in gs && Attains(top, m);
    if m >= q { assert Above(top, q); }
    if g :| g in gs && Above(g, q) { assert Below(g, m); }
  }

  lemma HighestExceedsIff(gs: seq<Ratio>, m: real, n: real, d: real)
    requires n == Nums(gs) && d == Dens(gs) && d > 0.0
    ensures m >= n / d <==> Alone(gs) <= Slack(gs, m)
  {
    TotalExcessIsOfTotals(gs, m);
    ExcessIsAloneMinusSlack(gs, m);
    QuotientAtMost(n, d, m, Alone(gs), Slack(gs, m));
  }

  lemma QuotientAtMost(n: real, d: real, m: real, alone: real, slack: real)
    requires d > 0.0 && n - m * d == alone - slack
    ensures m >= n / d <==> alone <= slack
  {
    DivisionIsProduct(Ratio(n, d), m);
  }

  /** Without numerators that stand alone the condition always holds. */
  lemma {:induction false} NothingAlone(gs: seq<Ratio>, m: real)
    requires forall g :: g in gs ==> if g.den == 0.0 then g.num == 0.0 else Below(g, m)
    ensures Alone(gs) == 0.0 && Slack(gs, m) >= 0.0
  {
    if gs != [] {
      assert gs[0] in gs;
      NothingAlone(gs[1..], m);
      if gs[0].den != 0.0 { DivisionIsProduct(gs[0], m); }
    }
  }

  datatype Rate = Ctr | ConversionRate | Cpa | Roas

  function RatioOf(rate: Rate, t: Totals): Ratio {
    match rate
    case Ctr => Ratio(t.clicks as real, t.impressions as real)
    case ConversionRate => Ratio(t.conversions as real, t.clicks as real)
    case Cpa => Ratio(t.spend, t.conversions as real)
    case Roas => Ratio(t.revenue, t.spend)
  }

  /** The rate as `Calculate` reports it; None where it is undefined or reported as 0 for want of a denominator. */
  function Reported(rate: Rate, campaigns: seq<Campaign>): Option<real> {
    var m := Calculate(campaigns);
    match rate
    case Ctr => if m.totals.impressions == 0 then None else Some(m.ctr)
    case ConversionRate => if m.totals.clicks == 0 then None else Some(m.conversionRate)
    case Cpa => m.cpa
    case Roas => m.roas
  }

  lemma {:induction false} RatiosAddUp(rate: Rate, groups: seq<Totals>)
    ensures var gs := seq(|groups|, i requires 0 <= i < |groups| => RatioOf(rate, groups[i]));
      Nums(gs) == RatioOf(rate, SumTotals(groups)).num && Dens(gs) == RatioOf(rate, SumTotals(groups)).den
  {
    var gs := seq(|groups|, i requires 0 <= i < |groups| => RatioOf(rate, groups[i]));
    if groups != [] {
      RatiosAddUp(rate, groups[1..]);
      assert gs[1..] == seq(|groups[1..]|, i requires 0 <= i < |groups[1..]| => RatioOf(rate, groups[1..][i]));
    }
  }

  predicate AtMost(rate: Rate, campaigns: seq<Campaign>, platform: string, q: real) {
    var r := Reported(rate, OfPlatform(campaigns, platform));
    r.Some? && r.value <= q
  }

  predicate AtLeast(rate: Rate, campaigns: seq<Campaign>, platform: string, q: real) {
    var r := Reported(rate, OfPlatform(campaigns, platform));
    r.Some? && r.value >= q
  }

  /** m is the highest rate that any of the platforms reports. */
  predicate HighestReported(rate: Rate, campaigns: seq<Campaign>, platforms: seq<string>, m: real) {
    && (exists p :: p in platforms && Reported(rate, OfPlatform(campaigns, p)) == Some(m))
    && (forall p :: p in platforms && Reported(rate, OfPlatform(campaigns, p)).Some? ==> AtMost(rate, campaigns, p, m))
  }

  lemma ReportedIsRatio(rate: Rate, campaigns: seq<Campaign>)
    requires ValidRows(campaigns)
    ensures var g := RatioOf(rate, TotalsOf(campaigns));
      && g.num >= 0.0 && g.den >= 0.0
      && (rate.Ctr? || rate.ConversionRate? ==> g.num <= g.den)
      && Reported(rate, campaigns) == if g.den > 0.0 then Some(g.num / g.den) else None
  {
    TotalsKeepTheFunnel(campaigns);
  }

  function GroupRatios(rate: Rate, campaigns: seq<Campaign>, platforms: seq<string>): (gs: seq<Ratio>)
    ensures |gs| == |platforms|
    ensures forall i :: 0 <= i < |gs| ==> gs[i] == GroupRatio(rate, campaigns, platforms[i])
  {
    var groups := GroupTotals(campaigns, platforms);
    seq(|groups|, i requires 0 <= i < |groups| => RatioOf(rate, groups[i]))
  }

  lemma RatioOfPlatform(rate: Rate, campaigns: seq<Campaign>, platform: string)
    requires ValidRows(campaigns)
    ensures var g, r := GroupRatio(rate, campaigns, platform), Reported(rate, OfPlatform(campaigns, platform));
      && g.num >= 0.0 && g.den >= 0.0
      && (rate.Ctr? || rate.ConversionRate? ==> g.num <= g.den)
      && r == if g.den > 0.0 then Some(g.num / g.den) else None
  {
    OfPlatformMembers(campaigns, platform);
    ReportedIsRatio(rate, OfPlatform(campaigns, platform));
  }

  lemma GroupRatiosAddUp(rate: Rate, campaigns: seq<Campaign>, platforms: seq<string>)
    requires ValidRows(campaigns) && Lists(platforms, campaigns)
    ensures var gs := GroupRatios(rate, campaigns, platforms);
      && Nums(gs) == RatioOf(rate, TotalsOf(campaigns)).num && Dens(gs) == RatioOf(rate, TotalsOf(campaigns)).den
      && forall g :: g in gs ==> g.num >= 0.0 && g.den >= 0.0
  {
    GroupsAddUp(campaigns, platforms);
    RatiosAddUp(rate, GroupTotals(campaigns, platforms));
    forall g | g in GroupRatios(rate, campaigns, platforms) ensures g.num >= 0.0 && g.den >= 0.0 {
      var i :| 0 <= i < |platforms| && GroupRatios(rate, campaigns, platforms)[i] == g;
      RatioOfPlatform(rate, campaigns, platforms[i]);
    }
  }

  function GroupRatio(rate: Rate, campaigns: seq<Campaign>, platform: string): Ratio {
    RatioOf(rate, TotalsOf(OfPlatform(campaigns, platform)))
  }

  lemma GroupRatioMembers(rate: Rate, campaigns: seq<Campaign>, platforms: seq<string>)
    ensures var gs := GroupRatios(rate, campaigns, platforms);
      && (forall p :: p in platforms ==> GroupRatio(rate, campaigns, p) in gs)
      && (forall g :: g in gs ==> exists p :: p in platforms && GroupRatio(rate, campaigns, p) == g)
  {
    var gs := GroupRatios(rate, campaigns, platforms);
    forall p | p in platforms ensures GroupRatio(rate, campaigns, p) in gs {
      var i :| 0 <= i < |platforms| && platforms[i] == p;
      assert gs[i] in gs;
    }
    forall g | g in gs ensures exists p :: p in platforms && GroupRatio(rate, campaigns, p) == g {
      var i :| 0 <= i < |gs| && gs[i] == g;
      assert GroupRatio(rate, campaigns, platforms[i]) == g;
    }
  }

  lemma RatioIsReport(rate: Rate, campaigns: seq<Campaign>, platform: string, q: real)
    requires ValidRows(campaigns)
    ensures var g, r := GroupRatio(rate, campaigns, platform), Reported(rate, OfPlatform(campaigns, platform));
      && (Below(g, q) <==> AtMost(rate, campaigns, platform, q))
      && (Above(g, q) <==> AtLeast(rate, campaigns, platform, q))
      && (Attains(g, q) <==> r == Some(q))
      && (g.den > 0.0 <==> r.Some?)
  {
    RatioOfPlatform(rate, campaigns, platform);
  }

  /** The groups' ratios are what the platforms report. */
  lemma RatiosAreReports(rate: Rate, campaigns: seq<Campaign>, platforms: seq<string>, q: real)
    requires ValidRows(campaigns)
    ensures var gs := GroupRatios(rate, campaigns, platforms);
      && ((exists g :: g in gs && Below(g, q)) <==> exists p :: p in platforms && AtMost(rate, campaigns, p, q))
      && ((exists g :: g in gs && Above(g, q)) <==> exists p :: p in platforms && AtLeast(rate, campaigns, p, q))
      && (Highest(gs, q) <==> HighestReported(rate, campaigns, platforms, q))
  {
    GroupRatioMembers(rate, campaigns, platforms);
    forall p | p in platforms
      ensures var g, r := GroupRatio(rate, campaigns, p), Reported(rate, OfPlatform(campaigns, p));
        && (Below(g, q) <==> AtMost(rate, campaigns, p, q)) && (Above(g, q) <==> AtLeast(rate, campaigns, p, q))
        && (Attains(g, q) <==> r == Some(q)) && (g.den > 0.0 <==> r.Some?)
    {
      RatioIsReport(rate, campaigns, p, q);
    }
  }

  /**
   Whenever an overall rate is reported, some platform reports one at most as high.  Some platform reports
   one at least as high exactly when the numerators of the platforms that report none, such as the spend of
   platforms without conversions, are made up for by what the others fall short of the highest rate.
   */
  lemma OverallIsBetweenPlatforms(rate: Rate, campaigns: seq<Campaign>, platforms: seq<string>) returns (m: real)
    requires ValidRows(campaigns) && Lists(platforms, campaigns) && Reported(rate, campaigns).Some?
    ensures exists p :: p in platforms && AtMost(rate, campaigns, p, Reported(rate, campaigns).value)
    ensures HighestReported(rate, campaigns, platforms, m)
    ensures var gs := GroupRatios(rate, campaigns, platforms);
      (exists p :: p in platforms && AtLeast(rate, campaigns, p, Reported(rate, campaigns).value)) <==> Alone(gs) <= Slack(gs, m)
  {
    var gs, q := GroupRatios(rate, campaigns, platforms), Reported(rate, campaigns).value;
    GroupRatiosAddUp(rate, campaigns, platforms);
    ReportedIsRatio(rate, campaigns);
    SomeGroupIsBelow(gs);
    RatiosAreReports(rate, campaigns, platforms, q);
    m := SomeHighest(gs);
    RatiosAreReports(rate, campaigns, platforms, m);
    SomeGroupIsAboveIff(gs, m);
  }

  /** Click-through and conversion rates have no numerator without a denominator, hence no exception. */
  lemma ProportionsAreBetweenPlatforms(rate: Rate, campaigns: seq<Campaign>, platforms: seq<string>)
    requires ValidRows(campaigns) && Lists(platforms, campaigns) && Reported(rate, campaigns).Some?
    requires rate.Ctr? || rate.ConversionRate?
    ensures exists p :: p in platforms && AtMost(rate, campaigns, p, Reported(rate, campaigns).value)
    ensures exists p :: p in platforms && AtLeast(rate, campaigns, p, Reported(rate, campaigns).value)
  {
    var m := OverallIsBetweenPlatforms(rate, campaigns, platforms);
    var gs := GroupRatios(rate, campaigns, platforms);
    RatiosAreReports(rate, campaigns, platforms, m);
    forall g | g in gs ensures if g.den == 0.0 then g.num == 0.0 else Below(g, m) {
      var i :| 0 <= i < |gs| && gs[i] == g;
      RatioOfPlatform(rate, campaigns, platforms[i]);
    }
    NothingAlone(gs, m);
  }

  lemma OneRow(c: Campaign, platform: string)
    ensures OfPlatform([c], platform) == if c.platform == platform then [c] else []
    ensures TotalsOf([c]) == RowTotals(c)
  {
    assert [c][..0] == [];
  }

  /** The exception is real: a platform that only costs lifts the overall CPA above every platform's. */
  lemma CpaMayExceedEveryPlatform()
    ensures var campaigns := [Campaign("a", 1, 1, 1, 2.0, 0.0), Campaign("b", 0, 0, 0, 3.0, 0.0)];
      && ValidRows(campaigns) && Lists(["a", "b"], campaigns)
      && Reported(Cpa, campaigns) == Some(5.0)
      && Reported(Cpa, OfPlatform(campaigns, "a")) == Some(2.0) && Reported(Cpa, OfPlatform(campaigns, "b")) == None
  {
    var a, b := Campaign("a", 1, 1, 1, 2.0, 0.0), Campaign("b", 0, 0, 0, 3.0, 0.0);
    var campaigns := [a, b];
    assert "a"[0] != "b"[0];
    OneRow(a, "a");
    OneRow(a, "b");
    OneRow(b, "b");
    assert campaigns[..1] == [a];
    assert TotalsOf(campaigns) == Totals(1, 1, 1, 5.0, 0.0);
    assert OfPlatform(campaigns, "a") == [a] && OfPlatform(campaigns, "b") == [b];
  }

  // ----- the service -----

  datatype PlatformMetrics = PlatformMetrics(platform: string, metrics: Metrics)

  /** By casefolded name, then by name. */
  predicate NameLe(fold: string -> string, a: string, b: string) {
    if fold(a) == fold(b) then StringLe(a, b) else StringLe(fold(a), fold(b))
  }

  lemma NameLeIsOrder(fold: string -> string)
    ensures TotalPreorder((a, b) => NameLe(fold, a, b)) && Antisymmetric((a, b) => NameLe(fold, a, b))
  {
    StringLeIsOrder();
    forall a: string, b: string, c: string | NameLe(fold, a, b) && NameLe(fold, b, c) ensures NameLe(fold, a, c) {
      if fold(a) == fold(c) && fold(a) != fold(b) { StringLeTotal(fold(a), fold(b)); }
    }
  }

  ghost predicate Grouped(keys: seq<string>, grouped: map<string, seq<Campaign>>) {
    && Distinct(keys)
    && (forall p :: p in keys <==> p in grouped)
    && (forall p :: p in grouped ==> grouped[p] != [])
  }

  /** The dictionary, keys in insertion order: every platform that occurs, with its rows in order. */
  method Group(campaigns: seq<Campaign>) returns (keys: seq<string>, grouped: map<string, seq<Campaign>>)
    ensures Grouped(keys, grouped)
    ensures forall p :: OfPlatform(campaigns, p) == if p in grouped then grouped[p] else []
  {
    keys, grouped := [], map[];
    for n := 0 to |campaigns|
      invariant Grouped(keys, grouped)
      invariant forall p :: OfPlatform(campaigns[..n], p) == if p in grouped then grouped[p] else []
    {
      var campaign := campaigns[n];
      assert campaigns[..n + 1][..n] == campaigns[..n];
      if campaign.platform !in grouped {
        keys := keys + [campaign.platform];
        grouped := grouped[campaign.platform := [campaign]];
      } else {
        grouped := grouped[campaign.platform := grouped[campaign.platform] + [campaign]];
      }
    }
    assert campaigns[..|campaigns|] == campaigns;
  }

  predicate IsPlatform(campaigns: seq<Campaign>, p: string) { exists c :: c in campaigns && c.platform == p }

  lemma GroupKeysArePlatforms(campaigns: seq<Campaign>, grouped: map<string, seq<Campaign>>)
    requires forall p :: OfPlatform(campaigns, p) == if p in grouped then grouped[p] else []
    requires forall p :: p in grouped ==> grouped[p] != []
    ensures forall p :: p in grouped <==> IsPlatform(campaigns, p)
  {
    forall p ensures p in grouped <==> IsPlatform(campaigns, p) {
      OfPlatformMembers(campaigns, p);
      if p in grouped { assert grouped[p][0] in OfPlatform(campaigns, p); }
    }
  }

  function MetricsByPlatform(campaigns: seq<Campaign>, platforms: seq<string>): seq<PlatformMetrics> {
    seq(|platforms|, i requires 0 <= i < |platforms| =>
      PlatformMetrics(platforms[i], Calculate(OfPlatform(campaigns, platforms[i]))))
  }

  function ReportedTotals(metrics: seq<PlatformMetrics>): seq<Totals> {
    seq(|metrics|, i requires 0 <= i < |metrics| => metrics[i].metrics.totals)
  }

  /** What is reported per platform adds up to what is reported overall. */
  lemma ReportsAddUp(campaigns: seq<Campaign>, platforms: seq<string>)
    requires Lists(platforms, campaigns)
    ensures SumTotals(ReportedTotals(MetricsByPlatform(campaigns, platforms))) == Calculate(campaigns).totals
  {
    var reported, groups := ReportedTotals(MetricsByPlatform(campaigns, platforms)), GroupTotals(campaigns, platforms);
    GroupsAddUp(campaigns, platforms);
    forall i | 0 <= i < |platforms| ensures reported[i] == groups[i] { }
    assert reported == groups;
  }

  lemma SortedNames(fold: string -> string, keys: seq<string>)
    requires Distinct(keys)
    ensures var names := Sort((a, b) => NameLe(fold, a, b), keys);
      && Sorted((a, b) => NameLe(fold, a, b), names) && Distinct(names) && forall p :: p in names <==> p in keys
  {
    var le := (a, b) => NameLe(fold, a, b);
    NameLeIsOrder(fold);
    SortSorts(le, keys);
    SortKeepsElements(le, keys);
    SortPermutes(le, keys);
    DistinctByMultiset(keys, Sort(le, keys));
  }

  /** The report of the dictionary's groups, in the given order. */
  method ReportGroups(campaigns: seq<Campaign>, platforms: seq<string>, grouped: map<string, seq<Campaign>>)
    returns (metrics: seq<PlatformMetrics>)
    requires forall p :: p in platforms ==> p in grouped && grouped[p] == OfPlatform(campaigns, p)
    ensures metrics == MetricsByPlatform(campaigns, platforms)
  {
    metrics := [];
    for i := 0 to |platforms|
      invariant metrics == MetricsByPlatform(campaigns, platforms[..i])
    {
      var p := platforms[i];
      assert p in platforms && platforms[..i + 1] == platforms[..i] + [p];
      metrics := metrics + [PlatformMetrics(p, Calculate(grouped[p]))];
      assert metrics == MetricsByPlatform(campaigns, platforms[..i + 1]);
    }
    assert platforms[..|platforms|] == platforms;
  }

  /** _platform_metrics: group the rows, then report each platform in order of its name. */
  method PlatformMetricsOf(campaigns: seq<Campaign>, fold: string -> string) returns (platforms: seq<string>, metrics: seq<PlatformMetrics>)
    ensures Distinct(platforms) && forall p :: p in platforms <==> IsPlatform(campaigns, p)
    ensures Sorted((a, b) => NameLe(fold, a, b), platforms)
    ensures forall i, j :: 0 <= i < j < |platforms| ==>
      if fold(platforms[i]) == fold(platforms[j]) then StringLe(platforms[i], platforms[j])
      else StringLe(fold(platforms[i]), fold(platforms[j]))
    ensures metrics == MetricsByPlatform(campaigns, platforms)
    ensures SumTotals(ReportedTotals(metrics)) == Calculate(campaigns).totals
  {
    var keys, grouped := Group(campaigns);
    GroupKeysArePlatforms(campaigns, grouped);
    SortedNames(fold, keys);
    platforms := Sort((a, b) => NameLe(fold, a, b), keys);
    metrics := ReportGroups(campaigns, platforms, grouped);
    assert Lists(platforms, campaigns) by {
      forall c | c in campaigns ensures c.platform in platforms { assert IsPlatform(campaigns, c.platform); }
    }
    ReportsAddUp(campaigns, platforms);
  }
}
