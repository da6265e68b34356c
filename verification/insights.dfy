/** The customer insight page backed by the bundled customer list
    (src/components/pages/cusotmer.js): the recent-trend flags, the three
    first-match-wins narrative cascades, the quarter-to-year revenue rollup
    and the lookup of the customer named in the route. */
module Insights {
  import opened Js

  // ---------------------------------------------------------------------------
  // Records

  /** A bundled customer record; `customerNo` is kept as the text `String(c.customerNo)`. */
  datatype Customer = Customer(
    customerNo: string,
    cluster: Option<string>,
    totalRevenue: real,
    rankInCluster: int,
    purchasingFreq: int)

  /** The `value` of a time-series point as `trendFlags` sees it: a number (possibly NaN) or anything else. */
  datatype Datum = Number(n: Num) | NonNumber

  // ---------------------------------------------------------------------------
  // trendFlags

  datatype Trend = Trend(recent: seq<Datum>, declining: bool, improving: bool, delta: Num)

  /** `timeseries.slice(-4)`: the last min(4, n) points. */
  function Recent(ts: seq<Datum>): (r: seq<Datum>)
    ensures |r| == if |ts| < 4 then |ts| else 4
    ensures ts == ts[..|ts| - |r|] + r
  {
    if |ts| < 4 then ts else ts[|ts| - 4..]
  }

  /** A trend exists when the window holds at least two points and every one is a number. */
  predicate HasTrend(recent: seq<Datum>) {
    |recent| >= 2 && forall i :: 0 <= i < |recent| ==> recent[i].Number?
  }

  function TrendFlags(ts: seq<Datum>): (t: Trend)
    ensures t.recent == Recent(ts)
    ensures !(t.declining && t.improving)
    ensures !HasTrend(t.recent) ==> !t.declining && !t.improving && t.delta == Finite(0.0)
    ensures HasTrend(t.recent) ==> t.delta == Sub(t.recent[|t.recent| - 1].n, t.recent[0].n)
    ensures t.declining <==> HasTrend(t.recent) && t.delta.Finite? && t.delta.x < 0.0
    ensures t.improving <==> HasTrend(t.recent) && t.delta.Finite? && t.delta.x > 0.0
  {
    var recent := Recent(ts);
    if !HasTrend(recent) then Trend(recent, false, false, Finite(0.0))
    else
      var first, last := recent[0].n, recent[|recent| - 1].n;
      Trend(recent, Greater(first, last), Greater(last, first), Sub(last, first))
  }

  // ---------------------------------------------------------------------------
  // buildInsights

  /** `String(customer?.cluster ?? "").toLowerCase()` */
  function ClusterOf(customer: Option<Customer>): (r: string)
    ensures forall i :: 0 <= i < |r| ==> !IsUpper(r[i])
    ensures customer.None? || customer.value.cluster.None? ==> r == ""
    ensures customer.Some? && customer.value.cluster.Some? ==> |r| == |customer.value.cluster.value|
  {
    if customer.Some? && customer.value.cluster.Some? then ToLower(customer.value.cluster.value) else ""
  }

  predicate Mentions(customer: Option<Customer>, word: string) {
    Contains(ClusterOf(customer), word)
  }

  predicate Declining(ts: seq<Datum>) {
    TrendFlags(ts).declining
  }

  const ChurnAtRisk := "Revenue decline observed — potential churn risk detected."
  const ChurnMonitor := "Mixed revenue patterns; monitor closely for churn indicators."
  const ChurnSecure := "High-value customer; strong retention likelihood."
  const ChurnStable := "Stable recent performance with no clear churn signals."

  const RetainRecover := "Deploy reactivation offers and personalized follow-ups to recover momentum."
  const RetainSimplify := "Simplify reordering experience; offer low-commitment bundles."
  const RetainPremium := "Provide premium support and early access privileges."
  const RetainDefault := "Maintain engagement and reinforce product value."

  const OfferCombo := "Introduce combo deals and seasonal offers to stabilize demand."
  const OfferCoupons := "Reactivation coupons and bundled starter packs."
  const OfferStandard := "Standard loyalty benefits and occasional discounts."

  datatype Insight = Insight(churnDecision: string, howToRetain: string, offers: string)

  function BuildInsights(customer: Option<Customer>, ts: seq<Datum>): (r: Insight)
    // churn decision: "low" or declining, then "mixed", then "high", else stable
    ensures r.churnDecision == ChurnAtRisk <==> Mentions(customer, "low") || Declining(ts)
    ensures r.churnDecision == ChurnMonitor <==>
      !(Mentions(customer, "low") || Declining(ts)) && Mentions(customer, "mixed")
    ensures r.churnDecision == ChurnSecure <==>
      !(Mentions(customer, "low") || Declining(ts)) && !Mentions(customer, "mixed") && Mentions(customer, "high")
    ensures r.churnDecision == ChurnStable <==>
      !(Mentions(customer, "low") || Declining(ts)) && !Mentions(customer, "mixed") && !Mentions(customer, "high")
    // retention: declining, then "low", then "high", else default
    ensures r.howToRetain == RetainRecover <==> Declining(ts)
    ensures r.howToRetain == RetainSimplify <==> !Declining(ts) && Mentions(customer, "low")
    ensures r.howToRetain == RetainPremium <==>
      !Declining(ts) && !Mentions(customer, "low") && Mentions(customer, "high")
    ensures r.howToRetain == RetainDefault <==>
      !Declining(ts) && !Mentions(customer, "low") && !Mentions(customer, "high")
    // offers: "mixed", then "low", else standard; the trend plays no part
    ensures r.offers == OfferCombo <==> Mentions(customer, "mixed")
    ensures r.offers == OfferCoupons <==> !Mentions(customer, "mixed") && Mentions(customer, "low")
    ensures r.offers == OfferStandard <==> !Mentions(customer, "mixed") && !Mentions(customer, "low")
  {
    var cluster := ClusterOf(customer);
    var declining := TrendFlags(ts).declining;
    var churnDecision :=
      if Contains(cluster, "low") || declining then ChurnAtRisk
      else if Contains(cluster, "mixed") then ChurnMonitor
      else if Contains(cluster, "high") then ChurnSecure
      else ChurnStable;
    var howToRetain :=
      if declining then RetainRecover
      else if Contains(cluster, "low") then RetainSimplify
      else if Contains(cluster, "high") then RetainPremium
      else RetainDefault;
    var offers :=
      if Contains(cluster, "mixed") then OfferCombo
      else if Contains(cluster, "low") then OfferCoupons
      else OfferStandard;
    Insight(churnDecision, howToRetain, offers)
  }

  /** The offer text is a function of the cluster alone. */
  lemma OffersIgnoreTrend(customer: Option<Customer>, ts1: seq<Datum>, ts2: seq<Datum>)
    ensures BuildInsights(customer, ts1).offers == BuildInsights(customer, ts2).offers
  {
  }

  /** A "mixed" cluster that is not declining (and names neither "low" nor "high")
      falls through the retention cascade to the default text, although the churn
      cascade singles it out. */
  lemma MixedSteadyRetention(customer: Option<Customer>, ts: seq<Datum>)
    requires Mentions(customer, "mixed") && !Mentions(customer, "low") && !Mentions(customer, "high")
    requires !Declining(ts)
    ensures BuildInsights(customer, ts).howToRetain == RetainDefault
    ensures BuildInsights(customer, ts).churnDecision == ChurnMonitor
    ensures BuildInsights(customer, ts).offers == OfferCombo
  {
  }

  // ---------------------------------------------------------------------------
  // buildObservations

  function DropSentence(amount: string): string {
    "Revenue dropped by ₹" + amount + " in recent quarters — monitor closely."
  }

  function GrowthSentence(amount: string): string {
    "Revenue improved by ₹" + amount + " — growth momentum is positive."
  }

  const StableSentence := "Revenue trend stable with minor fluctuations."

  /** `fmt` stands for `toLocaleString("en-IN")`. The drop sentence is given the
      signed delta, so the amount it prints is negative. */
  function BuildObservations(customer: Option<Customer>, ts: seq<Datum>, fmt: real -> string): (r: string)
    ensures TrendFlags(ts).declining ==>
      TrendFlags(ts).delta.Finite? && TrendFlags(ts).delta.x < 0.0 && r == DropSentence(fmt(TrendFlags(ts).delta.x))
    ensures TrendFlags(ts).improving ==>
      TrendFlags(ts).delta.Finite? && TrendFlags(ts).delta.x > 0.0 && r == GrowthSentence(fmt(TrendFlags(ts).delta.x))
    ensures !TrendFlags(ts).declining && !TrendFlags(ts).improving ==> r == StableSentence
  {
    var t := TrendFlags(ts);
    if t.declining then DropSentence(fmt(t.delta.x))
    else if t.improving then GrowthSentence(fmt(t.delta.x))
    else StableSentence
  }

  // ---------------------------------------------------------------------------
  // buildRecommendations

  const RecoverPlan := [
    "Launch a targeted reactivation campaign with limited-time incentives.",
    "Follow-up via account managers to rebuild engagement."]
  const PremiumPlan := [
    "Offer exclusive previews of upcoming products.",
    "Provide loyalty credits and personalized account support."]
  const DiversifyPlan := [
    "Deploy quarterly promotions and measure elasticity through A/B testing.",
    "Encourage category diversification via combo deals."]
  const ReorderPlan := [
    "Simplify reorder process through subscription or quick checkout.",
    "Send small-value coupons to trigger consistent reorders."]

  function BuildRecommendations(customer: Option<Customer>, ts: seq<Datum>): (r: seq<string>)
    ensures |r| == 2
    ensures r == RecoverPlan <==> Declining(ts)
    ensures r == PremiumPlan <==> !Declining(ts) && Mentions(customer, "high")
    ensures r == DiversifyPlan <==> !Declining(ts) && !Mentions(customer, "high") && Mentions(customer, "mixed")
    ensures r == ReorderPlan <==> !Declining(ts) && !Mentions(customer, "high") && !Mentions(customer, "mixed")
  {
    if TrendFlags(ts).declining then RecoverPlan
    else if Contains(ClusterOf(customer), "high") then PremiumPlan
    else if Contains(ClusterOf(customer), "mixed") then DiversifyPlan
    else ReorderPlan
  }

  // ---------------------------------------------------------------------------
  // revenueByYear: the rollup of "YYYY-Qn" keys into years

  datatype Quarter = Quarter(key: string, value: real)
  datatype YearTotal = YearTotal(key: string, value: real)

  /** `key.split("-")[0]` */
  function YearOf(key: string): string {
    Before(key, '-')
  }

  /** The distinct years of `qs`, in order of first appearance (the key order of the JS `Map`). */
  function Years(qs: seq<Quarter>): seq<string>
    decreases |qs|
  {
    if qs == [] then []
    else
      var ys := Years(qs[..|qs| - 1]);
      var y := YearOf(qs[|qs| - 1].key);
      if y in ys then ys else ys + [y]
  }

  /** No year is listed twice. */
  lemma {:induction false} YearsDistinct(qs: seq<Quarter>)
    ensures forall i, j :: 0 <= i < j < |Years(qs)| ==> Years(qs)[i] != Years(qs)[j]
    decreases |qs|
  {
    if qs != [] {
      YearsDistinct(qs[..|qs| - 1]);
    }
  }

  /** A year is listed exactly when some quarter of `qs` has it. */
  lemma {:induction false} YearsExact(qs: seq<Quarter>)
    ensures forall y :: y in Years(qs) <==> exists q :: q in qs && YearOf(q.key) == y
    decreases |qs|
  {
    if qs != [] {
      var init := qs[..|qs| - 1];
      YearsExact(init);
      assert qs == init + [qs[|qs| - 1]];
      assert forall q :: q in qs <==> q in init || q == qs[|qs| - 1];
    }
  }

  /** The sum of the values of the quarters of `qs` whose year is `y`. */
  function YearSum(qs: seq<Quarter>, y: string): real
    decreases |qs|
  {
    if qs == [] then 0.0
    else YearSum(qs[..|qs| - 1], y) + (if YearOf(qs[|qs| - 1].key) == y then qs[|qs| - 1].value else 0.0)
  }

  function QuarterTotal(qs: seq<Quarter>): real
    decreases |qs|
  {
    if qs == [] then 0.0 else QuarterTotal(qs[..|qs| - 1]) + qs[|qs| - 1].value
  }

  function RowsTotal(rows: seq<YearTotal>): real
    decreases |rows|
  {
    if rows == [] then 0.0 else RowsTotal(rows[..|rows| - 1]) + rows[|rows| - 1].value
  }

  /** The sum over the years `ys` of their totals in `qs`. */
  function SumOfYears(qs: seq<Quarter>, ys: seq<string>): real
    decreases |ys|
  {
    if ys == [] then 0.0 else SumOfYears(qs, ys[..|ys| - 1]) + YearSum(qs, ys[|ys| - 1])
  }

  /** Appending a quarter adds its value to exactly one year's total, if that year is listed once. */
  lemma {:induction false} SumOfYearsSnoc(qs: seq<Quarter>, q: Quarter, ys: seq<string>)
    requires forall i, j :: 0 <= i < j < |ys| ==> ys[i] != ys[j]
    ensures SumOfYears(qs + [q], ys) == SumOfYears(qs, ys) + (if YearOf(q.key) in ys then q.value else 0.0)
    decreases |ys|
  {
    assert (qs + [q])[..|qs + [q]| - 1] == qs;
    if ys != [] {
      var init := ys[..|ys| - 1];
      SumOfYearsSnoc(qs, q, init);
      assert ys == init + [ys[|ys| - 1]];
      assert YearOf(q.key) in ys <==> YearOf(q.key) in init || YearOf(q.key) == ys[|ys| - 1];
    }
  }

  /** A year that never occurs in `qs` has total 0. */
  lemma {:induction false} YearSumAbsent(qs: seq<Quarter>, y: string)
    requires forall q :: q in qs ==> YearOf(q.key) != y
    ensures YearSum(qs, y) == 0.0
    decreases |qs|
  {
    if qs != [] {
      YearSumAbsent(qs[..|qs| - 1], y);
    }
  }

  /** The yearly totals add up to the quarterly grand total. */
  lemma {:induction false} RollupPreservesTotal(qs: seq<Quarter>)
    ensures SumOfYears(qs, Years(qs)) == QuarterTotal(qs)
    decreases |qs|
  {
    if qs != [] {
      var init, q := qs[..|qs| - 1], qs[|qs| - 1];
      assert qs == init + [q];
      var ys := Years(init);
      RollupPreservesTotal(init);
      YearsDistinct(init);
      YearsExact(init);
      SumOfYearsSnoc(init, q, ys);
      var y := YearOf(q.key);
      if y !in ys {
        assert forall p :: p in init ==> YearOf(p.key) != y;
        YearSumAbsent(init, y);
        assert YearSum(qs, y) == q.value;
        assert Years(qs) == ys + [y];
        assert Years(qs)[..|Years(qs)| - 1] == ys;
      }
    }
  }

  /** Extending the series by one quarter appends its year if it is new. */
  lemma YearsStep(qs: seq<Quarter>, i: nat)
    requires i < |qs|
    ensures Years(qs[..i + 1]) ==
      if YearOf(qs[i].key) in Years(qs[..i]) then Years(qs[..i]) else Years(qs[..i]) + [YearOf(qs[i].key)]
  {
    assert qs[..i + 1][..i] == qs[..i];
  }

  /** Extending the series by one quarter grows only that quarter's year total. */
  lemma YearSumStep(qs: seq<Quarter>, i: nat, y: string)
    requires i < |qs|
    ensures YearSum(qs[..i + 1], y) == YearSum(qs[..i], y) + (if YearOf(qs[i].key) == y then qs[i].value else 0.0)
  {
    assert qs[..i + 1][..i] == qs[..i];
  }

  /** Rows listing each year of `ys` with its total add up to the sum over `ys`. */
  lemma {:induction false} RowsTotalOfYears(qs: seq<Quarter>, ys: seq<string>, rows: seq<YearTotal>)
    requires |rows| == |ys|
    requires forall k :: 0 <= k < |ys| ==> rows[k].value == YearSum(qs, ys[k])
    ensures RowsTotal(rows) == SumOfYears(qs, ys)
    decreases |ys|
  {
    if ys != [] {
      RowsTotalOfYears(qs, ys[..|ys| - 1], rows[..|rows| - 1]);
    }
  }

  /** The rollup loop: a JS `Map` keyed by year, modelled as its key order plus the totals. */
  method RevenueByYear(qs: seq<Quarter>) returns (rows: seq<YearTotal>)
    ensures |rows| == |Years(qs)|
    ensures forall i :: 0 <= i < |rows| ==> rows[i] == YearTotal(Years(qs)[i], YearSum(qs, Years(qs)[i]))
    ensures RowsTotal(rows) == QuarterTotal(qs)
  {
    var order: seq<string> := [];
    var totals: map<string, real> := map[];
    for i := 0 to |qs|
      invariant order == Years(qs[..i])
      invariant forall y :: y in totals <==> y in order
      invariant forall y :: y in totals ==> totals[y] == YearSum(qs[..i], y)
    {
      var y := YearOf(qs[i].key);
      YearsStep(qs, i);
      forall z | z in order + [y] {
        YearSumStep(qs, i, z);
      }
      var sofar := if y in totals then totals[y] else 0.0;  // map.get(y) || 0
      if y !in totals {
        YearsExact(qs[..i]);
        YearSumAbsent(qs[..i], y);
        order := order + [y];
      }
      totals := totals[y := sofar + qs[i].value];
    }
    assert qs[..|qs|] == qs;
    // Array.from(map.entries()).map(([key, value]) => ({ key, value }))
    rows := seq(|order|, k requires 0 <= k < |order| => YearTotal(order[k], totals[order[k]]));
    RowsTotalOfYears(qs, order, rows);
    RollupPreservesTotal(qs);
  }

  /** The hard-coded quarterly series the page rolls up. */
  const Fixture: seq<Quarter> := [
    Quarter("2024-Q1", 1050000.0),
    Quarter("2024-Q2", 1320000.0),
    Quarter("2024-Q3", 1210000.0),
    Quarter("2024-Q4", 1480000.0),
    Quarter("2025-Q1", 1060000.0),
    Quarter("2025-Q2", 980000.0),
    Quarter("2025-Q3", 760000.0),
    Quarter("2025-Q4", 720000.0)]

  function Series(qs: seq<Quarter>): (ts: seq<Datum>)
    ensures |ts| == |qs|
    ensures forall i :: 0 <= i < |qs| ==> ts[i] == Number(Finite(qs[i].value))
  {
    seq(|qs|, i requires 0 <= i < |qs| => Number(Finite(qs[i].value)))
  }

  /** A key whose first `-` is at position `n` belongs to the year spelled by its first `n` characters. */
  lemma YearOfAt(key: string, n: nat)
    requires n < |key| && key[n] == '-'
    requires forall i :: 0 <= i < n ==> key[i] != '-'
    ensures YearOf(key) == key[..n]
  {
  }

  /** The fixture's first four keys are in 2024, the last four in 2025. */
  lemma FixtureKeyYears(fx: seq<Quarter>)
    requires fx == Fixture
    ensures forall q :: q in fx[..4] ==> YearOf(q.key) == "2024"
    ensures forall q :: q in fx[4..] ==> YearOf(q.key) == "2025"
  {
    forall i | 0 <= i < 8 ensures YearOf(fx[i].key) == if i < 4 then "2024" else "2025" {
      YearOfAt(fx[i].key, 4);
    }
  }

  /** Appending quarters that all fall in year `y` lists `y` once, after the years already seen. */
  lemma {:induction false} YearsAppendOneYear(a: seq<Quarter>, b: seq<Quarter>, y: string)
    requires b != []
    requires forall q :: q in b ==> YearOf(q.key) == y
    ensures Years(a + b) == if y in Years(a) then Years(a) else Years(a) + [y]
    decreases |b|
  {
    var ab := a + b;
    assert ab[..|ab| - 1] == a + b[..|b| - 1];
    assert b[|b| - 1] in b;
    if |b| > 1 {
      YearsAppendOneYear(a, b[..|b| - 1], y);
    } else {
      assert a + b[..|b| - 1] == a;
    }
  }

  /** The total of a year over a concatenation is the sum of its totals over the parts. */
  lemma {:induction false} YearSumAppend(a: seq<Quarter>, b: seq<Quarter>, y: string)
    ensures YearSum(a + b, y) == YearSum(a, y) + YearSum(b, y)
    decreases |b|
  {
    if b == [] {
      assert a + b == a;
    } else {
      var ab := a + b;
      assert ab[..|ab| - 1] == a + b[..|b| - 1];
      YearSumAppend(a, b[..|b| - 1], y);
    }
  }

  /** When every quarter is in year `y`, that year's total is the grand total. */
  lemma {:induction false} YearSumOneYear(qs: seq<Quarter>, y: string)
    requires forall q :: q in qs ==> YearOf(q.key) == y
    ensures YearSum(qs, y) == QuarterTotal(qs)
    decreases |qs|
  {
    if qs != [] {
      assert qs[|qs| - 1] in qs;
      YearSumOneYear(qs[..|qs| - 1], y);
    }
  }

  /** The grand total of a concatenation is the sum of the parts' totals. */
  lemma {:induction false} QuarterTotalAppend(a: seq<Quarter>, b: seq<Quarter>)
    ensures QuarterTotal(a + b) == QuarterTotal(a) + QuarterTotal(b)
    decreases |b|
  {
    if b == [] {
      assert a + b == a;
    } else {
      var ab := a + b;
      assert ab[..|ab| - 1] == a + b[..|b| - 1];
      QuarterTotalAppend(a, b[..|b| - 1]);
    }
  }

  lemma QuarterTotalStep(qs: seq<Quarter>, i: nat)
    requires i < |qs|
    ensures QuarterTotal(qs[..i + 1]) == QuarterTotal(qs[..i]) + qs[i].value
  {
    assert qs[..i + 1][..i] == qs[..i];
  }

  /** A block of quarters of year `y1` followed by a block of year `y2` rolls up to
      exactly two entries, `y1` then `y2`. */
  lemma TwoYearKeys(a: seq<Quarter>, b: seq<Quarter>, y1: string, y2: string)
    requires a != [] && b != [] && y1 != y2
    requires forall q :: q in a ==> YearOf(q.key) == y1
    requires forall q :: q in b ==> YearOf(q.key) == y2
    ensures Years(a + b) == [y1, y2]
  {
    assert [] + a == a;
    YearsAppendOneYear([], a, y1);
    YearsAppendOneYear(a, b, y2);
  }

  /** ... and the two entries carry the blocks' totals. */
  lemma TwoYearTotals(a: seq<Quarter>, b: seq<Quarter>, y1: string, y2: string)
    requires y1 != y2
    requires forall q :: q in a ==> YearOf(q.key) == y1
    requires forall q :: q in b ==> YearOf(q.key) == y2
    ensures YearSum(a + b, y1) == QuarterTotal(a)
    ensures YearSum(a + b, y2) == QuarterTotal(b)
  {
    YearSumAppend(a, b, y1);
    YearSumOneYear(a, y1);
    YearSumAbsent(b, y1);
    YearSumAppend(a, b, y2);
    YearSumOneYear(b, y2);
    YearSumAbsent(a, y2);
  }

  lemma FixtureQuarterTotals(fx: seq<Quarter>)
    requires fx == Fixture
    ensures QuarterTotal(fx[..4]) == 5060000.0
    ensures QuarterTotal(fx) == 8580000.0
  {
    assert fx[..0] == [];
    QuarterTotalStep(fx, 0);
    QuarterTotalStep(fx, 1);
    QuarterTotalStep(fx, 2);
    QuarterTotalStep(fx, 3);
    QuarterTotalStep(fx, 4);
    QuarterTotalStep(fx, 5);
    QuarterTotalStep(fx, 6);
    QuarterTotalStep(fx, 7);
    assert fx[..8] == fx;
  }

  /** On the fixture the rollup lists 2024 = 5,060,000, then 2025 = 3,520,000. */
  lemma FixtureRollup(fx: seq<Quarter>)
    requires fx == Fixture
    ensures Years(fx) == ["2024", "2025"]
    ensures YearSum(fx, "2024") == 5060000.0
    ensures YearSum(fx, "2025") == 3520000.0
  {
    FixtureKeyYears(fx);
    assert fx == fx[..4] + fx[4..];
    TwoYearKeys(fx[..4], fx[4..], "2024", "2025");
    TwoYearTotals(fx[..4], fx[4..], "2024", "2025");
    FixtureQuarterTotals(fx);
    QuarterTotalAppend(fx[..4], fx[4..]);
  }

  /** On the fixture the last four quarters fall by 340,000, so every cascade takes its decline branch. */
  lemma FixtureTrend(customer: Option<Customer>)
    ensures TrendFlags(Series(Fixture)).declining
    ensures TrendFlags(Series(Fixture)).delta == Finite(-340000.0)
    ensures BuildInsights(customer, Series(Fixture)).churnDecision == ChurnAtRisk
    ensures BuildInsights(customer, Series(Fixture)).howToRetain == RetainRecover
    ensures BuildRecommendations(customer, Series(Fixture)) == RecoverPlan
  {
  }

  // ---------------------------------------------------------------------------
  // The customer lookup

  /** `allCustomers.find(c => String(c.customerNo) === String(customerNo))`, as the index found. */
  function FindCustomer(all: seq<Customer>, customerNo: string): (r: Option<nat>)
    ensures r.Some? ==> r.value < |all| && all[r.value].customerNo == customerNo
    ensures r.Some? ==> forall j :: 0 <= j < r.value ==> all[j].customerNo != customerNo
    ensures r.None? ==> forall j :: 0 <= j < |all| ==> all[j].customerNo != customerNo
    decreases |all|
  {
    if all == [] then None
    else if all[0].customerNo == customerNo then Some(0)
    else match FindCustomer(all[1..], customerNo)
      case None => None
      case Some(k) => Some(k + 1)
  }

  const NotFound := "Customer not found"

  /** What the page renders: the spinner while loading, the error alert if an error is
      set, otherwise the insight content; with neither an error nor a customer the render
      would read a property of `null` and throw. */
  datatype PageView = Spinner | ErrorAlert(message: string) | Content(customer: Customer) | Throws

  /** The page's state: `loading`, `customer` and `error`. */
  class DetailPage {
    var loading: bool
    var customer: Option<Customer>
    var error: Option<string>

    constructor ()
      ensures loading && customer == None && error == None
      ensures View() == Spinner
    {
      loading, customer, error := true, None, None;
    }

    function View(): (v: PageView)
      reads this
      ensures v == Spinner <==> loading
      ensures v.ErrorAlert? <==> !loading && error.Some?
      ensures v.Content? <==> !loading && error.None? && customer.Some?
    {
      if loading then Spinner
      else if error.Some? then ErrorAlert(error.value)
      else if customer.Some? then Content(customer.value)
      else Throws
    }

    /** The lookup effect as written, run whenever the route's customer number changes.
        It sets the first matching record or the not-found error and always ends
        loading, but it never clears an error left by an earlier lookup, which then
        hides the customer that was found. */
    method Lookup(all: seq<Customer>, customerNo: string)
      modifies this
      ensures !loading
      ensures FindCustomer(all, customerNo).Some? ==>
        customer == Some(all[FindCustomer(all, customerNo).value]) && error == old(error)
      ensures FindCustomer(all, customerNo).None? ==>
        customer == old(customer) && error == Some(NotFound)
      ensures FindCustomer(all, customerNo).None? ==> View() == ErrorAlert(NotFound)
      ensures FindCustomer(all, customerNo).Some? && old(error).Some? ==> View() == ErrorAlert(old(error).value)
    {
      loading := true;
      var found := FindCustomer(all, customerNo);
      if found.Some? {
        customer := Some(all[found.value]);
      } else {
        error := Some(NotFound);
      }
      loading := false;
    }

    /** The lookup with the error reset on success, as the other detail page does
        (`setError(null)` before it loads): the page then always shows the customer
        found, or the not-found alert. */
    method LookupClearingError(all: seq<Customer>, customerNo: string)
      modifies this
      ensures !loading
      ensures FindCustomer(all, customerNo).Some? ==>
        customer == Some(all[FindCustomer(all, customerNo).value]) && error == None
      ensures FindCustomer(all, customerNo).None? ==>
        customer == old(customer) && error == Some(NotFound)
      ensures FindCustomer(all, customerNo).Some? ==> View() == Content(all[FindCustomer(all, customerNo).value])
      ensures FindCustomer(all, customerNo).None? ==> View() == ErrorAlert(NotFound)
    {
      loading := true;
      var found := FindCustomer(all, customerNo);
      if found.Some? {
        customer := Some(all[found.value]);
        error := None;
      } else {
        error := Some(NotFound);
      }
      loading := false;
    }
  }

  /** Visiting an unknown customer number and then a known one, as written: the second
      lookup finds the customer, yet the page still shows the first lookup's error. */
  method StaleErrorAfterLookup() returns (all: seq<Customer>, shown: PageView)
    ensures FindCustomer(all, "1") == Some(0)
    ensures shown == ErrorAlert(NotFound)
  {
    all := [Customer("1", Some("High_Revenue"), 0.0, 1, 1)];
    var page := new DetailPage();
    page.Lookup(all, "2");
    page.Lookup(all, "1");
    shown := page.View();
  }

  /** The same visits with the error reset show the customer found. */
  method FoundAfterFailedLookup() returns (all: seq<Customer>, shown: PageView)
    ensures FindCustomer(all, "1") == Some(0)
    ensures shown == Content(all[0])
  {
    all := [Customer("1", Some("High_Revenue"), 0.0, 1, 1)];
    var page := new DetailPage();
    page.LookupClearingError(all, "2");
    page.LookupClearingError(all, "1");
    shown := page.View();
  }

  /** The Overview's "Churn Risk" cell: "High" only for the exact label "Low_Revenue". */
  function ChurnRiskLabel(customer: Customer): (r: string)
    ensures r == "High" <==> customer.cluster == Some("Low_Revenue")
    ensures r == "High" || r == "Low"
  {
    if customer.cluster == Some("Low_Revenue") then "High" else "Low"
  }

  /** The cell compares the label exactly while the churn cascade lower-cases it and
      searches for "low": a lower-cased "low_revenue" customer gets the churn-risk
      decision next to a "Low" churn risk. */
  lemma ChurnRiskLabelIsCaseSensitive(c: Customer, ts: seq<Datum>)
    requires c.cluster == Some("low_revenue")
    ensures ChurnRiskLabel(c) == "Low"
    ensures BuildInsights(Some(c), ts).churnDecision == ChurnAtRisk
  {
    assert ClusterOf(Some(c)) == "low_revenue";
    assert Mentions(Some(c), "low");
  }
}
