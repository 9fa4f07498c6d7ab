/**
 * The recommendation engine: a month-over-month analysis of the table
 * (`analyze_spending_patterns`) and the fixed, ordered list of threshold rules
 * that turns it into advice (`generate_recommendations`). Advice items are
 * tagged values carrying their numbers; the wording around them is not modelled.
 */
module Recommender {
  import opened Wrappers
  import opened Grouping
  import opened Ledger

  /** The dictionary `analyze_spending_patterns` returns. */
  datatype Analysis = Analysis(
    currentMonthSpend: real,
    lastMonthSpend: real,
    categoryTrends: seq<Entry<string>>,
    dailyAverage: real)

  /** The rows of the latest month present in the data (none for an empty table). */
  function CurrentMonthRows(ts: seq<Txn>): seq<Txn> {
    match LatestPeriod(ts)
    case None => []
    case Some(p) => InPeriod(ts, p)
  }

  /** The rows of the month before the latest one (none for an empty table). */
  function LastMonthRows(ts: seq<Txn>): seq<Txn> {
    match LatestPeriod(ts)
    case None => []
    case Some(p) => InPeriod(ts, Prev(p))
  }

  /** The mean of a series of group totals, 0 for an empty series (`mean() if not empty else 0`). */
  function MeanTotal<K>(g: seq<Entry<K>>): real {
    if g == [] then 0.0 else Totals(g) / |g| as real
  }

  /** The mean of the daily series is the total spread over the distinct days. */
  lemma DailyMean(rows: seq<Txn>)
    ensures rows == [] ==> MeanTotal(DailySeries(rows)) == 0.0
    ensures rows != [] ==> |Dates(rows)| > 0
    ensures rows != [] ==> MeanTotal(DailySeries(rows)) == Total(rows) / |Dates(rows)| as real
  {
    DailySeriesSpec(rows);
    if rows != [] {
      assert rows[0].date in Dates(rows);
    } else {
      assert Dates(rows) == {};
    }
  }

  /** `analyze_spending_patterns(df)`. */
  function AnalyzeSpendingPatterns(ts: seq<Txn>): Analysis {
    var current := CurrentMonthRows(ts);
    Analysis(Total(current), Total(LastMonthRows(ts)), CategoryBreakdown(current), MeanTotal(DailySeries(current)))
  }

  /**
   * What the analysis holds: the two months' totals, the current month's
   * per-category totals (ascending by category, one per category present,
   * summing to the month's total) and the mean spend per distinct day of the
   * current month (0 when it has no rows).
   */
  lemma AnalysisMeaning(ts: seq<Txn>)
    ensures AnalyzeSpendingPatterns(ts).currentMonthSpend == Total(CurrentMonthRows(ts))
    ensures AnalyzeSpendingPatterns(ts).lastMonthSpend == Total(LastMonthRows(ts))
    ensures Ascending(AnalyzeSpendingPatterns(ts).categoryTrends, StrLess)
    ensures KeySet(AnalyzeSpendingPatterns(ts).categoryTrends) == Categories(CurrentMonthRows(ts))
    ensures Totals(AnalyzeSpendingPatterns(ts).categoryTrends) == AnalyzeSpendingPatterns(ts).currentMonthSpend
    ensures forall e :: e in AnalyzeSpendingPatterns(ts).categoryTrends ==>
              e.total == CategoryTotal(CurrentMonthRows(ts), e.key)
    ensures CurrentMonthRows(ts) == [] ==> AnalyzeSpendingPatterns(ts).dailyAverage == 0.0
    ensures CurrentMonthRows(ts) != [] ==>
              |Dates(CurrentMonthRows(ts))| > 0 &&
              AnalyzeSpendingPatterns(ts).dailyAverage
                == AnalyzeSpendingPatterns(ts).currentMonthSpend / |Dates(CurrentMonthRows(ts))| as real
  {
    var current := CurrentMonthRows(ts);
    CategoryBreakdownSpec(current);
    DailyMean(current);
  }

  /**
   * The periods behind the analysis: the current month is the latest month of
   * any row, and the current-month rows are exactly the rows of that month,
   * each as many times as the table holds it.
   */
  lemma CurrentMonthIsLatest(ts: seq<Txn>, p: Period)
    requires LatestPeriod(ts) == Some(p)
    ensures exists i :: 0 <= i < |ts| && PeriodOf(ts[i].date) == p
    ensures forall i :: 0 <= i < |ts| ==> Ordinal(PeriodOf(ts[i].date)) <= Ordinal(p)
    ensures forall t :: t in CurrentMonthRows(ts) <==> t in ts && PeriodOf(t.date) == p
    ensures forall t :: multiset(CurrentMonthRows(ts))[t] == if PeriodOf(t.date) == p then multiset(ts)[t] else 0
  {
    LatestPeriodIsMaximum(ts);
    InPeriodMembers(ts, p);
  }

  /**
   * Last month is the month just before the current one: its rows are exactly
   * the rows one month earlier, each as many times as the table holds it,
   * with January rolling back to December of the previous year.
   */
  lemma LastMonthIsPredecessor(ts: seq<Txn>, p: Period)
    requires LatestPeriod(ts) == Some(p)
    ensures forall t :: t in LastMonthRows(ts) <==> t in ts && Ordinal(PeriodOf(t.date)) == Ordinal(p) - 1
    ensures forall t :: multiset(LastMonthRows(ts))[t]
                        == if Ordinal(PeriodOf(t.date)) == Ordinal(p) - 1 then multiset(ts)[t] else 0
    ensures p.month == 1 ==> forall t :: t in LastMonthRows(ts) ==> t.date.year == p.year - 1 && t.date.month == 12
  {
    var last := LastMonthRows(ts);
    assert last == InPeriod(ts, Prev(p));
    InPeriodMembers(ts, Prev(p));
    forall t | t in ts && Ordinal(PeriodOf(t.date)) == Ordinal(p) - 1 ensures t in last {
      OrdinalInjective(PeriodOf(t.date), Prev(p));
    }
  }

  /** A table whose rows all fall in one month has no last-month spending. */
  lemma SingleMonthHasNoLastMonth(ts: seq<Txn>, p: Period)
    requires forall i :: 0 <= i < |ts| ==> PeriodOf(ts[i].date) == p
    ensures AnalyzeSpendingPatterns(ts).lastMonthSpend == 0.0
  {
    if ts != [] {
      LatestPeriodIsMaximum(ts);
      var i :| 0 <= i < |ts| && PeriodOf(ts[i].date) == LatestPeriod(ts).value;
      assert LatestPeriod(ts) == Some(p);
      InPeriodEmpty(ts, Prev(p));
    }
  }

  // ---- advice items and the rules that emit them ----

  datatype Advice =
    | SpendingIncreased(percent: real)
    | SpendingDecreased(percent: real)
    | FirstMonthOfTracking
    | CategoryHigh(category: string, percent: real)
    | HighDailySpending(average: real)
    | LowSavingsRate(percent: real)
    | StartTrackingSavings
    | IrregularSpending
    | InvestSavings(saved: real)
    | Balanced

  /** The position of each kind of advice in the fixed evaluation order. */
  function Rank(x: Advice): nat {
    match x
    case SpendingIncreased(_) => 0
    case SpendingDecreased(_) => 0
    case FirstMonthOfTracking => 0
    case CategoryHigh(_, _) => 1
    case HighDailySpending(_) => 2
    case LowSavingsRate(_) => 3
    case StartTrackingSavings => 3
    case IrregularSpending => 4
    case InvestSavings(_) => 5
    case Balanced => 6
  }

  /** Rule 1: month-over-month trend, or the first-month notice when last month shows no spending. */
  function TrendAdvice(a: Analysis): seq<Advice> {
    var cur, last := a.currentMonthSpend, a.lastMonthSpend;
    if last > 0.0 then
      if cur > last then [SpendingIncreased((cur - last) / last * 100.0)]
      else if cur < last then [SpendingDecreased((last - cur) / last * 100.0)]
      else []
    else [FirstMonthOfTracking]
  }

  /** A category whose share of `total` is strictly above 30%. */
  predicate Concentrated(amount: real, total: real) {
    amount * 100.0 > 30.0 * total
  }

  /** Rule 2: one notice per category whose share of the month's total exceeds 30%, in category order. */
  function CategoryAdvice(es: seq<Entry<string>>, total: real): seq<Advice>
    requires total > 0.0
  {
    if es == [] then []
    else
      var e := es[|es| - 1];
      CategoryAdvice(es[..|es| - 1], total)
      + (if Concentrated(e.total, total) then [CategoryHigh(e.key, e.total / total * 100.0)] else [])
  }

  /** Rule 3: a mean daily spend above 2000. */
  function DailyAdvice(a: Analysis): seq<Advice> {
    if a.dailyAverage > 2000.0 then [HighDailySpending(a.dailyAverage)] else []
  }

  /** The savings rate (all Savings rows against this month's total) is below 20%. */
  predicate LowRate(savings: real, total: real) {
    savings * 100.0 < 20.0 * total
  }

  /** Rule 4: the savings-rate check, or the start-tracking notice when there is no Savings row at all. */
  function SavingsAdvice(ts: seq<Txn>, total: real): seq<Advice> {
    if HasCategory(ts, "Savings") then
      var savings := CategoryTotal(ts, "Savings");
      if total > 0.0 && LowRate(savings, total) then [LowSavingsRate(savings / total * 100.0)] else []
    else [StartTrackingSavings]
  }

  /** Sum of squared deviations of the group totals from `m`. */
  function SquaredDeviations<K>(g: seq<Entry<K>>, m: real): real {
    if g == [] then 0.0 else (g[0].total - m) * (g[0].total - m) + SquaredDeviations(g[1..], m)
  }

  /** pandas' `std()` squared: the sample variance (divisor n - 1) of the group totals. */
  function SampleVariance<K>(g: seq<Entry<K>>): real
    requires |g| >= 2
  {
    SquaredDeviations(g, MeanTotal(g)) / (|g| - 1) as real
  }

  /** Daily totals vary: more than one day and a standard deviation above 2000. */
  predicate Irregular(ts: seq<Txn>) {
    var daily := DailySeries(ts);
    |daily| > 1 && SampleVariance(daily) > 2000.0 * 2000.0
  }

  /** Rule 5: irregular daily spending over the whole table. */
  function IrregularAdvice(ts: seq<Txn>): seq<Advice> {
    if Irregular(ts) then [IrregularSpending] else []
  }

  /** Rule 6: spending fell against a month that had spending; suggest investing the difference. */
  function InvestmentAdvice(a: Analysis): seq<Advice> {
    if a.lastMonthSpend > 0.0 && a.currentMonthSpend < a.lastMonthSpend
    then [InvestSavings(a.lastMonthSpend - a.currentMonthSpend)]
    else []
  }

  /** What the six rules emit for the table and its analysis `a`, in evaluation order, before the default. */
  function RulesFor(ts: seq<Txn>, a: Analysis): seq<Advice> {
    var total := a.currentMonthSpend;
    TrendAdvice(a)
    + (if total > 0.0 then CategoryAdvice(a.categoryTrends, total) else [])
    + DailyAdvice(a)
    + SavingsAdvice(ts, total)
    + IrregularAdvice(ts)
    + InvestmentAdvice(a)
  }

  /** The rules' advice, or the single "balanced" message when none fired. */
  function RecommendationsFor(ts: seq<Txn>, a: Analysis): seq<Advice> {
    var items := RulesFor(ts, a);
    if items == [] then [Balanced] else items
  }

  /** `generate_recommendations(df)`: the rules applied to the table's own analysis. */
  function Recommendations(ts: seq<Txn>): seq<Advice> {
    RecommendationsFor(ts, AnalyzeSpendingPatterns(ts))
  }

  /** The source's percentage test `amount / total * 100 > pct` is the cross-multiplied one. */
  lemma PercentageAbove(amount: real, total: real, pct: real)
    requires total > 0.0
    ensures (amount / total * 100.0 > pct) == (amount * 100.0 > pct * total)
  {
    var q := amount / total;
    assert q * total == amount;
    if q * 100.0 > pct {
      assert q * 100.0 * total > pct * total;
    } else {
      assert q * 100.0 * total <= pct * total;
    }
  }

  /** The source's percentage test `amount / total * 100 < pct` is the cross-multiplied one. */
  lemma PercentageBelow(amount: real, total: real, pct: real)
    requires total > 0.0
    ensures (amount / total * 100.0 < pct) == (amount * 100.0 < pct * total)
  {
    var q := amount / total;
    assert q * total == amount;
    if q * 100.0 < pct {
      assert q * 100.0 * total < pct * total;
    } else {
      assert q * 100.0 * total >= pct * total;
    }
  }

  // ---- generate_recommendations, block by block ----

  /** The monthly spending block: append the trend notice. */
  method AppendTrend(recs0: seq<Advice>, analysis: Analysis) returns (recs: seq<Advice>)
    ensures recs == recs0 + TrendAdvice(analysis)
  {
    recs := recs0;
    var cur, last := analysis.currentMonthSpend, analysis.lastMonthSpend;
    if last > 0.0 {
      if cur > last {
        var increase := (cur - last) / last * 100.0;
        recs := recs + [SpendingIncreased(increase)];
      } else if cur < last {
        var decrease := (last - cur) / last * 100.0;
        recs := recs + [SpendingDecreased(decrease)];
      }
    } else {
      recs := recs + [FirstMonthOfTracking];
    }
  }

  /** The category block: the loop over `category_trends`, appending one notice per concentrated category. */
  method AppendCategories(recs0: seq<Advice>, trends: seq<Entry<string>>, totalSpend: real) returns (recs: seq<Advice>)
    ensures recs == recs0 + (if totalSpend > 0.0 then CategoryAdvice(trends, totalSpend) else [])
  {
    recs := recs0;
    if totalSpend > 0.0 {
      for i := 0 to |trends|
        invariant recs == recs0 + CategoryAdvice(trends[..i], totalSpend)
      {
        var category, amount := trends[i].key, trends[i].total;
        var percentage := amount / totalSpend * 100.0;
        PercentageAbove(amount, totalSpend, 30.0);
        if percentage > 30.0 {
          recs := recs + [CategoryHigh(category, percentage)];
        }
        assert trends[..i + 1][..i] == trends[..i];
      }
      assert trends[..|trends|] == trends;
    }
  }

  /** The daily spending block. */
  method AppendDaily(recs0: seq<Advice>, analysis: Analysis) returns (recs: seq<Advice>)
    ensures recs == recs0 + DailyAdvice(analysis)
  {
    recs := recs0;
    if analysis.dailyAverage > 2000.0 {
      recs := recs + [HighDailySpending(analysis.dailyAverage)];
    }
  }

  /** The savings block: the savings rate over all Savings rows against this month's total. */
  method AppendSavings(recs0: seq<Advice>, ts: seq<Txn>, totalSpend: real) returns (recs: seq<Advice>)
    ensures recs == recs0 + SavingsAdvice(ts, totalSpend)
  {
    recs := recs0;
    if HasCategory(ts, "Savings") {
      var savings := CategoryTotal(ts, "Savings");
      if totalSpend > 0.0 {
        var savingsRate := savings / totalSpend * 100.0;
        PercentageBelow(savings, totalSpend, 20.0);
        if savingsRate < 20.0 {
          recs := recs + [LowSavingsRate(savingsRate)];
        }
      }
    } else {
      recs := recs + [StartTrackingSavings];
    }
  }

  /** The irregular-expense block, over the daily totals of the whole table. */
  method AppendIrregular(recs0: seq<Advice>, ts: seq<Txn>) returns (recs: seq<Advice>)
    ensures recs == recs0 + IrregularAdvice(ts)
  {
    recs := recs0;
    var dailySpend := DailySeries(ts);
    if |dailySpend| > 1 && SampleVariance(dailySpend) > 2000.0 * 2000.0 {
      recs := recs + [IrregularSpending];
    }
  }

  /** The investment block. */
  method AppendInvestment(recs0: seq<Advice>, analysis: Analysis) returns (recs: seq<Advice>)
    ensures recs == recs0 + InvestmentAdvice(analysis)
  {
    recs := recs0;
    var cur, last := analysis.currentMonthSpend, analysis.lastMonthSpend;
    if last > 0.0 && cur < last {
      recs := recs + [InvestSavings(last - cur)];
    }
  }

  /** `generate_recommendations(df)`: run the blocks in the source's order, then the default. */
  method GenerateRecommendations(ts: seq<Txn>) returns (recs: seq<Advice>)
    ensures recs == Recommendations(ts)
  {
    var analysis := AnalyzeSpendingPatterns(ts);
    recs := AppendTrend([], analysis);
    assert recs == TrendAdvice(analysis);
    recs := AppendCategories(recs, analysis.categoryTrends, analysis.currentMonthSpend);
    assert recs == TrendAdvice(analysis) + (if analysis.currentMonthSpend > 0.0 then CategoryAdvice(analysis.categoryTrends, analysis.currentMonthSpend) else []);
    recs := AppendDaily(recs, analysis);
    recs := AppendSavings(recs, ts, analysis.currentMonthSpend);
    recs := AppendIrregular(recs, ts);
    recs := AppendInvestment(recs, analysis);
    assert recs == RulesFor(ts, analysis);
    if recs == [] {
      recs := [Balanced];
    }
  }
}
