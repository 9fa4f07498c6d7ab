/**
 * The transaction table after loading: rows of (Date, Category, Amount), the
 * calendar periods pandas derives from a date, and the aggregations over the
 * table that the recommender and the chatbot share.
 */
module Ledger {
  import opened Wrappers
  import opened Grouping

  type Month = m: int | 1 <= m <= 12 witness 1
  type Day = d: int | 1 <= d <= 31 witness 1

  /** A calendar date as pandas' `dt.date` gives it (the time of day is not kept). */
  datatype Date = Date(year: int, month: Month, day: Day)

  /** A monthly period, as `dt.to_period('M')` gives it. */
  datatype Period = Period(year: int, month: Month)

  /** One row of the loaded table. Amounts are exact decimals (rupees). */
  datatype Txn = Txn(date: Date, category: string, amount: real)

  function PeriodOf(d: Date): Period {
    Period(d.year, d.month)
  }

  /** Months counted from January of year 0: consecutive periods are consecutive numbers. */
  function Ordinal(p: Period): int {
    p.year * 12 + (p.month - 1)
  }

  lemma OrdinalInjective(p: Period, q: Period)
    requires Ordinal(p) == Ordinal(q)
    ensures p == q
  {
  }

  /** `period - 1`: the month before, rolling January back to December of the previous year. */
  function Prev(p: Period): (r: Period)
    ensures Ordinal(r) == Ordinal(p) - 1
    ensures p.month == 1 ==> r == Period(p.year - 1, 12)
    ensures p.month > 1 ==> r == Period(p.year, p.month - 1)
  {
    if p.month == 1 then Period(p.year - 1, 12) else Period(p.year, p.month - 1)
  }

  /**
   * `df['Date'].dt.to_period('M').max()`: the latest period present, or None
   * (pandas' NaT) for an empty table.
   */
  function LatestPeriod(ts: seq<Txn>): Option<Period> {
    if ts == [] then None
    else
      var here := PeriodOf(ts[0].date);
      match LatestPeriod(ts[1..])
      case None => Some(here)
      case Some(p) => if Ordinal(p) < Ordinal(here) then Some(here) else Some(p)
  }

  /** The latest period is absent only for an empty table; otherwise some row has it and no row is later. */
  lemma {:induction false} LatestPeriodIsMaximum(ts: seq<Txn>)
    ensures LatestPeriod(ts).None? <==> ts == []
    ensures LatestPeriod(ts).Some? ==>
              exists i :: 0 <= i < |ts| && PeriodOf(ts[i].date) == LatestPeriod(ts).value
    ensures LatestPeriod(ts).Some? ==>
              forall i :: 0 <= i < |ts| ==> Ordinal(PeriodOf(ts[i].date)) <= Ordinal(LatestPeriod(ts).value)
  {
    if ts != [] {
      LatestPeriodIsMaximum(ts[1..]);
      assert forall i :: 1 <= i < |ts| ==> ts[i] == ts[1..][i - 1];
      if LatestPeriod(ts[1..]).Some? {
        var p := LatestPeriod(ts[1..]).value;
        var i :| 0 <= i < |ts[1..]| && PeriodOf(ts[1..][i].date) == p;
        assert PeriodOf(ts[i + 1].date) == p;
      }
    }
  }

  /** `df[df['Date'].dt.to_period('M') == p]`: the rows dated in period `p`, in order. */
  function InPeriod(ts: seq<Txn>, p: Period): seq<Txn> {
    if ts == [] then []
    else (if PeriodOf(ts[0].date) == p then [ts[0]] else []) + InPeriod(ts[1..], p)
  }

  /**
   * The selected rows are exactly the rows of period `p`, each as many times
   * as the table holds it.
   */
  lemma {:induction false} InPeriodMembers(ts: seq<Txn>, p: Period)
    ensures forall t :: t in InPeriod(ts, p) <==> t in ts && PeriodOf(t.date) == p
    ensures forall t :: multiset(InPeriod(ts, p))[t] == if PeriodOf(t.date) == p then multiset(ts)[t] else 0
  {
    if ts != [] {
      InPeriodMembers(ts[1..], p);
      assert ts == [ts[0]] + ts[1..];
    }
  }

  /** No row of period `p` means no rows selected. */
  lemma {:induction false} InPeriodEmpty(ts: seq<Txn>, p: Period)
    requires forall i :: 0 <= i < |ts| ==> PeriodOf(ts[i].date) != p
    ensures InPeriod(ts, p) == []
  {
    if ts != [] {
      InPeriodEmpty(ts[1..], p);
    }
  }

  /** `df['Amount'].sum()` (0 for no rows). */
  function Total(ts: seq<Txn>): real {
    if ts == [] then 0.0 else ts[0].amount + Total(ts[1..])
  }

  /** `df[df['Category'] == c]['Amount'].sum()`. */
  function CategoryTotal(ts: seq<Txn>, c: string): real {
    if ts == [] then 0.0 else (if ts[0].category == c then ts[0].amount else 0.0) + CategoryTotal(ts[1..], c)
  }

  /** The amounts of the rows dated `d`, summed. */
  function DateTotal(ts: seq<Txn>, d: Date): real {
    if ts == [] then 0.0 else (if ts[0].date == d then ts[0].amount else 0.0) + DateTotal(ts[1..], d)
  }

  /** `c in df['Category'].unique()`. */
  predicate HasCategory(ts: seq<Txn>, c: string) {
    exists i | 0 <= i < |ts| :: ts[i].category == c
  }

  /** The distinct calendar dates present (`df['Date'].dt.date.unique()`). */
  function Dates(ts: seq<Txn>): set<Date> {
    set i | 0 <= i < |ts| :: ts[i].date
  }

  /** The distinct categories present. */
  function Categories(ts: seq<Txn>): set<string> {
    set i | 0 <= i < |ts| :: ts[i].category
  }

  // ---- the orders pandas sorts group keys by ----

  /** Python's `<` on strings: lexicographic by code point, a proper prefix first. */
  predicate StrLess(a: string, b: string) {
    if a == [] then b != []
    else if b == [] then false
    else if a[0] != b[0] then a[0] < b[0]
    else StrLess(a[1..], b[1..])
  }

  lemma {:induction false} StrLessIrreflexive(a: string)
    ensures !StrLess(a, a)
  {
    if a != [] { StrLessIrreflexive(a[1..]); }
  }

  lemma {:induction false} StrLessTransitive(a: string, b: string, c: string)
    requires StrLess(a, b) && StrLess(b, c)
    ensures StrLess(a, c)
  {
    if a != [] && b != [] && c != [] && a[0] == b[0] && b[0] == c[0] {
      StrLessTransitive(a[1..], b[1..], c[1..]);
    }
  }

  lemma {:induction false} StrLessTotal(a: string, b: string)
    requires a != b
    ensures StrLess(a, b) || StrLess(b, a)
  {
    if a != [] && b != [] && a[0] == b[0] {
      assert a == [a[0]] + a[1..] && b == [b[0]] + b[1..];
      StrLessTotal(a[1..], b[1..]);
    }
  }

  lemma StrLessIsStrictTotalOrder()
    ensures StrictTotalOrder(StrLess)
  {
    forall a: string ensures !StrLess(a, a) { StrLessIrreflexive(a); }
    forall a: string, b: string, c: string | StrLess(a, b) && StrLess(b, c) ensures StrLess(a, c) {
      StrLessTransitive(a, b, c);
    }
    forall a: string, b: string | a != b ensures StrLess(a, b) || StrLess(b, a) { StrLessTotal(a, b); }
  }

  /** Chronological order of dates. */
  predicate DateLess(a: Date, b: Date) {
    a.year < b.year || (a.year == b.year && (a.month < b.month || (a.month == b.month && a.day < b.day)))
  }

  lemma DateLessIsStrictTotalOrder()
    ensures StrictTotalOrder(DateLess)
  {
  }

  // ---- groupby-sums over the table ----

  function CategoryPairs(ts: seq<Txn>): (ps: seq<(string, real)>)
    ensures |ps| == |ts|
    ensures forall i :: 0 <= i < |ts| ==> ps[i] == (ts[i].category, ts[i].amount)
  {
    seq(|ts|, i requires 0 <= i < |ts| => (ts[i].category, ts[i].amount))
  }

  function DatePairs(ts: seq<Txn>): (ps: seq<(Date, real)>)
    ensures |ps| == |ts|
    ensures forall i :: 0 <= i < |ts| ==> ps[i] == (ts[i].date, ts[i].amount)
  {
    seq(|ts|, i requires 0 <= i < |ts| => (ts[i].date, ts[i].amount))
  }

  /** `df.groupby('Category')['Amount'].sum()`. */
  function CategoryBreakdown(ts: seq<Txn>): seq<Entry<string>> {
    GroupSum(CategoryPairs(ts), StrLess)
  }

  /** `df.groupby(df['Date'].dt.date)['Amount'].sum()`. */
  function DailySeries(ts: seq<Txn>): seq<Entry<Date>> {
    GroupSum(DatePairs(ts), DateLess)
  }

  lemma {:induction false} CategoryPairsSums(ts: seq<Txn>)
    ensures SumOf(CategoryPairs(ts)) == Total(ts)
    ensures forall c :: SumFor(CategoryPairs(ts), c) == CategoryTotal(ts, c)
    ensures KeysOf(CategoryPairs(ts)) == Categories(ts)
  {
    if ts != [] {
      CategoryPairsSums(ts[1..]);
      assert CategoryPairs(ts)[1..] == CategoryPairs(ts[1..]);
      assert Categories(ts) == {ts[0].category} + Categories(ts[1..]) by {
        forall c | c in Categories(ts) ensures c in {ts[0].category} + Categories(ts[1..]) {
          var i :| 0 <= i < |ts| && ts[i].category == c;
          if i > 0 { assert ts[1..][i - 1] == ts[i]; }
        }
        forall c | c in Categories(ts[1..]) ensures c in Categories(ts) {
          var i :| 0 <= i < |ts[1..]| && ts[1..][i].category == c;
          assert ts[i + 1].category == c;
        }
      }
    }
  }

  lemma {:induction false} DatePairsSums(ts: seq<Txn>)
    ensures SumOf(DatePairs(ts)) == Total(ts)
    ensures forall d :: SumFor(DatePairs(ts), d) == DateTotal(ts, d)
    ensures KeysOf(DatePairs(ts)) == Dates(ts)
  {
    if ts != [] {
      DatePairsSums(ts[1..]);
      assert DatePairs(ts)[1..] == DatePairs(ts[1..]);
      assert Dates(ts) == {ts[0].date} + Dates(ts[1..]) by {
        forall d | d in Dates(ts) ensures d in {ts[0].date} + Dates(ts[1..]) {
          var i :| 0 <= i < |ts| && ts[i].date == d;
          if i > 0 { assert ts[1..][i - 1] == ts[i]; }
        }
        forall d | d in Dates(ts[1..]) ensures d in Dates(ts) {
          var i :| 0 <= i < |ts[1..]| && ts[1..][i].date == d;
          assert ts[i + 1].date == d;
        }
      }
    }
  }

  /**
   * The category breakdown: ascending category names, one entry for each category
   * present, each holding that category's total, together summing to the table's total.
   */
  lemma CategoryBreakdownSpec(ts: seq<Txn>)
    ensures Ascending(CategoryBreakdown(ts), StrLess)
    ensures KeySet(CategoryBreakdown(ts)) == Categories(ts)
    ensures |CategoryBreakdown(ts)| == |Categories(ts)|
    ensures Totals(CategoryBreakdown(ts)) == Total(ts)
    ensures forall i :: 0 <= i < |CategoryBreakdown(ts)| ==>
              CategoryBreakdown(ts)[i].total == CategoryTotal(ts, CategoryBreakdown(ts)[i].key)
  {
    StrLessIsStrictTotalOrder();
    GroupSumSpec(CategoryPairs(ts), StrLess);
    CategoryPairsSums(ts);
  }

  /**
   * The daily series: one entry per distinct date, in date order, each
   * holding that date's total, together summing to the table's total.
   */
  lemma DailySeriesSpec(ts: seq<Txn>)
    ensures Ascending(DailySeries(ts), DateLess)
    ensures KeySet(DailySeries(ts)) == Dates(ts)
    ensures |DailySeries(ts)| == |Dates(ts)|
    ensures Totals(DailySeries(ts)) == Total(ts)
    ensures forall i :: 0 <= i < |DailySeries(ts)| ==>
              DailySeries(ts)[i].total == DateTotal(ts, DailySeries(ts)[i].key)
  {
    DateLessIsStrictTotalOrder();
    GroupSumSpec(DatePairs(ts), DateLess);
    DatePairsSums(ts);
  }
}
