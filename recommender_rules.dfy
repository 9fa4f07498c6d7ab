/**
 * What `generate_recommendations` promises, rule by rule: when each kind of
 * advice appears, with which numbers, how often, in which order, and when the
 * default message stands alone.
 */
module RecommenderRules {
  import opened Grouping
  import opened Ledger
  import opened Recommender

  /** The advice of rank `k` that the rules emit for the table and its analysis; rank 6 is the default. */
  function Block(ts: seq<Txn>, a: Analysis, k: nat): seq<Advice>
    requires k <= 6
  {
    if k == 0 then TrendAdvice(a)
    else if k == 1 then (if a.currentMonthSpend > 0.0 then CategoryAdvice(a.categoryTrends, a.currentMonthSpend) else [])
    else if k == 2 then DailyAdvice(a)
    else if k == 3 then SavingsAdvice(ts, a.currentMonthSpend)
    else if k == 4 then IrregularAdvice(ts)
    else if k == 5 then InvestmentAdvice(a)
    else if RulesFor(ts, a) == [] then [Balanced] else []
  }

  /** Every item of `s` has rank `k`. */
  predicate AllRank(s: seq<Advice>, k: nat) {
    forall x :: x in s ==> Rank(x) == k
  }

  /** The items of `s` appear in non-decreasing rank. */
  predicate RankSorted(s: seq<Advice>) {
    forall i, j :: 0 <= i < j < |s| ==> Rank(s[i]) <= Rank(s[j])
  }

  /** How many concentration notices in `s` name category `c`. */
  function Mentions(s: seq<Advice>, c: string): nat {
    if s == [] then 0
    else (if s[0].CategoryHigh? && s[0].category == c then 1 else 0) + Mentions(s[1..], c)
  }

  // ---- the shape of each block ----

  lemma {:induction false} CategoryAdviceRank(es: seq<Entry<string>>, total: real)
    requires total > 0.0
    ensures AllRank(CategoryAdvice(es, total), 1)
  {
    if es != [] {
      CategoryAdviceRank(es[..|es| - 1], total);
    }
  }

  /** Each rule emits only its own kind of advice. */
  lemma BlockRank(ts: seq<Txn>, a: Analysis, k: nat)
    requires k <= 6
    ensures AllRank(Block(ts, a, k), k)
  {
    if k == 1 && a.currentMonthSpend > 0.0 {
      CategoryAdviceRank(a.categoryTrends, a.currentMonthSpend);
    }
  }

  /** The rules' list is the six blocks in order. */
  lemma RulesAreBlocks(ts: seq<Txn>, a: Analysis)
    ensures RulesFor(ts, a)
              == Block(ts, a, 0) + Block(ts, a, 1) + Block(ts, a, 2) + Block(ts, a, 3) + Block(ts, a, 4) + Block(ts, a, 5)
  {
  }

  /**
   * An item is recommended exactly when the block of its kind holds it, so
   * each rule can be read by itself.
   */
  lemma MembershipByKind(ts: seq<Txn>, a: Analysis, x: Advice)
    ensures x in RecommendationsFor(ts, a) <==> x in Block(ts, a, Rank(x))
  {
    RulesAreBlocks(ts, a);
    BlockRank(ts, a, 0);
    BlockRank(ts, a, 1);
    BlockRank(ts, a, 2);
    BlockRank(ts, a, 3);
    BlockRank(ts, a, 4);
    BlockRank(ts, a, 5);
  }

  // ---- order and the default ----

  lemma ConcatSorted(s: seq<Advice>, t: seq<Advice>, k: nat)
    requires RankSorted(s)
    requires forall x :: x in s ==> Rank(x) <= k
    requires AllRank(t, k)
    ensures RankSorted(s + t)
    ensures forall x :: x in s + t ==> Rank(x) <= k
  {
    var u := s + t;
    forall i, j | 0 <= i < j < |u| ensures Rank(u[i]) <= Rank(u[j]) {
      if j < |s| {
        assert u[i] == s[i] && u[j] == s[j];
      } else if i < |s| {
        assert u[i] in s && u[j] in t;
      } else {
        assert u[i] in t && u[j] in t;
      }
    }
  }

  /** Items appear in the fixed order: trend, categories, daily, savings, irregular, investment. */
  lemma RecommendationsOrdered(ts: seq<Txn>, a: Analysis)
    ensures RankSorted(RecommendationsFor(ts, a))
  {
    RulesAreBlocks(ts, a);
    BlockRank(ts, a, 0);
    BlockRank(ts, a, 1);
    BlockRank(ts, a, 2);
    BlockRank(ts, a, 3);
    BlockRank(ts, a, 4);
    BlockRank(ts, a, 5);
    var b0 := Block(ts, a, 0);
    assert RankSorted(b0) by {
      forall i, j | 0 <= i < j < |b0| ensures Rank(b0[i]) <= Rank(b0[j]) {
        assert b0[i] in b0 && b0[j] in b0;
      }
    }
    var s1 := b0 + Block(ts, a, 1);
    ConcatSorted(b0, Block(ts, a, 1), 1);
    var s2 := s1 + Block(ts, a, 2);
    ConcatSorted(s1, Block(ts, a, 2), 2);
    var s3 := s2 + Block(ts, a, 3);
    ConcatSorted(s2, Block(ts, a, 3), 3);
    var s4 := s3 + Block(ts, a, 4);
    ConcatSorted(s3, Block(ts, a, 4), 4);
    ConcatSorted(s4, Block(ts, a, 5), 5);
  }

  /**
   * The list is never empty, and the "balanced" message appears exactly when
   * no rule fired, and then alone.
   */
  lemma DefaultOnlyAlone(ts: seq<Txn>, a: Analysis)
    ensures RecommendationsFor(ts, a) != []
    ensures Balanced in RecommendationsFor(ts, a) <==> RulesFor(ts, a) == []
    ensures Balanced in RecommendationsFor(ts, a) ==> RecommendationsFor(ts, a) == [Balanced]
  {
    MembershipByKind(ts, a, Balanced);
  }

  // ---- one lemma per rule ----


  /**
   * The trend rule: the first-month notice exactly when last month's total is
   * not positive; an increase (with its percentage) exactly when last month is
   * positive and this month is higher; a decrease likewise; no trend item on
   * equality.
   */
  lemma TrendRule(ts: seq<Txn>, a: Analysis)
    ensures FirstMonthOfTracking in RecommendationsFor(ts, a) <==> a.lastMonthSpend <= 0.0
    ensures var cur, last := a.currentMonthSpend, a.lastMonthSpend;
            forall p :: SpendingIncreased(p) in RecommendationsFor(ts, a) <==>
                          last > 0.0 && cur > last && p == (cur - last) / last * 100.0
    ensures var cur, last := a.currentMonthSpend, a.lastMonthSpend;
            forall p :: SpendingDecreased(p) in RecommendationsFor(ts, a) <==>
                          last > 0.0 && cur < last && p == (last - cur) / last * 100.0
    ensures (forall x :: x in RecommendationsFor(ts, a) ==> Rank(x) != 0) <==>
              a.lastMonthSpend > 0.0 && a.currentMonthSpend == a.lastMonthSpend
  {
    TrendMembers(ts, a);
    TrendAdviceCases(a);
    var t := TrendAdvice(a);
    if t != [] {
      assert t[0] in RecommendationsFor(ts, a);
    }
  }

  /** What the trend rule by itself yields, case by case. */
  lemma TrendAdviceCases(a: Analysis)
    ensures var cur, last := a.currentMonthSpend, a.lastMonthSpend;
            TrendAdvice(a) == if last <= 0.0 then [FirstMonthOfTracking]
                              else if cur > last then [SpendingIncreased((cur - last) / last * 100.0)]
                              else if cur < last then [SpendingDecreased((last - cur) / last * 100.0)]
                              else []
  {
  }

  /** The trend notices among the recommendations are those of the trend rule. */
  lemma TrendMembers(ts: seq<Txn>, a: Analysis)
    ensures forall x :: Rank(x) == 0 ==> (x in RecommendationsFor(ts, a) <==> x in TrendAdvice(a))
  {
    forall x | Rank(x) == 0 ensures x in RecommendationsFor(ts, a) <==> x in TrendAdvice(a) {
      MembershipByKind(ts, a, x);
    }
  }

  lemma {:induction false} CategoryAdviceMembers(es: seq<Entry<string>>, total: real, c: string, p: real)
    requires total > 0.0
    ensures CategoryHigh(c, p) in CategoryAdvice(es, total) <==>
              exists i :: 0 <= i < |es| && es[i].key == c && Concentrated(es[i].total, total) && p == es[i].total / total * 100.0
  {
    if es != [] {
      var init := es[..|es| - 1];
      CategoryAdviceMembers(init, total, c, p);
      assert forall i :: 0 <= i < |init| ==> init[i] == es[i];
    }
  }

  lemma {:induction false} MentionsConcat(s: seq<Advice>, t: seq<Advice>, c: string)
    ensures Mentions(s + t, c) == Mentions(s, c) + Mentions(t, c)
  {
    if s == [] {
      assert s + t == t;
    } else {
      assert (s + t)[0] == s[0];
      assert (s + t)[1..] == s[1..] + t;
      MentionsConcat(s[1..], t, c);
    }
  }

  lemma {:induction false} MentionsOtherKinds(s: seq<Advice>, k: nat, c: string)
    requires AllRank(s, k) && k != 1
    ensures Mentions(s, c) == 0
  {
    if s != [] {
      assert s[0] in s;
      MentionsOtherKinds(s[1..], k, c);
    }
  }

  /** Over entries with distinct keys, a category is mentioned once if it is concentrated, else never. */
  lemma {:induction false} CategoryAdviceMentions(es: seq<Entry<string>>, total: real, c: string)
    requires total > 0.0
    requires forall i, j :: 0 <= i < j < |es| ==> es[i].key != es[j].key
    ensures Mentions(CategoryAdvice(es, total), c)
              == if exists i :: 0 <= i < |es| && es[i].key == c && Concentrated(es[i].total, total) then 1 else 0
  {
    if es != [] {
      var init, e := es[..|es| - 1], es[|es| - 1];
      CategoryAdviceMentions(init, total, c);
      var tail: seq<Advice> := if Concentrated(e.total, total) then [CategoryHigh(e.key, e.total / total * 100.0)] else [];
      MentionsConcat(CategoryAdvice(init, total), tail, c);
      assert forall i :: 0 <= i < |init| ==> init[i] == es[i];
      assert tail != [] ==> Mentions(tail, c) == (if e.key == c then 1 else 0) + Mentions(tail[1..], c);
      if e.key == c {
        assert forall i :: 0 <= i < |init| ==> init[i].key != c;
      }
    }
  }

  /** Only the category block names categories. */
  lemma MentionsAreCategoryBlock(ts: seq<Txn>, a: Analysis, c: string)
    ensures Mentions(RecommendationsFor(ts, a), c) == Mentions(Block(ts, a, 1), c)
  {
    RulesAreBlocks(ts, a);
    var b := Block(ts, a, 1);
    BlockRank(ts, a, 0);
    BlockRank(ts, a, 2);
    BlockRank(ts, a, 3);
    BlockRank(ts, a, 4);
    BlockRank(ts, a, 5);
    MentionsOtherKinds(Block(ts, a, 0), 0, c);
    MentionsOtherKinds(Block(ts, a, 2), 2, c);
    MentionsOtherKinds(Block(ts, a, 3), 3, c);
    MentionsOtherKinds(Block(ts, a, 4), 4, c);
    MentionsOtherKinds(Block(ts, a, 5), 5, c);
    var s1 := Block(ts, a, 0) + b;
    MentionsConcat(Block(ts, a, 0), b, c);
    var s2 := s1 + Block(ts, a, 2);
    MentionsConcat(s1, Block(ts, a, 2), c);
    var s3 := s2 + Block(ts, a, 3);
    MentionsConcat(s2, Block(ts, a, 3), c);
    var s4 := s3 + Block(ts, a, 4);
    MentionsConcat(s3, Block(ts, a, 4), c);
    MentionsConcat(s4, Block(ts, a, 5), c);
    if RulesFor(ts, a) == [] {
      assert [Balanced][1..] == [];
      assert |b| == 0;
    }
  }

  /**
   * The concentration rule over the analysis: with a positive month total,
   * category `c` is named, with its share, exactly when its entry's share is
   * strictly above 30%; with distinct category keys it is named at most once;
   * with a month total that is not positive no category is named.
   */
  lemma ConcentrationRule(ts: seq<Txn>, a: Analysis, c: string)
    requires Ascending(a.categoryTrends, StrLess)
    ensures var cur, es := a.currentMonthSpend, a.categoryTrends;
            forall p :: CategoryHigh(c, p) in RecommendationsFor(ts, a) <==>
                          cur > 0.0 &&
                          exists i :: 0 <= i < |es| && es[i].key == c && Concentrated(es[i].total, cur) && p == es[i].total / cur * 100.0
    ensures var cur, es := a.currentMonthSpend, a.categoryTrends;
            Mentions(RecommendationsFor(ts, a), c)
              == if cur > 0.0 && exists i :: 0 <= i < |es| && es[i].key == c && Concentrated(es[i].total, cur) then 1 else 0
  {
    var cur, es := a.currentMonthSpend, a.categoryTrends;
    forall p ensures CategoryHigh(c, p) in RecommendationsFor(ts, a) <==> CategoryHigh(c, p) in Block(ts, a, 1) {
      MembershipByKind(ts, a, CategoryHigh(c, p));
    }
    if cur > 0.0 {
      forall p ensures CategoryHigh(c, p) in Block(ts, a, 1) <==>
                       exists i :: 0 <= i < |es| && es[i].key == c && Concentrated(es[i].total, cur) && p == es[i].total / cur * 100.0 {
        CategoryAdviceMembers(es, cur, c, p);
      }
    }
    MentionsAreCategoryBlock(ts, a, c);
    if cur > 0.0 {
      StrLessIsStrictTotalOrder();
      forall i, j | 0 <= i < j < |es| ensures es[i].key != es[j].key {
        assert StrLess(es[i].key, es[j].key);
      }
      CategoryAdviceMentions(es, cur, c);
    }
  }

  /**
   * The concentration rule for the table: category `c` is named, with its
   * share of the current month's total, exactly when that total is positive,
   * `c` has current-month rows and its share is strictly above 30%; and it is
   * named at most once.
   */
  lemma ConcentrationRuleForTable(ts: seq<Txn>, c: string)
    ensures var a, rows := AnalyzeSpendingPatterns(ts), CurrentMonthRows(ts);
            var cur := a.currentMonthSpend;
            forall p :: CategoryHigh(c, p) in Recommendations(ts) <==>
                          cur > 0.0 && c in Categories(rows) && Concentrated(CategoryTotal(rows, c), cur)
                          && p == CategoryTotal(rows, c) / cur * 100.0
    ensures Mentions(Recommendations(ts), c) <= 1
  {
    var a, rows := AnalyzeSpendingPatterns(ts), CurrentMonthRows(ts);
    AnalysisMeaning(ts);
    ConcentrationRule(ts, a, c);
    forall p ensures CategoryHigh(c, p) in Recommendations(ts) <==>
                     a.currentMonthSpend > 0.0 && c in Categories(rows) && Concentrated(CategoryTotal(rows, c), a.currentMonthSpend)
                     && p == CategoryTotal(rows, c) / a.currentMonthSpend * 100.0 {
      if a.currentMonthSpend > 0.0 {
        EntryShare(a.categoryTrends, rows, c, a.currentMonthSpend, p);
      }
    }
  }

  /** An entry of a breakdown of `rows` holds the category's total in `rows`, and every category has one. */
  lemma EntryShare(es: seq<Entry<string>>, rows: seq<Txn>, c: string, cur: real, p: real)
    requires cur > 0.0 && KeySet(es) == Categories(rows)
    requires forall e :: e in es ==> e.total == CategoryTotal(rows, e.key)
    ensures (exists i :: 0 <= i < |es| && es[i].key == c && Concentrated(es[i].total, cur) && p == es[i].total / cur * 100.0)
            <==> c in Categories(rows) && Concentrated(CategoryTotal(rows, c), cur) && p == CategoryTotal(rows, c) / cur * 100.0
  {
    KeySetIndex(es);
    assert forall i :: 0 <= i < |es| ==> es[i] in es;
  }

  /** A category at exactly 30% of the month's total is never named. */
  lemma ThirtyPercentIsNotHigh(ts: seq<Txn>, a: Analysis, c: string)
    requires Ascending(a.categoryTrends, StrLess)
    requires forall e :: e in a.categoryTrends && e.key == c ==> e.total * 100.0 == 30.0 * a.currentMonthSpend
    ensures Mentions(RecommendationsFor(ts, a), c) == 0
  {
    ConcentrationRule(ts, a, c);
    assert forall i :: 0 <= i < |a.categoryTrends| ==> a.categoryTrends[i] in a.categoryTrends;
  }

  /** The daily rule: the high-daily-spend notice, carrying the average, exactly when the average exceeds 2000. */
  lemma DailyRule(ts: seq<Txn>, a: Analysis)
    ensures forall p :: HighDailySpending(p) in RecommendationsFor(ts, a) <==> a.dailyAverage > 2000.0 && p == a.dailyAverage
  {
    forall p ensures HighDailySpending(p) in RecommendationsFor(ts, a) <==> a.dailyAverage > 2000.0 && p == a.dailyAverage {
      MembershipByKind(ts, a, HighDailySpending(p));
    }
  }

  /**
   * The savings rule: the start-tracking notice exactly when no row anywhere
   * has category "Savings"; otherwise a low-rate warning, carrying the rate,
   * exactly when this month's total is positive and all Savings rows come to
   * less than 20% of it.
   */
  lemma SavingsRule(ts: seq<Txn>, a: Analysis)
    ensures StartTrackingSavings in RecommendationsFor(ts, a) <==> !HasCategory(ts, "Savings")
    ensures var cur, savings := a.currentMonthSpend, CategoryTotal(ts, "Savings");
            forall p :: LowSavingsRate(p) in RecommendationsFor(ts, a) <==>
                          HasCategory(ts, "Savings") && cur > 0.0 && LowRate(savings, cur) && p == savings / cur * 100.0
  {
    StartTrackingRule(ts, a);
    forall p {
      LowSavingsRule(ts, a, p);
    }
  }

  lemma StartTrackingRule(ts: seq<Txn>, a: Analysis)
    ensures StartTrackingSavings in RecommendationsFor(ts, a) <==> !HasCategory(ts, "Savings")
  {
    MembershipByKind(ts, a, StartTrackingSavings);
  }

  lemma LowSavingsRule(ts: seq<Txn>, a: Analysis, p: real)
    ensures var cur, savings := a.currentMonthSpend, CategoryTotal(ts, "Savings");
            LowSavingsRate(p) in RecommendationsFor(ts, a) <==>
              HasCategory(ts, "Savings") && cur > 0.0 && LowRate(savings, cur) && p == savings / cur * 100.0
  {
    MembershipByKind(ts, a, LowSavingsRate(p));
  }

  /**
   * The irregularity rule, over the whole table: the notice exactly when
   * there are at least two distinct dates and the sample variance of the
   * per-date totals exceeds 2000 squared.
   */
  lemma IrregularRule(ts: seq<Txn>, a: Analysis)
    ensures |DailySeries(ts)| == |Dates(ts)|
    ensures IrregularSpending in RecommendationsFor(ts, a) <==>
              |DailySeries(ts)| >= 2 && SampleVariance(DailySeries(ts)) > 2000.0 * 2000.0
  {
    DailySeriesSpec(ts);
    MembershipByKind(ts, a, IrregularSpending);
  }

  /** The investment rule: the notice, carrying last month minus this month, exactly when spending fell against a positive last month. */
  lemma InvestmentRule(ts: seq<Txn>, a: Analysis)
    ensures var cur, last := a.currentMonthSpend, a.lastMonthSpend;
            forall p :: InvestSavings(p) in RecommendationsFor(ts, a) <==> last > 0.0 && cur < last && p == last - cur
  {
    forall p {
      InvestmentMember(ts, a, p);
    }
  }

  lemma InvestmentMember(ts: seq<Txn>, a: Analysis, p: real)
    ensures var cur, last := a.currentMonthSpend, a.lastMonthSpend;
            InvestSavings(p) in RecommendationsFor(ts, a) <==> last > 0.0 && cur < last && p == last - cur
  {
    MembershipByKind(ts, a, InvestSavings(p));
    assert Block(ts, a, Rank(InvestSavings(p))) == InvestmentAdvice(a);
  }
}
