/**
 * The chat assistant's answers (`handle_query` and the two summaries it
 * draws on). The intent classifier's reply and the investment adviser's
 * reply come from outside and are inputs: `None` stands for a call that
 * raised. The fixed wording of each answer is not modelled; an answer is
 * identified by which template it fills and the values it fills it with.
 */
module Chatbot {
  import opened Wrappers
  import opened Text
  import opened Grouping
  import opened Ledger
  import opened Currency
  import opened Intent

  /** The three formatted strings a summary holds (total, daily average, category breakdown). */
  datatype Insights = Insights(total: string, dailyAverage: string, breakdown: string)

  /** The figures a summary is formatted from. */
  datatype Figures = Figures(total: real, dailyAverage: real, categories: seq<Entry<string>>)

  /** One line of a breakdown: `f"- {k}: {format_currency(v)}"`. */
  function BreakdownLine(e: Entry<string>): string {
    "- " + e.key + ": " + FormatCurrency(e.total)
  }

  /** The breakdown's lines, one per entry, in the entries' order. */
  function BreakdownLines(g: seq<Entry<string>>): (lines: seq<string>)
    ensures |lines| == |g|
  {
    seq(|g|, i requires 0 <= i < |g| => BreakdownLine(g[i]))
  }

  /** The formatted summary of a set of figures. */
  function Render(f: Figures): Insights {
    Insights(FormatCurrency(f.total), FormatCurrency(f.dailyAverage), JoinLines(BreakdownLines(f.categories)))
  }

  /**
   * Reading a breakdown back: when no key holds a newline, the breakdown
   * text splits into exactly one line per entry, in order; an empty
   * breakdown is the empty text.
   */
  lemma BreakdownReadsBack(g: seq<Entry<string>>)
    requires forall i :: 0 <= i < |g| ==> '\n' !in g[i].key
    ensures g == [] ==> JoinLines(BreakdownLines(g)) == ""
    ensures g != [] ==> SplitLines(JoinLines(BreakdownLines(g))) == BreakdownLines(g)
  {
    if g != [] {
      var lines := BreakdownLines(g);
      forall i | 0 <= i < |lines| ensures '\n' !in lines[i] {
        FormatSingleLine(g[i].total);
        assert lines[i] == "- " + g[i].key + ": " + FormatCurrency(g[i].total);
      }
      SplitJoinLines(lines);
    }
  }

  // ---- get_savings_insights ----

  /** The whole table's figures: its total, that total over 30 days, and the category totals. */
  function SavingsFigures(ts: seq<Txn>): Figures {
    Figures(Total(ts), Total(ts) / 30.0, CategoryBreakdown(ts))
  }

  function GetSavingsInsights(ts: seq<Txn>): Insights {
    Render(SavingsFigures(ts))
  }

  /**
   * The savings figures: the total of every amount, a daily average that is
   * that total spread over 30 days, and one entry per category in ascending
   * order of name, each holding the category's total, the entries together
   * adding up to the total.
   */
  lemma SavingsFiguresSpec(ts: seq<Txn>)
    ensures SavingsFigures(ts).total == Total(ts)
    ensures IsAverage(SavingsFigures(ts).dailyAverage, 30, Total(ts))
    ensures Ascending(SavingsFigures(ts).categories, StrLess)
    ensures KeySet(SavingsFigures(ts).categories) == Categories(ts)
    ensures |SavingsFigures(ts).categories| == |Categories(ts)|
    ensures Totals(SavingsFigures(ts).categories) == Total(ts)
    ensures forall i :: 0 <= i < |SavingsFigures(ts).categories| ==>
              SavingsFigures(ts).categories[i].total == CategoryTotal(ts, SavingsFigures(ts).categories[i].key)
  {
    CategoryBreakdownSpec(ts);
  }

  /**
   * The savings breakdown text, split at its newlines, has one line per
   * category of the table (when no category name holds a newline), each
   * naming the category and its formatted total, in ascending order of name.
   */
  lemma SavingsBreakdownLines(ts: seq<Txn>)
    requires ts != []
    requires forall i :: 0 <= i < |ts| ==> '\n' !in ts[i].category
    ensures |SplitLines(GetSavingsInsights(ts).breakdown)| == |CategoryBreakdown(ts)| == |Categories(ts)|
    ensures forall i :: 0 <= i < |CategoryBreakdown(ts)| ==>
              SplitLines(GetSavingsInsights(ts).breakdown)[i]
              == "- " + CategoryBreakdown(ts)[i].key + ": " + FormatCurrency(CategoryTotal(ts, CategoryBreakdown(ts)[i].key))
  {
    var g := CategoryBreakdown(ts);
    CategoryBreakdownSpec(ts);
    KeySetIndex(g);
    forall i | 0 <= i < |g| ensures '\n' !in g[i].key {
      assert g[i].key in Categories(ts);
    }
    assert ts[0].category in Categories(ts);
    BreakdownReadsBack(g);
  }

  // ---- get_monthly_spending ----

  /** The lower-case English month names, in calendar order; `strftime('%B').lower()` of month m is the (m-1)-th. */
  const MonthNames: seq<string> := ["january", "february", "march", "april", "may", "june",
                                    "july", "august", "september", "october", "november", "december"]

  /** The rows dated in the named month, in any year, the name compared in lower case. */
  function MonthRows(ts: seq<Txn>, name: string): seq<Txn> {
    RowsNamed(ts, Lower(name))
  }

  /** The row is dated in a month whose lower-case English name is `lname`. */
  predicate NamedMonth(t: Txn, lname: string) {
    MonthNames[t.date.month - 1] == lname
  }

  /** The rows whose month's lower-case English name is `lname`, in order. */
  function RowsNamed(ts: seq<Txn>, lname: string): seq<Txn> {
    if ts == [] then []
    else
      var t := ts[|ts| - 1];
      RowsNamed(ts[..|ts| - 1], lname) + (if NamedMonth(t, lname) then [t] else [])
  }

  /**
   * A row is selected exactly when it is in the table and its month's name is
   * the given name in lower case, and then as many times as the table holds it.
   */
  lemma {:induction false} MonthRowsMembers(ts: seq<Txn>, name: string)
    ensures forall t :: t in MonthRows(ts, name) <==> t in ts && MonthNames[t.date.month - 1] == Lower(name)
    ensures forall t :: multiset(MonthRows(ts, name))[t]
                        == if MonthNames[t.date.month - 1] == Lower(name) then multiset(ts)[t] else 0
  {
    RowsNamedCount(ts, Lower(name));
    forall t ensures t in MonthRows(ts, name) <==> t in ts && MonthNames[t.date.month - 1] == Lower(name) {
      assert t in MonthRows(ts, name) <==> t in multiset(MonthRows(ts, name));
      assert t in ts <==> t in multiset(ts);
    }
  }

  lemma {:induction false} RowsNamedCount(ts: seq<Txn>, lname: string)
    ensures forall t :: multiset(RowsNamed(ts, lname))[t] == if NamedMonth(t, lname) then multiset(ts)[t] else 0
  {
    if ts != [] {
      var init, last := ts[..|ts| - 1], ts[|ts| - 1];
      RowsNamedCount(init, lname);
      assert ts == init + [last];
    }
  }

  /** The month's figures, or nothing when no row is dated in that month. */
  function MonthFigures(ts: seq<Txn>, name: string): Option<Figures> {
    var rows := MonthRows(ts, name);
    if rows == [] then None
    else
      assert rows[0].date in Dates(rows);
      Some(Figures(Total(rows), Total(rows) / |Dates(rows)| as real, CategoryBreakdown(rows)))
  }

  function GetMonthlySpending(ts: seq<Txn>, name: string): Option<Insights> {
    match MonthFigures(ts, name)
    case None => None
    case Some(f) => Some(Render(f))
  }

  /**
   * The monthly summary exists exactly when some row is dated in the month;
   * its total is the month's total, formatted, and its breakdown text, split
   * at its newlines, has one line per category of the month's rows (when no
   * category name holds a newline), each naming the category and its
   * formatted total over those rows, in ascending order of name.
   */
  lemma MonthBreakdownLines(ts: seq<Txn>, name: string)
    requires forall i :: 0 <= i < |ts| ==> '\n' !in ts[i].category
    ensures GetMonthlySpending(ts, name).None? <==> MonthRows(ts, name) == []
    ensures GetMonthlySpending(ts, name).Some? ==>
              GetMonthlySpending(ts, name).value.total == FormatCurrency(Total(MonthRows(ts, name)))
    ensures GetMonthlySpending(ts, name).Some? ==>
              |SplitLines(GetMonthlySpending(ts, name).value.breakdown)| == |CategoryBreakdown(MonthRows(ts, name))|
              == |Categories(MonthRows(ts, name))|
    ensures GetMonthlySpending(ts, name).Some? ==>
              forall i :: 0 <= i < |CategoryBreakdown(MonthRows(ts, name))| ==>
                SplitLines(GetMonthlySpending(ts, name).value.breakdown)[i]
                == "- " + CategoryBreakdown(MonthRows(ts, name))[i].key + ": "
                   + FormatCurrency(CategoryTotal(MonthRows(ts, name), CategoryBreakdown(MonthRows(ts, name))[i].key))
  {
    var rows := MonthRows(ts, name);
    if rows != [] {
      MonthRowsMembers(ts, name);
      forall i | 0 <= i < |rows| ensures '\n' !in rows[i].category {
        assert rows[i] in rows;
        var j :| 0 <= j < |ts| && ts[j] == rows[i];
      }
      SavingsBreakdownLines(rows);
      assert GetMonthlySpending(ts, name).value.breakdown == GetSavingsInsights(rows).breakdown;
    }
  }

  /**
   * The monthly summary exists exactly when some row is dated in the month;
   * it then holds the month's total, a daily average that is that total
   * spread over the distinct dates on which the month has rows, and the
   * month's category totals in ascending order of name, one per category
   * of the month's rows, each holding that category's total over them.
   */
  lemma MonthFiguresSpec(ts: seq<Txn>, name: string)
    ensures MonthFigures(ts, name).None? <==> forall i :: 0 <= i < |ts| ==> MonthNames[ts[i].date.month - 1] != Lower(name)
    ensures MonthFigures(ts, name).Some? ==> |Dates(MonthRows(ts, name))| >= 1
    ensures MonthFigures(ts, name).Some? ==> MonthFigures(ts, name).value.total == Total(MonthRows(ts, name))
    ensures MonthFigures(ts, name).Some? ==>
              IsAverage(MonthFigures(ts, name).value.dailyAverage, |Dates(MonthRows(ts, name))|, Total(MonthRows(ts, name)))
    ensures MonthFigures(ts, name).Some? ==> Ascending(MonthFigures(ts, name).value.categories, StrLess)
    ensures MonthFigures(ts, name).Some? ==> KeySet(MonthFigures(ts, name).value.categories) == Categories(MonthRows(ts, name))
    ensures MonthFigures(ts, name).Some? ==> Totals(MonthFigures(ts, name).value.categories) == Total(MonthRows(ts, name))
    ensures MonthFigures(ts, name).Some? ==> |MonthFigures(ts, name).value.categories| == |Categories(MonthRows(ts, name))|
    ensures MonthFigures(ts, name).Some? ==>
              forall i :: 0 <= i < |MonthFigures(ts, name).value.categories| ==>
                MonthFigures(ts, name).value.categories[i].total
                  == CategoryTotal(MonthRows(ts, name), MonthFigures(ts, name).value.categories[i].key)
  {
    var rows := MonthRows(ts, name);
    MonthRowsMembers(ts, name);
    if rows == [] {
      assert MonthFigures(ts, name).None?;
      forall i | 0 <= i < |ts| ensures MonthNames[ts[i].date.month - 1] != Lower(name) {
        assert ts[i] !in rows;
      }
    } else {
      assert rows[0] in rows;
      assert rows[0].date in Dates(rows);
      SpreadBack(MonthFigures(ts, name).value.dailyAverage, Total(MonthRows(ts, name)), |Dates(MonthRows(ts, name))|);
      CategoryBreakdownSpec(rows);
    }
  }

  /** `average` is `total` spread evenly over `n` days. */
  predicate IsAverage(average: real, n: nat, total: real) {
    average * n as real == total
  }

  /** An average spread back over its days gives the total back. */
  lemma SpreadBack(average: real, total: real, n: nat)
    requires n > 0 && average == total / n as real
    ensures IsAverage(average, n, total)
  {
  }

  // ---- handle_query ----

  /**
   * Which answer a query gets, with the figures its template shows; the
   * template shows them formatted as `Render` formats them.
   */
  datatype Answer =
    | MonthReport(month: string, figures: Figures)
    | NoMonthData(month: string)
    | ReductionPlan(figures: Figures)
    | InvestmentReply(text: string)
    | InvestmentApology
    | SavingsAnalysis(figures: Figures)
    | Help

  const ReductionWords: seq<string> := ["reduce", "cut", "save", "spending", "expenses", "budget"]
  const InvestmentWords: seq<string> := ["invest", "investment", "stock", "stocks", "market", "trading"]

  /** The first month, from the i-th on, whose name occurs in `q`. */
  function FirstMonth(q: string, i: nat): Option<nat>
    requires i <= 12
    decreases 12 - i
  {
    if i == 12 then None
    else if Contains(q, MonthNames[i]) then Some(i)
    else FirstMonth(q, i + 1)
  }

  /** `FirstMonth` finds the earliest month name that occurs, and finds none only when none occurs. */
  lemma {:induction false} FirstMonthSpec(q: string, i: nat)
    requires i <= 12
    decreases 12 - i
    ensures FirstMonth(q, i).None? <==> forall j :: i <= j < 12 ==> !Contains(q, MonthNames[j])
    ensures FirstMonth(q, i).Some? ==>
              var k := FirstMonth(q, i).value;
              i <= k < 12 && Contains(q, MonthNames[k]) && forall j :: i <= j < k ==> !Contains(q, MonthNames[j])
  {
    if i < 12 && !Contains(q, MonthNames[i]) {
      FirstMonthSpec(q, i + 1);
    }
  }

  /** The classifier's intent, `get_intent(query)['intent']`. */
  function IntentOf(reply: Option<string>, parse: string -> Option<Json>): Json {
    GetIntent(reply, parse).fields["intent"]
  }

  /** The answer to a query, given the two outside replies. */
  function Respond(ts: seq<Txn>, query: string, reply: Option<string>, parse: string -> Option<Json>,
                   advice: Option<string>): Answer
  {
    var q := Lower(query);
    match FirstMonth(q, 0)
    case Some(k) => MonthAnswer(ts, k)
    case None => KeywordAnswer(ts, q, IntentOf(reply, parse), advice)
  }

  /** The answer for the k-th month: its report, or the no-data answer when no row is dated in it. */
  function MonthAnswer(ts: seq<Txn>, k: nat): Answer
    requires k < 12
  {
    match MonthFigures(ts, MonthNames[k])
    case Some(f) => MonthReport(Capitalize(MonthNames[k]), f)
    case None => NoMonthData(Capitalize(MonthNames[k]))
  }

  /** The answer when no month is named: reduction words first, then investment words, then the classifier. */
  function KeywordAnswer(ts: seq<Txn>, q: string, intent: Json, advice: Option<string>): Answer {
    if ContainsAny(q, ReductionWords) then ReductionPlan(SavingsFigures(ts))
    else if ContainsAny(q, InvestmentWords) then
      (match advice
       case Some(text) => InvestmentReply(text)
       case None => InvestmentApology)
    else if intent == JString("savings_analysis") then SavingsAnalysis(SavingsFigures(ts))
    else Help
  }

  /** `handle_query`: the month names are tried in calendar order and the first that occurs decides. */
  method HandleQuery(ts: seq<Txn>, query: string, reply: Option<string>, parse: string -> Option<Json>,
                     advice: Option<string>) returns (answer: Answer)
    ensures answer == Respond(ts, query, reply, parse, advice)
  {
    var intent := IntentOf(reply, parse);
    var q := Lower(query);
    for i := 0 to 12
      invariant FirstMonth(q, i) == FirstMonth(q, 0)
    {
      var month := MonthNames[i];
      if Contains(q, month) {
        var monthly := MonthFigures(ts, month);
        if monthly.Some? {
          return MonthReport(Capitalize(month), monthly.value);
        } else {
          return NoMonthData(Capitalize(month));
        }
      }
    }
    if ContainsAny(q, ReductionWords) {
      return ReductionPlan(SavingsFigures(ts));
    }
    if ContainsAny(q, InvestmentWords) {
      if advice.Some? {
        return InvestmentReply(advice.value);
      }
      return InvestmentApology;
    }
    if intent == JString("savings_analysis") {
      return SavingsAnalysis(SavingsFigures(ts));
    }
    return Help;
  }

  // ---- what the dispatch promises ----

  /**
   * A month named in the query wins: the earliest month in calendar order
   * whose name occurs in the lower-cased query decides, and the answer is
   * that month's report, or the no-data answer exactly when no row is dated
   * in that month, whatever the classifier said.
   */
  lemma MonthQuery(ts: seq<Txn>, query: string, reply: Option<string>, parse: string -> Option<Json>,
                   advice: Option<string>, k: nat)
    requires k < 12 && Contains(Lower(query), MonthNames[k])
    requires forall j :: 0 <= j < k ==> !Contains(Lower(query), MonthNames[j])
    ensures Respond(ts, query, reply, parse, advice).MonthReport? || Respond(ts, query, reply, parse, advice).NoMonthData?
    ensures Respond(ts, query, reply, parse, advice).month == Capitalize(MonthNames[k])
    ensures Respond(ts, query, reply, parse, advice).NoMonthData? <==> MonthRows(ts, MonthNames[k]) == []
    ensures Respond(ts, query, reply, parse, advice).MonthReport? ==>
              Some(Respond(ts, query, reply, parse, advice).figures) == MonthFigures(ts, MonthNames[k])
  {
    FirstMonthSpec(Lower(query), 0);
    assert FirstMonth(Lower(query), 0) == Some(k);
  }

  /** No month, but a word about cutting spending: the reduction plan from the whole table's figures. */
  lemma ReductionQuery(ts: seq<Txn>, query: string, reply: Option<string>, parse: string -> Option<Json>,
                       advice: Option<string>)
    requires !ContainsAny(Lower(query), MonthNames)
    requires ContainsAny(Lower(query), ReductionWords)
    ensures Respond(ts, query, reply, parse, advice) == ReductionPlan(SavingsFigures(ts))
  {
    NoMonthNamed(Lower(query));
  }

  /**
   * No month and no reduction word, but an investment word: the adviser's
   * reply verbatim, or the apology when the adviser's call failed.
   */
  lemma InvestmentQuery(ts: seq<Txn>, query: string, reply: Option<string>, parse: string -> Option<Json>,
                        advice: Option<string>)
    requires !ContainsAny(Lower(query), MonthNames)
    requires !ContainsAny(Lower(query), ReductionWords)
    requires ContainsAny(Lower(query), InvestmentWords)
    ensures advice.Some? ==> Respond(ts, query, reply, parse, advice) == InvestmentReply(advice.value)
    ensures advice.None? ==> Respond(ts, query, reply, parse, advice) == InvestmentApology
  {
    NoMonthNamed(Lower(query));
  }

  /**
   * Only when no keyword decides does the classifier count: the savings
   * analysis exactly when it classified the query as `savings_analysis`,
   * and the help text otherwise.
   */
  lemma ClassifiedQuery(ts: seq<Txn>, query: string, reply: Option<string>, parse: string -> Option<Json>,
                        advice: Option<string>)
    requires !ContainsAny(Lower(query), MonthNames)
    requires !ContainsAny(Lower(query), ReductionWords)
    requires !ContainsAny(Lower(query), InvestmentWords)
    ensures (Respond(ts, query, reply, parse, advice) == SavingsAnalysis(SavingsFigures(ts)))
              <==> IntentOf(reply, parse) == JString("savings_analysis")
    ensures (Respond(ts, query, reply, parse, advice) == Help)
              <==> IntentOf(reply, parse) != JString("savings_analysis")
  {
    NoMonthNamed(Lower(query));
  }

  /** A query that names a month or holds a keyword is answered the same whatever the classifier replies. */
  lemma KeywordsOverrideClassifier(ts: seq<Txn>, query: string, reply1: Option<string>, reply2: Option<string>,
                                   parse: string -> Option<Json>, advice: Option<string>)
    requires ContainsAny(Lower(query), MonthNames) || ContainsAny(Lower(query), ReductionWords)
             || ContainsAny(Lower(query), InvestmentWords)
    ensures Respond(ts, query, reply1, parse, advice) == Respond(ts, query, reply2, parse, advice)
  {
    var q := Lower(query);
    if FirstMonth(q, 0).None? {
      NoKeywordNoMonth(q);
      assert ContainsAny(q, ReductionWords) || ContainsAny(q, InvestmentWords);
      KeywordsDecide(ts, q, IntentOf(reply1, parse), IntentOf(reply2, parse), advice);
    }
  }

  /** The month search comes back empty only when no month name occurs. */
  lemma NoKeywordNoMonth(q: string)
    requires FirstMonth(q, 0).None?
    ensures !ContainsAny(q, MonthNames)
  {
    FirstMonthSpec(q, 0);
  }

  /** With a reduction or investment word present, the classifier's intent plays no part. */
  lemma KeywordsDecide(ts: seq<Txn>, q: string, intent1: Json, intent2: Json, advice: Option<string>)
    requires ContainsAny(q, ReductionWords) || ContainsAny(q, InvestmentWords)
    ensures KeywordAnswer(ts, q, intent1, advice) == KeywordAnswer(ts, q, intent2, advice)
  {
  }

  /** A classifier that failed, or whose reply did not parse, leads to the help text when no keyword decides. */
  lemma FailedClassifierGivesHelp(ts: seq<Txn>, query: string, reply: Option<string>, parse: string -> Option<Json>,
                                  advice: Option<string>)
    requires !ContainsAny(Lower(query), MonthNames)
    requires !ContainsAny(Lower(query), ReductionWords)
    requires !ContainsAny(Lower(query), InvestmentWords)
    requires reply.None? || parse(CleanReply(reply.value)).None?
    ensures Respond(ts, query, reply, parse, advice) == Help
  {
    NoMonthNamed(Lower(query));
  }

  /** No month name occurs, so the month search comes back empty. */
  lemma NoMonthNamed(q: string)
    requires !ContainsAny(q, MonthNames)
    ensures FirstMonth(q, 0).None?
  {
    FirstMonthSpec(q, 0);
  }
}
