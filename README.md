# Expense dashboard core in Dafny

This project models the computing core of a personal expense dashboard. The dashboard loads a CSV table of transactions (Date, Category, Amount). It analyses the latest month against the month before and turns the analysis into an ordered list of advice. It also answers chat queries about savings, about a named month, about cutting spending and about investing. The model covers three source files:

- `data_utils.py`, `load_data`: the header normalisation, the required-column check, the type conversion of Date and Amount, and the removal of incomplete rows. The source changes a data frame step by step; the model is a `Frame` class whose methods reassign its `columns` and `rows` fields. `LoadData` runs them in the source's order and is proved equal to the one-shot specification `Load`.
- `recommender.py`, `analyze_spending_patterns` and `generate_recommendations`.
  - The analysis is a function over a sequence of `Txn` rows.
  - The rule list is built by one method per block of the source (`AppendTrend` … `AppendInvestment`, including the loop over the category totals). `GenerateRecommendations` chains them and is proved equal to the function `Recommendations`.
  - `RecommenderRules` then states, rule by rule, when each kind of advice appears, with which number, in which order, and when the "balanced" default stands alone.
- `chatbot_logic.py`:
  - `format_currency`, with a reader proving that the format loses nothing beyond rounding;
  - the reply cleaning and defaulting of `get_intent`;
  - `get_savings_insights` and `get_monthly_spending`;
  - the dispatch of `handle_query`: month names first, in calendar order, then reduction words, then investment words, then the classifier's intent.

Modules:

- `Wrappers`: Option and Result.
- `Text`: strip, case and line helpers with Python's meaning. `Whitespace` is the set of characters Python's `str.isspace` accepts.
- `Grouping`: pandas' sorted `groupby().sum()`.
- `Ledger`: dates, monthly periods and the table aggregations.
- `Currency`: the rupee format.
- `Intent`: `get_intent`.
- `Recommender`, `RecommenderRules`, `Chatbot` and `DataUtils`.

Outside services become parameters:

- The CSV reader hands over a header and rows of optional texts.
- pandas' date and number parsers are functions returning `None` where pandas coerces to NaT or NaN.
- The JSON parser returns `None` where `json.loads` raises.
- The classifier's and the adviser's replies are `Option<string>`, where `None` is a call that raised.

Amounts are exact `real` numbers.

## Model

| member | source | states |
|---|---|---|
| Text.StripIsSlice | chatbot_logic.py:40 | `strip` leaves a contiguous slice and removes only characters of the stripped set, from both ends |
| Text.StripIdempotent | data_utils.py:9 | stripping twice is stripping once |
| Text.Capitalize | data_utils.py:9 | `capitalize`: same length, first character upper-cased, every other character lower-cased |
| Text.CapitalizeIdempotent | data_utils.py:9 | capitalising twice is capitalising once |
| Text.Lower | chatbot_logic.py:97 | `lower`: same length, each character lower-cased |
| Text.LowerIdempotent | chatbot_logic.py:97 | lower-casing twice is lower-casing once |
| Text.SplitJoinLines | chatbot_logic.py:61 | joining lines that hold no newline with `"\n"` and splitting the result at newlines yields the same lines |
| Currency.RoundHalfEven | chatbot_logic.py:21 | the `.2f` rounding: the nearest integer, a tie going to the even one |
| Currency.Cents | chatbot_logic.py:21 | the paise shown are within half a paisa of the absolute amount |
| Currency.DigitsRoundTrip | chatbot_logic.py:21 | the decimal digits of n read back as n |
| Currency.GroupThousandsUndone | chatbot_logic.py:21 | the `,` grouping only inserts commas: removing them gives the digits back |
| Currency.GroupThousandsCommas | chatbot_logic.py:21 | the commas stand exactly every fourth position from the right end, never first |
| Currency.AmountTextRoundTrip | chatbot_logic.py:21 | the digits after the sign parse back to the amount in paise |
| Currency.FormatRoundTrip | chatbot_logic.py:20-21 | the formatted text reads back as the amount's sign and its magnitude in rounded paise |
| Currency.FormatInjective | chatbot_logic.py:20-21 | two amounts format alike exactly when they agree in sign and rounded paise |
| Currency.FormatSingleLine | chatbot_logic.py:21 | a formatted amount never holds a newline |
| Currency.FormatThousands | chatbot_logic.py:21 | 1500 formats as `₹1,500.00` |
| Currency.FormatHundreds | chatbot_logic.py:21 | 500 formats as `₹500.00` (no comma) |
| Intent.CleanReply | chatbot_logic.py:40-46 | the cleaned reply has no whitespace (any character `str.isspace` accepts) at either end |
| Intent.CleanReplyIsPiece | chatbot_logic.py:40-46 | the cleaned reply is a contiguous piece of the reply |
| Intent.FencedReply | chatbot_logic.py:40-46 | a fenced reply loses its fences: what stands between them is kept, stripped of whitespace, so a language tag stays and the newlines just inside the fences go |
| Intent.GetIntent | chatbot_logic.py:24-54 | the classification always has an "intent" key |
| Intent.GetIntentSpec | chatbot_logic.py:24-54 | the classification is the parsed reply exactly when that reply is an object with "intent"; otherwise it is the default; its "intent" field can be read |
| Intent.GetIntentAgreesOnObjects | chatbot_logic.py:51 | the corrected and the as-written versions agree whenever the reply parses to something other than an array or a string |
| Intent.ArrayReplyBreaksIntentField | chatbot_logic.py:48-51 | as written, a reply parsing to `["intent"]` is returned unchanged and its "intent" field cannot be read; corrected, it gives the default |
| Grouping.GroupSum | recommender.py:25 | the group keys are the keys present, each group total is the sum for its key, and the totals sum to the sum of all values |
| Grouping.GroupSumSpec | recommender.py:25 | groups are strictly ascending by key, one per distinct key, each holding the sum of its key's values |
| Ledger.Prev | recommender.py:10 | `period - 1` is the month before, January rolling back to December of the year before |
| Ledger.LatestPeriodIsMaximum | recommender.py:9 | the latest period is absent only for an empty table; otherwise some row has it and no row is later |
| Ledger.InPeriodMembers | recommender.py:12-13 | the month selection holds every row of that month, as often as the table holds it, and no other row |
| Ledger.StrLessIsStrictTotalOrder | recommender.py:25 | Python's string `<`, by which pandas sorts category keys, is a strict total order |
| Ledger.CategoryBreakdownSpec | recommender.py:25 | the category breakdown: ascending names, one entry per category present, each holding its category's total, together summing to the table's total |
| Ledger.DailySeriesSpec | recommender.py:19 | the daily series: one entry per distinct date, in date order, each holding the total of that date's amounts, the entries summing to the table's total |
| Recommender.DailyMean | recommender.py:19-20 | the mean of the daily series is 0 for no rows, otherwise the total over the number of distinct dates |
| Recommender.AnalysisMeaning | recommender.py:7-27 | the analysis holds the two months' totals, the current month's ascending category totals summing to its total, and its mean spend per distinct day |
| Recommender.CurrentMonthIsLatest | recommender.py:9-12 | the current month is a month some row has and no row is later; the current rows are every row of that month, as often as the table holds it, and no other |
| Recommender.LastMonthIsPredecessor | recommender.py:10-13 | the last-month rows are every row one month earlier, as often as the table holds it, and no other, across a year boundary too |
| Recommender.SingleMonthHasNoLastMonth | recommender.py:10-16 | a table whose rows all fall in one month has zero last-month spending |
| Recommender.PercentageAbove | recommender.py:57-59 | `amount / total * 100 > pct` is `amount * 100 > pct * total` for a positive total |
| Recommender.PercentageBelow | recommender.py:76-77 | `amount / total * 100 < pct` is `amount * 100 < pct * total` for a positive total |
| Recommender.AppendTrend | recommender.py:34-51 | the trend block appends the trend rule's advice |
| Recommender.AppendCategories | recommender.py:53-63 | the loop over the category totals appends one notice per category above 30%, in order, and nothing when the total is not positive |
| Recommender.AppendDaily | recommender.py:66-70 | the daily block appends the daily rule's advice |
| Recommender.AppendSavings | recommender.py:73-85 | the savings block appends the savings rule's advice |
| Recommender.AppendIrregular | recommender.py:88-93 | the irregularity block appends the irregularity rule's advice |
| Recommender.AppendInvestment | recommender.py:96-101 | the investment block appends the investment rule's advice |
| Recommender.GenerateRecommendations | recommender.py:29-106 | the blocks run in order, then the default, give exactly `Recommendations(ts)` |
| RecommenderRules.BlockRank | recommender.py:29-106 | each rule emits only its own kind of advice |
| RecommenderRules.MembershipByKind | recommender.py:29-106 | an item is recommended exactly when the rule for its kind emits it |
| RecommenderRules.RecommendationsOrdered | recommender.py:29-106 | items appear in the fixed order trend, categories, daily, savings, irregular, investment |
| RecommenderRules.DefaultOnlyAlone | recommender.py:103-104 | the list is never empty; the "balanced" message appears exactly when no rule fired, and then alone |
| RecommenderRules.TrendRule | recommender.py:34-51 | first-month notice iff last month is not positive; increase (with its percentage) iff last month is positive and this month higher; decrease likewise; no trend item exactly on equality |
| RecommenderRules.CategoryAdviceMembers | recommender.py:56-63 | a category notice with share p is emitted iff some entry of that category is above 30% with share p |
| RecommenderRules.CategoryAdviceMentions | recommender.py:56-63 | over distinct keys, a category is named once if above 30% and never otherwise |
| RecommenderRules.MentionsAreCategoryBlock | recommender.py:29-106 | only the category rule names categories |
| RecommenderRules.ConcentrationRule | recommender.py:54-63 | category c is named, with its share, iff the month total is positive and its entry's share is above 30%; it is named at most once |
| RecommenderRules.ConcentrationRuleForTable | recommender.py:53-63 | for the table's own analysis: c is named, with its share of the current month, iff that total is positive, c has current-month rows and its total exceeds 30% of the month; at most once |
| RecommenderRules.ThirtyPercentIsNotHigh | recommender.py:59 | a category at exactly 30% is never named |
| RecommenderRules.DailyRule | recommender.py:66-70 | the high-daily notice, carrying the average, iff the average exceeds 2000 |
| RecommenderRules.SavingsRule | recommender.py:73-85 | start-tracking notice iff no row of any month is "Savings"; low-rate warning, carrying the rate, iff this month's total is positive and all Savings rows come to under 20% of it |
| RecommenderRules.LowSavingsRule | recommender.py:73-81 | the low-rate warning with rate p is recommended exactly under the savings rule's condition |
| RecommenderRules.IrregularRule | recommender.py:88-93 | the irregularity notice iff there are at least two distinct dates and the sample variance of the daily totals exceeds 2000² |
| RecommenderRules.InvestmentRule | recommender.py:96-101 | the investment notice, carrying last month minus this month, iff spending fell against a positive last month |
| Chatbot.BreakdownReadsBack | chatbot_logic.py:61 | a breakdown splits back into exactly one line per entry, in order; an empty one is the empty text |
| Chatbot.SavingsFiguresSpec | chatbot_logic.py:57-67 | the savings summary holds the total of all amounts, a daily average that times 30 is the total, and ascending category totals summing to the total |
| Chatbot.SavingsBreakdownLines | chatbot_logic.py:60-61 | the breakdown text has one line per category, `- name: ₹total`, in ascending order of name |
| Chatbot.MonthRowsMembers | chatbot_logic.py:72 | the month selection holds every row whose month name equals the requested name in lower case, in any year, as often as the table holds it, and no other row |
| Chatbot.MonthFiguresSpec | chatbot_logic.py:70-85 | no summary iff no row is in the month; otherwise the month's total, a daily average that times the number of distinct dates is the total, and one entry per category of the month's rows, in ascending order, each holding that category's total over the month, summing to the total |
| Chatbot.MonthBreakdownLines | chatbot_logic.py:73-85 | no monthly summary iff no row is in the month; otherwise its total is the month's total formatted, and its breakdown text has one line per category of the month, `- name: ₹total`, in ascending order of name |
| Chatbot.SpreadBack | chatbot_logic.py:84 | an average over n days, multiplied back by n, gives the total |
| Chatbot.FirstMonthSpec | chatbot_logic.py:96-97 | the month search finds the earliest month in calendar order whose name is in the query, and finds none only when none is |
| Chatbot.HandleQuery | chatbot_logic.py:88-181 | the loop over the months and the keyword checks give exactly the answer `Respond` describes, the intent read from the corrected `Intent.GetIntent` (see Findings) |
| Chatbot.MonthQuery | chatbot_logic.py:96-108 | the earliest named month decides whatever the classifier said: its report, or the no-data answer exactly when no row is dated in it |
| Chatbot.ReductionQuery | chatbot_logic.py:111-139 | no month but a reduction word: the reduction plan built from the whole table's figures |
| Chatbot.InvestmentQuery | chatbot_logic.py:142-163 | no month or reduction word but an investment word: the adviser's reply verbatim, or the apology when the call failed |
| Chatbot.ClassifiedQuery | chatbot_logic.py:165-181 | with no keyword, the savings analysis iff the intent is `savings_analysis`, the help text otherwise |
| Chatbot.KeywordsOverrideClassifier | chatbot_logic.py:89-163 | with the corrected `Intent.GetIntent` (see Findings), a query naming a month or holding a keyword gets the same answer whatever the classifier replies |
| Chatbot.FailedClassifierGivesHelp | chatbot_logic.py:52-54 | a failed or unparsable classification, with no keyword, leads to the help text |
| DataUtils.PaddedHeader | data_utils.py:9 | a header padded with a space and a no-break space, ` date\u00a0`, normalises to `Date` |
| DataUtils.NormaliseIdempotent | data_utils.py:9 | normalising an already normalised header changes nothing |
| DataUtils.NormaliseHeadersIdempotent | data_utils.py:9 | the header comprehension keeps the number and order of columns and is idempotent |
| DataUtils.IndexOf | data_utils.py:13 | a found index names that column; nothing is found only for an absent name |
| DataUtils.ResolveColumnsSpec | data_utils.py:12-14 | loading stops with the one missing-columns error iff a required name is absent; otherwise the three indices name their columns and are distinct |
| DataUtils.ConvertDates | data_utils.py:17 | date conversion keeps the number of rows and each row's width |
| DataUtils.ConvertAmounts | data_utils.py:18 | number conversion keeps the number of rows and each row's width |
| DataUtils.KeepCompleteSpec | data_utils.py:21 | the kept rows are the complete rows, unchanged and in their original order |
| DataUtils.ConvertedRow | data_utils.py:17-18 | a converted row is complete iff the body row survives; it then holds the parsed date, the parsed number, the category as read, and every other field as read |
| DataUtils.Frame.constructor | data_utils.py:6 | the frame holds the header and the rows as read |
| DataUtils.Frame.NormaliseColumns | data_utils.py:9 | the columns are normalised and the rows kept |
| DataUtils.Frame.ConvertDateColumn | data_utils.py:17 | the Date column is converted and nothing else changes |
| DataUtils.Frame.ConvertAmountColumn | data_utils.py:18 | the Amount column is converted and nothing else changes |
| DataUtils.Frame.DropIncomplete | data_utils.py:21 | the incomplete rows are dropped and the columns kept |
| DataUtils.LoadData | data_utils.py:5-23 | the frame returned is exactly the table `Load` describes, or loading stops with `Load`'s error |
| DataUtils.MissingColumnsFail | data_utils.py:12-14 | loading fails with the missing-columns error exactly when a required column is absent after normalisation |
| DataUtils.LoadedRows | data_utils.py:5-23 | the loaded rows are the body rows whose Category is present and whose Date and Amount parse, in their original order, each holding the parsed values |

## Left out

- Reading the CSV, calling the Gemini models, environment and API-key loading, and the `print` logging: these are I/O. The CSV reader, the parsers and the replies are parameters.
- The prompt texts sent to the classifier and the adviser are not modelled. The adviser's reply is an input.
- The fixed wording of every recommendation and answer (tips, headings, `.1f` percentages inside messages): an answer is the template it fills and the figures it fills it with. The figures are formatted by `Chatbot.Render` through `Currency.FormatCurrency`.
- Floating point: amounts are exact reals. `.2f` rounding is round-half-even on the exact value, not on the binary float.
- Text.Lower / Text.Capitalize: they map ASCII letters only, since the headers, month names and keywords they are applied to are ASCII. They differ from Python only on non-ASCII letters: Python lowers U+212A KELVIN SIGN to "k", so "STOC\u212A" contains "stock" in the source but not in the model.
- `charts.py` and `app.py` (plotting and the page layout) are not part of this model.
- The in-place `df['Date'] = pd.to_datetime(...)` re-conversions in `recommender.py`, lines 8 and 88, and in `chatbot_logic.py`, line 71: the modelled table already holds dates.
- Chatbot.Respond / Chatbot.HandleQuery: they read the intent from the corrected `Intent.GetIntent`, not from `get_intent` as written. As written, a classifier reply that parses to an array holding "intent", or to a string containing "intent", makes `intent_result['intent']` (chatbot_logic.py:90) raise `TypeError` for every query, before any keyword is looked at; the Findings row shows this. With the corrected classifier, the intent is used only when no keyword decides.
- DataUtils.ResolveColumns: two columns that normalise to the same required name are rejected with `DuplicateColumn`. pandas would then return a two-column frame for that name, which the model does not capture.
- DataUtils.Survives: a Category field is "missing" only when the CSV field is empty. Other strings pandas reads as NaN ("NA", "null", …) are not modelled.
- The query's substring tests use the lower-cased query. "savings" does not contain "save", so a query mentioning only "savings" reaches the classifier, as in the source.

## Findings

| source | as written | input that shows it | evidently intended | confidence | as-written member | corrected member |
|---|---|---|---|---|---|---|
| chatbot_logic.py:51 | `"intent" in result` also accepts a JSON array holding the string "intent", or a JSON string containing "intent"; `handle_query` then reads `intent_result['intent']` (line 90), which raises `TypeError` outside the `try` | a classifier reply of `["intent"]` | keep the parsed value only when it is an object with an "intent" key, falling back to the default otherwise | not executed | Intent.ArrayReplyBreaksIntentField | Intent.GetIntentSpec |
