# A verified model of a personal-finance dashboard

The application is a Next.js personal-finance tracker. It fetches a list of
transaction documents (income, expenses, goal tags) and budget and goal
documents. In the browser it reduces them to summaries:

- the dashboard's totals, monthly buckets, top categories, latest entries and goal progress;
- an analytics library with month-over-month metrics, category trends, budget analysis, spending insights, chart rows and CSV export;
- a transactions page with a natural-language entry parser ("Spent 600 Rs on Dinner"), a keyword category guesser, a list filter and the add/edit forms;
- a goals page with the monthly budget spend, capped percentages, the budget card label and the add forms;
- an analytics page with inline reductions over the same list.

This project models that logic, once the fetched array is an input, with
the exceptions listed under "Left out" (case folding beyond ASCII among
them). It proves what each reduction promises. The modules follow the
source files:

| module | file | models |
|---|---|---|
| `Wrappers` | `wrappers.dfy` | `Option` (missing value, `null`, `undefined`) and `Result` (a stored record or the alert text) |
| `Text` | `text.dfy` | the string built-ins the core uses: ASCII `toLowerCase`, `includes`, `startsWith`, `trim`, `slice`, `split`/`join`, `parseInt`, `parseFloat`, `Math.round`, string `<` |
| `Collections` | `collections.dfy` | filter, sum, group-by into an insertion-ordered object, `Set` de-duplication, stable-order sorts, `slice` |
| `Records` | `records.dfy` | the transaction document, `x \|\| default` readings, `new Date(s)` on ISO dates, the change and savings-rate formulas |
| `Pattern` | `pattern.dfy` | the two regular expressions of `parseTextInput`, as a backtracking matcher with JavaScript's greedy preference order |
| `Analytics` | `analytics_lib.dfy` | `src/lib/analytics.js` |
| `Dashboard` | `dashboard.dfy` | `calculateDashboardStats` in `src/app/page.js` |
| `TransactionsPage` | `transactions_page.dfy` | `src/app/transactions/page.js` |
| `GoalsPage` | `goals_page.dfy` | `src/app/goals/page.js` |
| `AnalyticsPage` | `analytics_page.dfy` | `getMonthName` and the inline reductions of `src/app/analytics/page.js` |

## How the source's forms are modelled

- **Amounts.** An amount is a `real`. It holds the value every reading
  `t.amount || 0` sees, so a missing, zero or `NaN` amount is `0.0`.
  Arithmetic is exact; no floating-point rounding is modelled.
- **Text fields.** A text field the document may lack is an
  `Option<string>`. `x || d` gives `d` for both `None` and `""`.
- **Objects used as dictionaries.** Where the order of `Object.entries`
  matters (group, then sort, then slice), the object is an association
  list `seq<Total>` in insertion order. `monthlyData` is only looked up by
  key, so it is a `map`.
- **State changes.** Loops that update state in the code are methods with
  loops and invariants. Each is proved equal to a specification function,
  and the properties are proved about that function:
  - the month set of the dashboard (`Dashboard.CollectMonths`);
  - the bucket fill (`Dashboard.FillBuckets`);
  - the goal accumulation (`Dashboard.CollectGoals`);
  - the per-month category totals (`Analytics.TotalsByMonth`);
  - the trend table (`Analytics.BuildTrends`);
  - the insight list (`Analytics.GetSpendingInsights`).
- **The in-place sort.** The analytics page sorts `transactions` in place
  before slicing. That sort is an in-place method on an `array`
  (`AnalyticsPage.SortByAmount`).
- **The clock.** "Now" is a parameter. This covers the current and last
  month keys, `getMonth()`/`getFullYear()`, today's ISO date, and the
  six fallback months the dashboard shows when no month has data.

## Behaviour worth noting

- **Undated recent entries.** The dashboard's recent list drops only
  entries dated `'2025-08-22'`, the date the comment at
  `src/app/page.js:120` calls today's empty entries. An entry with no
  date passes `t.date !== '2025-08-22'` and is listed
  (`Dashboard.UndatedIsRecent`). The month keys and month buckets skip
  undated entries.
- **Daily average.** The page guards it with `transactions.length > 0`.
  That guard changes nothing, because the sum of an empty list is 0.
  The figure is always `Math.round(sum / 30)` (`AnalyticsPage.DailyAverageIsThirtieth`).
- **`getMonthName`.** It returns `undefined` for a key without a dash or
  for a month outside 1–12. The model returns `None` there.

## Model

| member | source | states |
|---|---|---|
| Analytics.MonthTotalSnoc | src/lib/analytics.js:8-15 | one more transaction adds its amount to a month/kind total exactly when it is dated in that month and has that kind |
| Analytics.CalculateFinancialMetrics | src/lib/analytics.js:3-41 | income and expenses are the current month's totals by kind; savings is income minus expenses; the savings rate is 0 without income; each change is 0 when the previous month's total is 0, else the percentage change; the trends are the category trend table |
| Analytics.TrendChange | src/lib/analytics.js:99-104 | 100 when only the current month has spending, 0 when neither has any; otherwise the percentage change rounded to one decimal (within 0.05 of it) |
| Analytics.CategoryStep | src/lib/analytics.js:80-91 | a transaction adds to the current-month totals only when it is an expense of the current month, and to the last-month totals only when it is an expense of last month and not of the current one, so it counts at most once; its key is `category \|\| 'Other'` |
| Analytics.TotalsByMonth | src/lib/analytics.js:77-91 | the `forEach` loop builds exactly the two per-category totals |
| Analytics.BuildTrends | src/lib/analytics.js:93-106 | one trend per category in key order, with that category's current and last totals (0 when absent) and their change |
| Analytics.GetCategoryTrends | src/lib/analytics.js:73-109 | the result is the trend table, and a category has a trend iff it is a key of the current-month or last-month totals |
| Analytics.TrendTableCategories | src/lib/analytics.js:94 | the trend categories are exactly the union of the two key sets |
| Analytics.TrendCategories | src/lib/analytics.js:81-94 | a category appears iff some expense with that category (or 'Other') is dated in the current or the last month |
| Analytics.TrendsIgnoreNonExpense | src/lib/analytics.js:81 | adding a non-expense transaction changes neither total |
| Analytics.TrendsCountOnce | src/lib/analytics.js:86-90 | the two tables together sum to the amounts of the expenses dated in either month, each counted once |
| Analytics.BudgetPercentage | src/lib/analytics.js:125 | 0 when the budget is 0, else spent/budget·100 |
| Analytics.AnalysisStatusBySpending | src/lib/analytics.js:125-132 | with no budget the status is 'good'; otherwise 'over' iff spent > budget, 'warning' iff 80% of the budget < spent ≤ budget, 'good' iff spent ≤ 80% of it |
| Analytics.PercentageAbove | src/lib/analytics.js:125-132 | the percentage exceeds a bound iff spent·100 exceeds bound·budget |
| Analytics.AnalysisOf | src/lib/analytics.js:122-133 | an entry's budget is its limit or 0, remaining = budget − spent, the percentage is within 0.05 of the exact one, and the status is derived from the unrounded percentage |
| Analytics.GetBudgetAnalysis | src/lib/analytics.js:111-137 | one analysis per current-month expense category, in key order |
| Analytics.BudgetAnalysisCategories | src/lib/analytics.js:113-122 | a category is analysed iff some current-month expense falls under it |
| Analytics.BudgetAnalysisSpent | src/lib/analytics.js:113-119 | each analysed `spent` is the sum of that category's current-month expense amounts |
| Analytics.SumAboveBound | src/lib/analytics.js:150 | when no day's amount is negative and the bound is nonnegative, the total of all days is at least the count above the bound times the bound, and more than it when that count is positive |
| Analytics.HighSpendingInsight | src/lib/analytics.js:149-158 | at most one insight, a 'warning' titled 'High Spending Days Detected' |
| Analytics.CountAboveSome | src/lib/analytics.js:150 | the count of days above a bound is positive iff some day exceeds the bound |
| Analytics.HighSpendingWhen | src/lib/analytics.js:149-158 | the warning is given iff there is a day and some day spends more than twice the average day; no days, no warning |
| Analytics.HighDaysFewerThanHalf | src/lib/analytics.js:149-152 | when no day's amount is negative, fewer than half the days can spend more than twice the average |
| Analytics.SingleDayNotHigh | src/lib/analytics.js:149-152 | a single day with a nonnegative amount never triggers the high-spending insight (a single negative day does) |
| Analytics.Dominant | src/lib/analytics.js:168-170 | the reduce keeps the first category of maximal amount, or `['', 0]` when nothing is positive: its amount bounds every entry, and an amount of 0 means it is `['', 0]` |
| Analytics.ConcentrationInsight | src/lib/analytics.js:172-178 | an 'info' insight iff the dominant category exceeds 40% of the expenses |
| Analytics.SavingsInsight | src/lib/analytics.js:184-196 | 'warning'/'Low Savings Rate' iff the rate < 10, 'success'/'Excellent Savings Rate' iff > 30, nothing in between |
| Analytics.InsightExpensesTotal | src/lib/analytics.js:161-167 | the category totals sum to all expense amounts |
| Analytics.GetSpendingInsights | src/lib/analytics.js:139-199 | the insights are the three rules in order, at most 3, and the savings titles appear iff the rate is below 10 / above 30 |
| Analytics.SavingsTitles | src/lib/analytics.js:184-196 | the earlier insights cannot carry a savings title |
| Analytics.MonthlyTrend | src/lib/analytics.js:203-212 | exactly the months with income or expenses above 0 become points, each with savings = income − expenses |
| Analytics.MonthlyTrendIsFilterMap | src/lib/analytics.js:203-212 | the trend is the active months, in their order, each mapped to its point: `filter` then `map` |
| Analytics.MonthlyTrendDropsIdle | src/lib/analytics.js:205 | a month with no income and no expenses adds no point |
| Analytics.CategoryPie | src/lib/analytics.js:214-222 | min(8, n) slices |
| Analytics.CategoryPieOrdered | src/lib/analytics.js:215-217 | the slices are non-increasing in value and each comes from the breakdown |
| Analytics.CategoryPieKeepsLargest | src/lib/analytics.js:216-217 | an entry larger than a shown slice is shown too |
| Analytics.WeeklyNetsAddUp | src/lib/analytics.js:224-231 | added up over all weeks, the nets are the total income less the total expenses |
| Analytics.CsvCells | src/lib/analytics.js:236-243 | six cells in header order: each present, non-empty field as it is; a missing or empty date, type, category or description gives '' and a missing or empty currency 'INR'; the amount cell is the amount's text |
| Analytics.Quote | src/lib/analytics.js:246 | a cell is wrapped in double quotes and otherwise unchanged |
| Analytics.CsvRows | src/lib/analytics.js:245-246 | a header row then one row per transaction, in order |
| Analytics.CsvAsWrittenIsOneLine | src/lib/analytics.js:247 | when no cell holds a line break, the file joined with backslash + n is a single line |
| Analytics.CsvLines | src/lib/analytics.js:245-247 | when no cell holds a line break, the file joined with a real newline has exactly the header and one row per transaction as its lines |
| Dashboard.MonthKeys | src/app/page.js:58 | each month key is `date.slice(0, 7)` of its transaction |
| Dashboard.MonthSetMembers | src/app/page.js:55-61 | a key is in the month set iff some valid transaction with a date other than '2025-08-22' has it |
| Dashboard.RecentMonthsAreLatest | src/app/page.js:64 | at most 6 distinct keys, ascending, all in the month set, none smaller than a key left out, and none only when the set is empty |
| Dashboard.MonthSetStep | src/app/page.js:56-61 | one more transaction adds its key at the end iff it is dated, not skipped, and new |
| Dashboard.CollectMonths | src/app/page.js:55-61 | the loop builds the de-duplicated keys in first-seen order |
| Dashboard.BucketStep | src/app/page.js:93-100 | a transaction of a bucket's month adds its income, its expense and one to the count; others leave the bucket alone |
| Dashboard.InitBuckets | src/app/page.js:77-87 | every shown month starts at zero income, expenses and count |
| Dashboard.BucketUpdate | src/app/page.js:93-99 | the in-place `+=` and `++` give the bucket of the longer prefix |
| Dashboard.BucketUnchanged | src/app/page.js:91-93 | an undated or skipped transaction, or one of another month, leaves a bucket unchanged |
| Dashboard.FillOne | src/app/page.js:91-101 | one loop step keeps every bucket equal to its month's totals over the prefix |
| Dashboard.FillBuckets | src/app/page.js:90-102 | after the loop each shown month's bucket holds its income, expenses and count |
| Dashboard.Breakdown | src/app/page.js:63-104 | one bucket per shown month, in order, each the totals of the valid transactions of that month |
| Dashboard.BreakdownAtMostSix | src/app/page.js:63-74 | with the clock's six months as fallback, at most six buckets; with no dated valid transaction, exactly the fallback months' buckets |
| Dashboard.SortedMonths | src/app/page.js:64-74 | the six latest months, or the fallback months when there are none |
| Dashboard.MonthlyBreakdown | src/app/page.js:76-104 | the buckets of the shown months, read off the filled map |
| Dashboard.BucketSplitsAmounts | src/app/page.js:94-99 | a bucket's income plus expenses is the amount of its month's valid transactions: each lands in exactly one side |
| Dashboard.SkippedDateIgnored | src/app/page.js:57-61 | a transaction dated '2025-08-22' changes no bucket and no month key |
| Dashboard.CategorySpendingProperties | src/app/page.js:107-116 | at most 6 categories, non-increasing; all categories sum to total expenses; a category appears iff a valid expense has it (or 'Other') |
| Dashboard.RecentProperties | src/app/page.js:119-122 | at most 5 valid transactions of the input, latest first, none dated '2025-08-22' |
| Dashboard.UndatedIsRecent | src/app/page.js:120 | a valid transaction without a date still passes the recent filter |
| Dashboard.FirstGoalIsFirst | src/app/page.js:127-136 | the goal that fixes a name's target and duration is the first transaction tagged with that name |
| Dashboard.GoalOfAddToGoal | src/app/page.js:127-140 | one step creates a goal on a new name with saved = its income amount, adds the income amount to an existing one and leaves other names alone |
| Dashboard.GoalDataLookup | src/app/page.js:125-141 | each goal's entry has the first tag's target and duration and the sum of its tagged income amounts |
| Dashboard.GoalNamesDistinct | src/app/page.js:129 | no goal name occurs twice |
| Dashboard.GoalProgressProperties | src/app/page.js:125-143 | at most 3 goals; each has its first tag's target and duration and sums only tagged income |
| Dashboard.CollectGoals | src/app/page.js:125-141 | the loop builds exactly the goal list |
| Dashboard.CalculateDashboardStats | src/app/page.js:28-154 | no data gives zeros and empty lists; otherwise totals over valid income and expenses, net savings, the savings rate (0 without income), the breakdown, the category spending, the recent list and the goal progress |
| TransactionsPage.FirstRuleFirstHit | src/app/transactions/page.js:169-178 | the first rule whose keyword occurs decides the category |
| TransactionsPage.FirstRuleNoHit | src/app/transactions/page.js:181 | no hit gives 'Other' |
| TransactionsPage.GuessCategory | src/app/transactions/page.js:165-182 | the guess is always in the type's category list (`categories.expense` or `categories.income`) |
| TransactionsPage.GuessCategoryOther | src/app/transactions/page.js:166-181 | 'Other' iff no keyword of the type's rules occurs in the lower-cased text |
| TransactionsPage.FoodFirst | src/app/transactions/page.js:169 | a food keyword makes an expense 'Food', whatever else occurs |
| TransactionsPage.Entry | src/app/transactions/page.js:137-145 | the parsed amount is the value of the captured digits |
| TransactionsPage.ParseTextInput | src/app/transactions/page.js:129-163 | a record iff one expression matches; the `spent` one wins and gives an expense, otherwise `earned` gives an income; currency 'INR', today's date, an empty goal |
| TransactionsPage.ParseTextInputMatches | src/app/transactions/page.js:132-159 | a record iff either expression matches at some position; `null` otherwise |
| TransactionsPage.ParsedFields | src/app/transactions/page.js:136-142 | the amount is the captured digits' value, the description the trimmed capture, the category guessed from the capture |
| TransactionsPage.SpentSentence | src/app/transactions/page.js:132-145 | "spent N on D" parses to the full expense record with amount N and description D trimmed |
| TransactionsPage.SpentWins | src/app/transactions/page.js:135-146 | when the `spent` expression matches, its captures decide the record |
| TransactionsPage.DinnerExample | src/app/transactions/page.js:131-145 | "spent 600 on Dinner" parses to a 600 INR 'Food' expense described 'Dinner' |
| TransactionsPage.FilteredTransactions | src/app/transactions/page.js:254-261 | a subsequence of the list, holding a transaction iff its text matches the search and both filters accept it |
| TransactionsPage.NoFilterShowsAll | src/app/transactions/page.js:254-261 | with an empty search and both filters 'all', the list keeps the transactions that have a description or a category |
| TransactionsPage.NoFilterIsIdentity | src/app/transactions/page.js:254-261 | and it keeps all of them when each has one |
| TransactionsPage.HandleAddTransaction | src/app/transactions/page.js:91-101 | manual entry is rejected iff amount or category is empty; otherwise the form's fields with the amount `parseFloat` reads from the amount field; text entry succeeds iff the parser returns a record, and stores it |
| TransactionsPage.HandleEditTransaction | src/app/transactions/page.js:193-202 | rejected iff no transaction is being edited or amount or category is empty; otherwise the same record as a manual add, with the parsed amount and the form's category |
| TransactionsPage.StoredAmount | src/app/transactions/page.js:98-101 | a form whose amount is the digits of n stores the amount n |
| GoalsPage.CalculateBudgetSpent | src/app/goals/page.js:69-81 | 0 when no expense of the category falls in the month; nonnegative when those amounts are |
| GoalsPage.BudgetSpentIsSum | src/app/goals/page.js:73-80 | the sum of the amounts of exactly the expenses of that category dated in that month and year |
| GoalsPage.BudgetSpentAppend | src/app/goals/page.js:73-80 | one more transaction adds its amount iff it passes the filter |
| GoalsPage.CappedPercentage | src/app/goals/page.js:212-218 | for a nonzero whole: never above 100; below 100 it is part/whole·100; for a positive whole, 100 iff part ≥ whole, and nonnegative when the part is |
| GoalsPage.OverBudgetUnreachable | src/app/goals/page.js:389-403 | the label is never 'Over Budget'; 'Near Limit' iff the capped usage ≥ the threshold, else 'On Track' |
| GoalsPage.BudgetStatus | src/app/goals/page.js:389-403 | 'Over Budget' iff spent > limit; otherwise 'Near Limit' or 'On Track' by the threshold |
| GoalsPage.Remaining | src/app/goals/page.js:443 | `max(0, limit − spent)`: never negative, and limit − spent when that is not negative |
| GoalsPage.Card | src/app/goals/page.js:387-443 | with `spent` the month's spend: the usage is `min(spent/limit·100, 100)` and the bar width equals it; remaining is `max(0, limit − spent)`; 'Over Budget' iff spent exceeds the limit, 'Near Limit' iff spent is within the limit and the usage reaches the threshold, 'On Track' iff it is within the limit and below the threshold |
| GoalsPage.HandleAddGoal | src/app/goals/page.js:83-95 | rejected iff the name or target is empty; otherwise the form's fields, the parsed target, the current amount or 0, today's stamp and status 'active' |
| GoalsPage.GoalAmounts | src/app/goals/page.js:91-92 | digit strings parse to their values, and an empty current amount gives 0 |
| GoalsPage.HandleAddBudget | src/app/goals/page.js:111-124 | rejected iff the category or limit is empty; otherwise the form's fields, the parsed limit, the month's spend of the category, and this month and year |
| GoalsPage.EmptyFormsRejected | src/app/goals/page.js:84-115 | the initial empty forms are rejected with the alert text |
| AnalyticsPage.DashPieces | src/app/analytics/page.js:120 | `split('-')` always gives at least one piece |
| AnalyticsPage.DashPiecesJoin | src/app/analytics/page.js:120 | the pieces joined with '-' give the key back, and no piece holds a dash |
| AnalyticsPage.MonthName | src/app/analytics/page.js:119-123 | any name returned is one of the twelve |
| AnalyticsPage.MonthNameOfKey | src/app/analytics/page.js:119-123 | for "YYYY-MM" with MM in 01–12, the name at index MM − 1 |
| AnalyticsPage.MonthNameNeedsDash | src/app/analytics/page.js:120-122 | a key without a dash has no name |
| AnalyticsPage.SavingsTier | src/app/analytics/page.js:363-367 | emerald iff rate ≥ 20, amber iff 10 ≤ rate < 20, red iff rate < 10 |
| AnalyticsPage.SavingsTierMonotone | src/app/analytics/page.js:347 | a higher rate never gives a lower tier |
| AnalyticsPage.NoSavingsIsRed | src/app/analytics/page.js:344-347 | no income, or expenses above income, gives red |
| AnalyticsPage.SavingsTierOfShare | src/app/analytics/page.js:344-347 | with positive income, expenses at most 80% of it give emerald and above 90% give red |
| AnalyticsPage.TopSpendingProperties | src/app/analytics/page.js:524-534 | at most 5 categories, non-increasing, each a category total of the expenses |
| AnalyticsPage.TopSpendingAmount | src/app/analytics/page.js:525-531 | a row's amount is the sum of the expense amounts under that key (`category \|\| 'Other'`) |
| AnalyticsPage.TopSpendingKeepsLargest | src/app/analytics/page.js:533-534 | a category larger than a shown one is shown |
| AnalyticsPage.OtherRowCountAsWritten | src/app/analytics/page.js:528-547 | an uncategorised expense is shown under 'Other' but counted as 0 transactions there |
| AnalyticsPage.RowCountPositive | src/app/analytics/page.js:524-547 | counting by the row's own key, every shown row has at least one transaction |
| AnalyticsPage.RowCountsAgree | src/app/analytics/page.js:547 | for names other than 'Other' and '' the code's count is the corrected one |
| AnalyticsPage.SortByAmount | src/app/analytics/page.js:570-571 | the array is sorted in place into non-increasing amounts and is a permutation of itself |
| AnalyticsPage.SinkLeft | src/app/analytics/page.js:571 | one insertion step extends the sorted prefix by one and keeps the multiset |
| AnalyticsPage.RecentLarge | src/app/analytics/page.js:570-572 | the state array ends up sorted and permuted; the list shown is its first five, none smaller than any amount left out |
| AnalyticsPage.MaxAmount | src/app/analytics/page.js:689 | `Math.max` of the amounts: an upper bound that some amount attains |
| AnalyticsPage.Largest | src/app/analytics/page.js:689 | 0 for no transactions, otherwise the largest amount |
| AnalyticsPage.AverageBounds | src/app/analytics/page.js:682 | the average times the count lies within half a count of the sum (rounded sum/count) |
| AnalyticsPage.DailyAverageIsThirtieth | src/app/analytics/page.js:696 | the daily average is always the rounded sum/30 |
| AnalyticsPage.SumAtMostLargest | src/app/analytics/page.js:682-689 | the sum is at most the count times the largest amount |
| AnalyticsPage.TrendRowsProperties | src/app/analytics/page.js:453-455 | at most 6 trends, non-increasing in the current month's amount, each a trend of the table |
| AnalyticsPage.BarWidthsProperties | src/app/analytics/page.js:457-459 | for nonnegative amounts: no widths iff both are 0; the larger gets 100; both lie in 0–100; the widths keep the amounts' ratio |
| Records.IncomeIsNotExpense | src/app/page.js:44-50 | no transaction counts as both income and expense |
| Records.ParseDate | src/app/goals/page.js:76 | a date that reads has month 1–12 and a day that exists in that month (28, 29, 30 or 31 days, by the leap-year rule) |
| Records.ParseIsoDate | src/app/goals/page.js:76 | `YYYY-MM-DD`, optionally followed by `T...`, with the month in range and the day within the month reads as exactly that year, month and day |
| Records.DayPastMonthEnd | src/app/goals/page.js:76 | `YYYY-MM-DD` with a day past the month's end is an invalid date |
| Records.February31Invalid | src/app/goals/page.js:76 | `"2025-02-31"` is an invalid date |
| Records.February29 | src/app/goals/page.js:76 | 29 February reads in the leap year 2024 and is invalid in 2025 |
| Records.ParseIsoMonth | src/app/goals/page.js:76 | `YYYY-MM` with the month in range reads as the first of that month |
| Records.Change | src/lib/analytics.js:18-19 | 0 without a previous total; otherwise the percentage change, positive iff the total grew |
| Records.SavingsRate | src/app/page.js:52 | 0 without income; otherwise (income − expenses)/income·100, at most 100 for nonnegative expenses, negative iff expenses exceed income |
| Records.GroupExpenses | src/app/page.js:107-111 | the `forEach` builds the expense totals by key in first-seen order |
| Pattern.MatchComplete | src/app/transactions/page.js:132-133 | the backtracking matcher succeeds iff the expression matches from that position |
| Pattern.SearchLeftmost | src/app/transactions/page.js:132-133 | `match` reports the leftmost position that matches |
| Pattern.FindComplete | src/app/transactions/page.js:132-133 | `text.match` finds a match iff the expression matches somewhere |
| Pattern.PatternCaptures | src/app/transactions/page.js:132-136 | a match captures a nonempty digit string and a nonempty description without line breaks |
| Text.Lower | src/app/transactions/page.js:166 | `toLowerCase` on ASCII: keeps the length and folds character by character |
| Text.LowerFolds | src/app/transactions/page.js:166 | no capital A–Z is left: each becomes its small letter, and every other character stays as it is |
| Text.ContainsIff | src/app/transactions/page.js:169-178 | `includes` holds iff the word occurs at some index |
| Text.TrimIsInnerSlice | src/app/transactions/page.js:142 | `trim` gives a slice that neither starts nor ends with white space |
| Text.LastTwo | src/lib/analytics.js:207 | `slice(-2)` gives the last two characters |
| Text.Round | src/app/analytics/page.js:682 | `Math.round` lies within half of its argument |
| Text.RoundTenth | src/lib/analytics.js:104 | `Math.round(x·10)/10` lies within 0.05 of x |
| Text.ParseFloatDigits | src/app/transactions/page.js:139 | `parseFloat` of a digit string is its value |
| Text.ParseIntNatToString | src/app/analytics/page.js:122 | `parseInt` reads back a number's decimal digits |
| Text.LinesOfJoin | src/lib/analytics.js:247 | joining lines without breaks with a newline and splitting again gives them back |
| Text.StrLeTotal | src/app/page.js:64 | the default `sort()` order on strings is total |
| Collections.GroupSumKeys | src/app/page.js:107-111 | a key is in a group-by iff some element has it |
| Collections.GroupSumLookup | src/lib/analytics.js:113-119 | a group's total is the sum of the values of its elements |
| Collections.GroupSumTotal | src/app/page.js:107-111 | the groups sum to the total of all values |
| Collections.Dedupe | src/app/page.js:55-59 | a `Set` holds the same values, each once |
| Collections.SortDesc | src/app/page.js:115 | a descending sort is a permutation and is sorted |
| Collections.TakeSortedDesc | src/app/page.js:116 | `slice(0, n)` of a sorted list keeps its n largest, sorted |
| Collections.TakeLastSorted | src/app/page.js:64 | `slice(-n)` of a sorted list keeps its n largest, sorted |
| Collections.FilterIsSubsequence | src/app/transactions/page.js:254 | `filter` keeps a subsequence |

## Left out

- `getWeeklyBreakdown`: its four local-time week windows come from `setDate`, `getDay` and `setHours` on the clock, which the model does not represent. `WeeklyComparison` takes the weeks as input.
- Fetching, the database API, React state and effects, rendering, `alert`/`confirm`, speech recognition, and the Blob/URL/anchor download of `exportToCSV`. These are I/O and browser APIs. The fetched list, today's date and the clock's month keys are parameters instead.
- The fallback months: `new Date(...).toISOString().slice(0, 7)` for the six months before today. They are passed in as `fallback`.
- Analytics.DayKey: a `null` date and a missing date are both `None` and share the day key 'undefined'; JavaScript keys them as 'null' and 'undefined', two different days. The model does not distinguish `null` from a missing field.
- Time zones: `new Date(s)` on an ISO date is read as that calendar date, with no offset.
- Records.ParseDate: any text after the `T` of `YYYY-MM-DDT...` is accepted, so `"2025-08-01Tx"` reads as 1 August where `new Date` gives an invalid date; the time part is not checked. A day past the month's end is invalid, as the ECMAScript date time string format prescribes; the roll-over into the next month that V8 performs (`"2025-02-31"` as 3 March) is not modelled. The app writes dates only from a date input or from `toISOString().split('T')[0]`, which give neither case.
- `Records.DateRank`: orders dates day by day and ranks an unreadable date below every readable one. `new Date(b.date) - new Date(a.date)` gives `NaN` for unreadable dates, which makes the comparator inconsistent; that order is not modelled.
- `Collections.SortDesc` and `AnalyticsPage.SortByAmount` state sortedness and permutation. They do not state the stable order of equal keys that `Array.prototype.sort` keeps.
- JavaScript's placement of integer-like keys first in `Object.entries`: the model keeps insertion order for every key.
- Display formatting: `toLocaleString`, `toFixed`, the rupee sign, the month labels from `toLocaleDateString`, and the message texts that embed rounded numbers. Messages are kept only where a property needs them.
- `NaN` and infinities:
  - `avgDailySpending` over no days;
  - a zero target or limit in the goals percentages (`requires whole != 0.0`);
  - a zero maximum in the trend bars (`BarWidths` returns `None`).
- CSV cells are wrapped in quotes without escaping inner quotes, as the code does; nothing is claimed about quoted content.
- `GoalsPage.Card`: no contract for a negative limit; the card is specified for a positive monthly limit.
- Lower: folds ASCII letters only. `toLowerCase` also lowers letters outside ASCII (`"CAFÉ"` becomes `"café"`); the model leaves them as they are.
- FilteredTransactions: the search is case-insensitive for ASCII letters only, through `Lower`; a search for `"café"` does not match a description `"CAFÉ"` in the model.
- GuessCategory: the keyword match is case-insensitive for ASCII letters only, through `Lower`.
- `calculateDashboardStats` is modelled as returning the stats record. Storing it with `setDashboardStats` is not modelled.

## Findings

| source | as written | input that shows it | evidently intended | confidence | as-written member | corrected member |
|---|---|---|---|---|---|---|
| src/app/goals/page.js:216-218,390,403 | `isOverBudget` tests the usage percentage after it is capped at 100 by `Math.min`, so the test is never true and 'Over Budget' never shows | a budget with limit 100 and 150 spent, alert threshold 80: the card says 'Near Limit' | 'Over Budget' when the month's spend exceeds the limit | high; not executed | GoalsPage.BudgetStatusAsWritten, GoalsPage.OverspentShownNearLimit | GoalsPage.BudgetStatus, GoalsPage.Card |
| src/lib/analytics.js:247 | rows are joined with `'\\n'`, the two characters backslash and n | any list of transactions whose cells hold no line break: the exported file is one line | rows separated by a newline | high; not executed | Analytics.CsvContentAsWritten, Analytics.CsvAsWrittenIsOneLine | Analytics.CsvContent, Analytics.CsvLines |
| src/app/analytics/page.js:528,547 | a top-spending row's transaction count filters `t.category === category`, but the rows group by `t.category \|\| 'Other'` | one expense of 50 with no category: the row 'Other' shows 50 and "0 transactions" | count the expenses grouped under the row's key | high; not executed | AnalyticsPage.RowCountAsWritten, AnalyticsPage.OtherRowCountAsWritten | AnalyticsPage.RowCount, AnalyticsPage.RowCountPositive |
