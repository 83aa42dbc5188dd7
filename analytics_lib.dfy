/** The analytics library: month-over-month metrics, category trends, the
    budget analysis, the spending insights, the chart-data formatters and
    the text of the CSV export. The current and the previous month are the
    `YYYY-MM` keys the library reads from the clock; here they are
    parameters. */
module Analytics {
  import opened Wrappers
  import opened Text
  import opened Collections
  import opened Records

  // ---------------------------------------------------------------------------
  // Filters

  /** `t.date && t.date.startsWith(month)`, as a function to filter with. */
  function InMonthFilter(month: string): Transaction -> bool {
    t => InMonth(t, month)
  }

  /** The transactions of one type. */
  function KindFilter(kind: string): Transaction -> bool {
    (t: Transaction) => t.kind == Some(kind)
  }

  /** The sum of `amount || 0` over the transactions of type `kind` dated in
      `month`. */
  function MonthTotal(ts: seq<Transaction>, month: string, kind: string): real {
    Sum(Filter(Filter(ts, InMonthFilter(month)), KindFilter(kind)), Amount)
  }

  /** The month total grows by exactly the transactions that are of the
      type and in the month. */
  lemma MonthTotalSnoc(ts: seq<Transaction>, t: Transaction, month: string, kind: string)
    ensures MonthTotal(ts + [t], month, kind)
         == MonthTotal(ts, month, kind) + (if InMonth(t, month) && t.kind == Some(kind) then t.amount else 0.0)
  {
    var m := Filter(ts, InMonthFilter(month));
    FilterSnoc(ts, t, InMonthFilter(month));
    if InMonth(t, month) {
      FilterSnoc(m, t, KindFilter(kind));
      if t.kind == Some(kind) {
        SumSnoc(Filter(m, KindFilter(kind)), t, Amount);
      }
    }
  }

  // ---------------------------------------------------------------------------
  // calculateFinancialMetrics

  datatype Metrics = Metrics(
    income: real, expenses: real, savings: real, savingsRate: real,
    incomeChange: real, expenseChange: real, categoryTrends: seq<Trend>)

  /** `calculateFinancialMetrics(transactions)`, without its weekly breakdown. */
  method CalculateFinancialMetrics(ts: seq<Transaction>, currentMonth: string, lastMonth: string)
    returns (m: Metrics)
    ensures m.income == MonthTotal(ts, currentMonth, "income")
    ensures m.expenses == MonthTotal(ts, currentMonth, "expense")
    ensures m.savings == m.income - m.expenses
    ensures m.savingsRate == SavingsRate(m.income, m.expenses)
    ensures MonthTotal(ts, lastMonth, "income") <= 0.0 ==> m.incomeChange == 0.0
    ensures MonthTotal(ts, lastMonth, "expense") <= 0.0 ==> m.expenseChange == 0.0
    ensures m.incomeChange == Change(m.income, MonthTotal(ts, lastMonth, "income"))
    ensures m.expenseChange == Change(m.expenses, MonthTotal(ts, lastMonth, "expense"))
    ensures IsTrendTable(m.categoryTrends, ts, currentMonth, lastMonth)
  {
    var income := MonthTotal(ts, currentMonth, "income");
    var expenses := MonthTotal(ts, currentMonth, "expense");
    var lastIncome := MonthTotal(ts, lastMonth, "income");
    var lastExpenses := MonthTotal(ts, lastMonth, "expense");
    var trends := GetCategoryTrends(ts, currentMonth, lastMonth);
    m := Metrics(income, expenses, income - expenses, SavingsRate(income, expenses),
                 Change(income, lastIncome), Change(expenses, lastExpenses), trends);
  }

  // ---------------------------------------------------------------------------
  // getCategoryTrends

  /** The expenses `getCategoryTrends` counts this month. */
  function CurrentFilter(currentMonth: string): Transaction -> bool {
    t => IsExpense(t) && InMonth(t, currentMonth)
  }

  /** The expenses it counts last month: the `else if` only sees what the
      current month did not take. */
  function LastFilter(currentMonth: string, lastMonth: string): Transaction -> bool {
    t => IsExpense(t) && !InMonth(t, currentMonth) && InMonth(t, lastMonth)
  }

  /** `currentMonthByCategory` as the `forEach` leaves it. */
  function CurrentByCategory(ts: seq<Transaction>, currentMonth: string): seq<Total> {
    GroupSum(Filter(ts, CurrentFilter(currentMonth)), CategoryOrOther, Amount)
  }

  /** `lastMonthByCategory` as the `forEach` leaves it. */
  function LastByCategory(ts: seq<Transaction>, currentMonth: string, lastMonth: string): seq<Total> {
    GroupSum(Filter(ts, LastFilter(currentMonth, lastMonth)), CategoryOrOther, Amount)
  }

  /** `allCategories`: the keys of this month, then the keys of last month
      that are new. */
  function AllCategories(ts: seq<Transaction>, currentMonth: string, lastMonth: string): seq<string> {
    Dedupe(Keys(CurrentByCategory(ts, currentMonth)) + Keys(LastByCategory(ts, currentMonth, lastMonth)))
  }

  /** The change of a category, rounded to a tenth:
      `last > 0 ? (current - last) / last * 100 : (current > 0 ? 100 : 0)`. */
  function TrendChange(current: real, last: real): (r: real)
    ensures last <= 0.0 && current > 0.0 ==> r == 100.0
    ensures last <= 0.0 && current <= 0.0 ==> r == 0.0
    ensures last > 0.0 ==> Change(current, last) - 0.05 < r <= Change(current, last) + 0.05
  {
    RoundTenth(if last > 0.0 then (current - last) / last * 100.0 else if current > 0.0 then 100.0 else 0.0)
  }

  datatype Trend = Trend(category: string, current: real, last: real, change: real)

  /** What `trends[category]` holds for one category. */
  function TrendOf(ts: seq<Transaction>, currentMonth: string, lastMonth: string, category: string): Trend {
    var current := Lookup(CurrentByCategory(ts, currentMonth), category);
    var last := Lookup(LastByCategory(ts, currentMonth, lastMonth), category);
    Trend(category, current, last, TrendChange(current, last))
  }

  /** `trends` holds one entry per category of `allCategories`, in order. */
  predicate IsTrendTable(trends: seq<Trend>, ts: seq<Transaction>, currentMonth: string, lastMonth: string) {
    var all := AllCategories(ts, currentMonth, lastMonth);
    |trends| == |all| && forall i :: 0 <= i < |all| ==> trends[i] == TrendOf(ts, currentMonth, lastMonth, all[i])
  }

  /** One step of the `forEach`: the expense goes to the month it falls in,
      the current month first. */
  lemma CategoryStep(ts: seq<Transaction>, i: nat, currentMonth: string, lastMonth: string)
    requires i < |ts|
    ensures CurrentByCategory(ts[..i + 1], currentMonth)
         == if IsExpense(ts[i]) && InMonth(ts[i], currentMonth)
            then AddTo(CurrentByCategory(ts[..i], currentMonth), CategoryOrOther(ts[i]), ts[i].amount)
            else CurrentByCategory(ts[..i], currentMonth)
    ensures LastByCategory(ts[..i + 1], currentMonth, lastMonth)
         == if IsExpense(ts[i]) && !InMonth(ts[i], currentMonth) && InMonth(ts[i], lastMonth)
            then AddTo(LastByCategory(ts[..i], currentMonth, lastMonth), CategoryOrOther(ts[i]), ts[i].amount)
            else LastByCategory(ts[..i], currentMonth, lastMonth)
  {
    var t := ts[i];
    assert ts[..i + 1] == ts[..i] + [t];
    FilterSnoc(ts[..i], t, CurrentFilter(currentMonth));
    FilterSnoc(ts[..i], t, LastFilter(currentMonth, lastMonth));
    GroupSumSnoc(Filter(ts[..i], CurrentFilter(currentMonth)), t, CategoryOrOther, Amount);
    GroupSumSnoc(Filter(ts[..i], LastFilter(currentMonth, lastMonth)), t, CategoryOrOther, Amount);
  }

  /** The first `forEach` of `getCategoryTrends`: every expense is added to
      the total of its category in the month it falls in. */
  method TotalsByMonth(ts: seq<Transaction>, currentMonth: string, lastMonth: string)
    returns (current: seq<Total>, last: seq<Total>)
    ensures current == CurrentByCategory(ts, currentMonth)
    ensures last == LastByCategory(ts, currentMonth, lastMonth)
  {
    current := [];
    last := [];
    var i := 0;
    while i < |ts|
      invariant i <= |ts|
      invariant current == CurrentByCategory(ts[..i], currentMonth)
      invariant last == LastByCategory(ts[..i], currentMonth, lastMonth)
    {
      var t := ts[i];
      CategoryStep(ts, i, currentMonth, lastMonth);
      if IsExpense(t) {
        if InMonth(t, currentMonth) {
          current := AddTo(current, CategoryOrOther(t), t.amount);
        } else if InMonth(t, lastMonth) {
          last := AddTo(last, CategoryOrOther(t), t.amount);
        }
      }
      i := i + 1;
    }
    assert ts[..i] == ts;
  }

  /** The second `forEach` of `getCategoryTrends`: one trend per category
      of `all`, read off the two month totals. */
  method BuildTrends(current: seq<Total>, last: seq<Total>, all: seq<string>) returns (trends: seq<Trend>)
    ensures |trends| == |all|
    ensures forall k :: 0 <= k < |all| ==>
      trends[k] == Trend(all[k], Lookup(current, all[k]), Lookup(last, all[k]),
                         TrendChange(Lookup(current, all[k]), Lookup(last, all[k])))
  {
    trends := [];
    var j := 0;
    while j < |all|
      invariant j <= |all|
      invariant |trends| == j
      invariant forall k :: 0 <= k < j ==>
        trends[k] == Trend(all[k], Lookup(current, all[k]), Lookup(last, all[k]),
                           TrendChange(Lookup(current, all[k]), Lookup(last, all[k])))
    {
      var c := Lookup(current, all[j]);
      var l := Lookup(last, all[j]);
      trends := trends + [Trend(all[j], c, l, TrendChange(c, l))];
      j := j + 1;
    }
  }

  /** `getCategoryTrends(transactions)`: the totals of the two months, then
      a second pass builds the trend of every category seen. */
  method GetCategoryTrends(ts: seq<Transaction>, currentMonth: string, lastMonth: string)
    returns (trends: seq<Trend>)
    ensures IsTrendTable(trends, ts, currentMonth, lastMonth)
    ensures forall k :: ((exists i :: 0 <= i < |trends| && trends[i].category == k)
        <==> k in Keys(CurrentByCategory(ts, currentMonth)) || k in Keys(LastByCategory(ts, currentMonth, lastMonth)))
  {
    var current, last := TotalsByMonth(ts, currentMonth, lastMonth);
    var all := Dedupe(Keys(current) + Keys(last));
    trends := BuildTrends(current, last, all);
    TrendTableCategories(trends, ts, currentMonth, lastMonth);
  }

  /** A trend table has a trend for a category exactly when the category has
      a total in one of the two months. */
  lemma TrendTableCategories(trends: seq<Trend>, ts: seq<Transaction>, currentMonth: string, lastMonth: string)
    requires IsTrendTable(trends, ts, currentMonth, lastMonth)
    ensures forall k :: ((exists i :: 0 <= i < |trends| && trends[i].category == k)
        <==> k in Keys(CurrentByCategory(ts, currentMonth)) || k in Keys(LastByCategory(ts, currentMonth, lastMonth)))
  {
    var cur, lst := Keys(CurrentByCategory(ts, currentMonth)), Keys(LastByCategory(ts, currentMonth, lastMonth));
    var all := AllCategories(ts, currentMonth, lastMonth);
    forall k ensures (exists i :: 0 <= i < |trends| && trends[i].category == k) <==> k in cur || k in lst {
      assert k in all <==> k in cur + lst;
      assert k in cur + lst <==> k in cur || k in lst;
      if k in all {
        var i :| 0 <= i < |all| && all[i] == k;
        assert trends[i].category == k;
      }
      if exists i :: 0 <= i < |trends| && trends[i].category == k {
        var i :| 0 <= i < |trends| && trends[i].category == k;
        assert all[i] == k;
      }
    }
  }

  /** The categories of the trends are those of the expenses dated this
      month or last month, a missing category counting as 'Other'. */
  lemma TrendCategories(ts: seq<Transaction>, currentMonth: string, lastMonth: string, k: string)
    ensures k in AllCategories(ts, currentMonth, lastMonth)
        <==> exists t :: t in ts && IsExpense(t) && CategoryOrOther(t) == k
                        && (InMonth(t, currentMonth) || InMonth(t, lastMonth))
  {
    var cur := Filter(ts, CurrentFilter(currentMonth));
    var lst := Filter(ts, LastFilter(currentMonth, lastMonth));
    GroupSumKeys(cur, CategoryOrOther, Amount, k);
    GroupSumKeys(lst, CategoryOrOther, Amount, k);
    forall t {
      FilterMember(ts, CurrentFilter(currentMonth), t);
    }
    forall t {
      FilterMember(ts, LastFilter(currentMonth, lastMonth), t);
    }
  }

  /** A transaction that is not an expense changes no trend. */
  lemma TrendsIgnoreNonExpense(ts: seq<Transaction>, t: Transaction, currentMonth: string, lastMonth: string)
    requires !IsExpense(t)
    ensures CurrentByCategory(ts + [t], currentMonth) == CurrentByCategory(ts, currentMonth)
    ensures LastByCategory(ts + [t], currentMonth, lastMonth) == LastByCategory(ts, currentMonth, lastMonth)
  {
    FilterSnoc(ts, t, CurrentFilter(currentMonth));
    FilterSnoc(ts, t, LastFilter(currentMonth, lastMonth));
  }

  /** The expenses counted in a trend, in either month. */
  function TrendFilter(currentMonth: string, lastMonth: string): Transaction -> bool {
    t => IsExpense(t) && (InMonth(t, currentMonth) || InMonth(t, lastMonth))
  }

  /** No expense is counted in both months: the totals of the two months
      add up to the sum over the expenses dated in either. */
  lemma TrendsCountOnce(ts: seq<Transaction>, currentMonth: string, lastMonth: string)
    ensures SumTotals(CurrentByCategory(ts, currentMonth)) + SumTotals(LastByCategory(ts, currentMonth, lastMonth))
         == Sum(Filter(ts, TrendFilter(currentMonth, lastMonth)), Amount)
  {
    var p, q := CurrentFilter(currentMonth), LastFilter(currentMonth, lastMonth);
    var both := TrendFilter(currentMonth, lastMonth);
    GroupSumTotal(Filter(ts, p), CategoryOrOther, Amount);
    GroupSumTotal(Filter(ts, q), CategoryOrOther, Amount);
    SumFilter(ts, p, Amount);
    SumFilter(ts, q, Amount);
    SumFilter(ts, both, Amount);
    SumMaskedDisjoint(ts, p, q, Amount);
    SumCongruent(ts, Masked(Either(p, q), Amount), Masked(both, Amount));
  }

  // ---------------------------------------------------------------------------
  // getBudgetAnalysis

  /** `budgetLimits[category] || 0`. */
  function LimitOf(limits: map<string, real>, category: string): real {
    if category in limits then limits[category] else 0.0
  }

  /** `budget > 0 ? spent / budget * 100 : 0`. */
  function BudgetPercentage(spent: real, budget: real): (r: real)
    ensures budget <= 0.0 ==> r == 0.0
    ensures budget > 0.0 ==> r * budget == spent * 100.0
  {
    if budget > 0.0 then spent / budget * 100.0 else 0.0
  }

  /** The status read off the unrounded percentage. */
  function AnalysisStatus(percentage: real): (r: string)
    ensures r == "over" || r == "warning" || r == "good"
  {
    if percentage > 100.0 then "over" else if percentage > 80.0 then "warning" else "good"
  }

  lemma ScalePositive(a: real, b: real, c: real)
    requires c > 0.0
    ensures a > b <==> a * c > b * c
  {
    assert a * c - b * c == (a - b) * c;
    if a > b { assert (a - b) * c > 0.0; }
    if a <= b { assert (b - a) * c >= 0.0; }
  }

  /** The status says how the spending stands against the budget: over it,
      above four fifths of it, or below; with no budget it is always good. */
  lemma AnalysisStatusBySpending(spent: real, budget: real)
    ensures budget <= 0.0 ==> AnalysisStatus(BudgetPercentage(spent, budget)) == "good"
    ensures budget > 0.0 ==> (AnalysisStatus(BudgetPercentage(spent, budget)) == "over" <==> spent > budget)
    ensures budget > 0.0 ==> (AnalysisStatus(BudgetPercentage(spent, budget)) == "warning"
        <==> spent * 5.0 > budget * 4.0 && spent <= budget)
    ensures budget > 0.0 ==> (AnalysisStatus(BudgetPercentage(spent, budget)) == "good"
        <==> spent * 5.0 <= budget * 4.0)
  {
    if budget > 0.0 {
      PercentageAbove(spent, budget, 100.0);
      PercentageAbove(spent, budget, 80.0);
    }
  }

  lemma PercentageAbove(spent: real, budget: real, bound: real)
    requires budget > 0.0
    ensures BudgetPercentage(spent, budget) > bound <==> spent * 100.0 > bound * budget
  {
    var p := BudgetPercentage(spent, budget);
    assert p * budget == spent * 100.0;
    ScalePositive(p, bound, budget);
  }

  datatype Analysis = Analysis(
    category: string, spent: real, budget: real, remaining: real, percentage: real, status: string)

  /** `analysis[category]` for one entry of the current month's expenses. */
  function AnalysisOf(entry: Total, limits: map<string, real>): (r: Analysis)
    ensures r.category == entry.key && r.spent == entry.amount && r.budget == LimitOf(limits, entry.key)
    ensures r.remaining == r.budget - r.spent
    ensures r.budget <= 0.0 ==> r.percentage == 0.0 && r.status == "good"
    ensures r.status == AnalysisStatus(BudgetPercentage(r.spent, r.budget))
    ensures BudgetPercentage(r.spent, r.budget) - 0.05 < r.percentage <= BudgetPercentage(r.spent, r.budget) + 0.05
  {
    var budget := LimitOf(limits, entry.key);
    var percentage := BudgetPercentage(entry.amount, budget);
    Analysis(entry.key, entry.amount, budget, budget - entry.amount, RoundTenth(percentage),
             AnalysisStatus(percentage))
  }

  /** `getBudgetAnalysis(transactions, budgetLimits)`: one analysis per
      category that has expenses this month, in the order of the totals. */
  function GetBudgetAnalysis(ts: seq<Transaction>, currentMonth: string, limits: map<string, real>)
    : (r: seq<Analysis>)
    ensures |r| == |CurrentByCategory(ts, currentMonth)|
    ensures forall i :: 0 <= i < |r| ==> r[i] == AnalysisOf(CurrentByCategory(ts, currentMonth)[i], limits)
  {
    var spent := CurrentByCategory(ts, currentMonth);
    seq(|spent|, i requires 0 <= i < |spent| => AnalysisOf(spent[i], limits))
  }

  /** A category is analysed exactly when it has an expense this month. */
  lemma BudgetAnalysisCategories(ts: seq<Transaction>, currentMonth: string, limits: map<string, real>, k: string)
    ensures (exists i :: 0 <= i < |GetBudgetAnalysis(ts, currentMonth, limits)|
                && GetBudgetAnalysis(ts, currentMonth, limits)[i].category == k)
        <==> exists t :: t in ts && IsExpense(t) && InMonth(t, currentMonth) && CategoryOrOther(t) == k
  {
    var r := GetBudgetAnalysis(ts, currentMonth, limits);
    var spent := CurrentByCategory(ts, currentMonth);
    GroupSumKeys(Filter(ts, CurrentFilter(currentMonth)), CategoryOrOther, Amount, k);
    if k in Keys(spent) {
      var i :| 0 <= i < |spent| && Keys(spent)[i] == k;
      assert r[i].category == k;
    }
    forall t {
      FilterMember(ts, CurrentFilter(currentMonth), t);
    }
  }

  /** What is analysed as spent in a category is the sum of the category's
      expenses this month. */
  lemma BudgetAnalysisSpent(ts: seq<Transaction>, currentMonth: string, limits: map<string, real>, i: nat)
    requires i < |GetBudgetAnalysis(ts, currentMonth, limits)|
    ensures GetBudgetAnalysis(ts, currentMonth, limits)[i].spent
         == Sum(ts, Masked(CurrentFilter(currentMonth), Masked(KeyIs(CategoryOrOther, GetBudgetAnalysis(ts, currentMonth, limits)[i].category), Amount)))
  {
    var r := GetBudgetAnalysis(ts, currentMonth, limits);
    var spent := CurrentByCategory(ts, currentMonth);
    var k := r[i].category;
    LookupAt(spent, i);
    GroupSumLookup(Filter(ts, CurrentFilter(currentMonth)), CategoryOrOther, Amount, k);
    SumFilter(ts, CurrentFilter(currentMonth), Masked(KeyIs(CategoryOrOther, k), Amount));
  }

  // ---------------------------------------------------------------------------
  // getSpendingInsights

  datatype Insight = Insight(kind: string, title: string, message: string)

  /** `dailySpending` is keyed by `t.date` as an object key. `None` stands
      for a missing `date` field, which becomes the key 'undefined'; a date
      stored as `null`, which would become the key 'null', is not told
      apart from a missing one. */
  function DayKey(t: Transaction): string {
    if t.date.Some? then t.date.value else "undefined"
  }

  /** `dailySpending`: the expenses added up per date. */
  function DailySpending(ts: seq<Transaction>): seq<Total> {
    GroupSum(Filter(ts, IsExpense), DayKey, Amount)
  }

  /** `categoryTotals`: the expenses added up per category. */
  function CategoryTotals(ts: seq<Transaction>): seq<Total> {
    GroupSum(Filter(ts, IsExpense), CategoryOrOther, Amount)
  }

  /** How many entries exceed `bound`. */
  function CountAbove(s: seq<Total>, bound: real): (n: nat)
    ensures n <= |s|
  {
    if s == [] then 0 else (if s[0].amount > bound then 1 else 0) + CountAbove(s[1..], bound)
  }

  /** With non-negative entries, the entries above a non-negative bound add
      up to more than the bound as many times as they are. */
  lemma {:induction false} SumAboveBound(s: seq<Total>, bound: real)
    requires bound >= 0.0 && forall i :: 0 <= i < |s| ==> s[i].amount >= 0.0
    ensures SumTotals(s) >= CountAbove(s, bound) as real * bound
    ensures CountAbove(s, bound) > 0 ==> SumTotals(s) > CountAbove(s, bound) as real * bound
  {
    if s != [] {
      SumAboveBound(s[1..], bound);
    }
  }

  /** The high-spending warning: given when some day spends more than twice
      the average day. With no day the average is `NaN`, which makes no day
      a high one. */
  function HighSpendingInsight(daily: seq<Total>): (r: seq<Insight>)
    ensures |r| <= 1
    ensures forall i :: 0 <= i < |r| ==> r[i].kind == "warning" && r[i].title == "High Spending Days Detected"
  {
    if daily == [] then []
    else
      var high := CountAbove(daily, TwiceAverage(daily));
      if high > 0 then
        [Insight("warning", "High Spending Days Detected",
                 "You had " + NatToString(high) + " days with spending above " + RupeeAsStored
                 + IntToString(Round(TwiceAverage(daily))))]
      else []
  }

  /** `avgDailySpending`. */
  function MeanSpending(daily: seq<Total>): real
    requires daily != []
  {
    SumTotals(daily) / |daily| as real
  }

  /** `avgDailySpending * 2`. */
  function TwiceAverage(daily: seq<Total>): real
    requires daily != []
  {
    MeanSpending(daily) * 2.0
  }

  /** Some entry exceeds `bound` exactly when the count above it is not
      zero. */
  lemma {:induction false} CountAboveSome(s: seq<Total>, bound: real)
    ensures CountAbove(s, bound) > 0 <==> exists i :: 0 <= i < |s| && s[i].amount > bound
  {
    if s != [] {
      CountAboveSome(s[1..], bound);
      if exists i :: 0 <= i < |s[1..]| && s[1..][i].amount > bound {
        var i :| 0 <= i < |s[1..]| && s[1..][i].amount > bound;
        assert s[i + 1].amount > bound;
      }
      if exists i :: 0 <= i < |s| && s[i].amount > bound {
        var i :| 0 <= i < |s| && s[i].amount > bound;
        if i > 0 { assert s[1..][i - 1].amount > bound; }
      }
    }
  }

  /** The warning is given exactly when some day spends more than twice the
      average day; with no day there is no warning. */
  lemma HighSpendingWhen(daily: seq<Total>)
    ensures HighSpendingInsight(daily) != [] <==>
      daily != [] && exists i :: 0 <= i < |daily| && daily[i].amount > 2.0 * MeanSpending(daily)
  {
    if daily != [] {
      CountAboveSome(daily, TwiceAverage(daily));
    }
  }

  /** The rupee sign as the file stores it: the UTF-8 bytes of '₹' read
      back one byte at a time, as three characters. */
  const RupeeAsStored: string := "\U{E2}\U{201A}\U{B9}"

  /** When no day spends less than nothing, fewer than half of the days
      spend more than `bound`, twice the average (`bound * n == 2 * total`). */
  lemma HighDaysFewerThanHalf(daily: seq<Total>, bound: real)
    requires forall i :: 0 <= i < |daily| ==> daily[i].amount >= 0.0
    requires bound >= 0.0 && bound * |daily| as real == SumTotals(daily) * 2.0
    ensures CountAbove(daily, bound) == 0 || 2 * CountAbove(daily, bound) < |daily|
  {
    SumAboveBound(daily, bound);
    if CountAbove(daily, bound) > 0 {
      FewerThanHalf(SumTotals(daily), |daily|, CountAbove(daily, bound), bound);
    }
  }

  /** A single day of spending is never a high one. */
  lemma SingleDayNotHigh(day: Total)
    requires day.amount >= 0.0
    ensures HighSpendingInsight([day]) == []
  {
    assert SumTotals([day]) == day.amount;
    assert SumTotals([day]) / 1.0 * 2.0 >= day.amount;
  }

  /** If `c` entries each exceed twice the average of `n` entries whose
      total is `total`, then `2c < n`. */
  lemma FewerThanHalf(total: real, n: nat, c: nat, bound: real)
    requires c >= 1 && bound >= 0.0
    requires bound * n as real == total * 2.0 && total > c as real * bound
    ensures 2 * c < n
  {
    assert c as real * bound >= 0.0;
    assert total * n as real > total * (2.0 * c as real) by {
      assert total * n as real == c as real * (bound * n as real) + (total - c as real * bound) * n as real;
      assert c as real * (bound * n as real) == total * (2.0 * c as real);
      assert (total - c as real * bound) * n as real >= 0.0;
    }
    ScalePositiveBack(n as real, 2.0 * c as real, total);
  }

  lemma ScalePositiveBack(a: real, b: real, c: real)
    requires c > 0.0 && c * a > c * b
    ensures a > b
  {
    assert c * (a - b) > 0.0;
  }

  /** `dominantCategory`: the first entry with the largest positive total,
      or `['', 0]` when no total is positive. */
  function Dominant(s: seq<Total>): (d: Total)
    ensures d.amount >= 0.0
    ensures forall i :: 0 <= i < |s| ==> s[i].amount <= d.amount
    ensures d == Total("", 0.0) || d in s
    ensures d.amount > 0.0 ==> exists i :: 0 <= i < |s| && s[i] == d && forall j :: 0 <= j < i ==> s[j].amount < d.amount
    ensures d.amount == 0.0 ==> d == Total("", 0.0)
  {
    if s == [] then Total("", 0.0)
    else
      var init, last := s[..|s| - 1], s[|s| - 1];
      assert s == init + [last];
      var m := Dominant(init);
      if last.amount > m.amount then last else m
  }

  /** A whole percentage in the text of a message: dividing by a zero total
      gives `Infinity`. */
  function PercentText(part: real, total: real): string {
    if total == 0.0 then "Infinity" else IntToString(Round(part / total * 100.0))
  }

  function ConcentrationInsight(totals: seq<Total>): (r: seq<Insight>)
    ensures |r| <= 1
    ensures forall i :: 0 <= i < |r| ==> r[i].kind == "info" && r[i].title == "Category Concentration"
    ensures r != [] <==> Dominant(totals).amount > SumTotals(totals) * 0.4
  {
    var d := Dominant(totals);
    var total := SumTotals(totals);
    if d.amount > total * 0.4 then
      [Insight("info", "Category Concentration",
               d.key + " accounts for " + PercentText(d.amount, total) + "% of your expenses")]
    else []
  }

  /** The assessment of the savings rate: a warning below 10, praise above
      30, nothing in between. */
  function SavingsInsight(rate: real): (r: seq<Insight>)
    ensures |r| <= 1
    ensures r == [] <==> 10.0 <= rate <= 30.0
    ensures r != [] && r[0].kind == "warning" <==> rate < 10.0
    ensures r != [] && r[0].kind == "success" <==> rate > 30.0
    ensures r != [] ==> (r[0].title == "Low Savings Rate" <==> rate < 10.0)
    ensures r != [] ==> (r[0].title == "Excellent Savings Rate" <==> rate > 30.0)
  {
    if rate < 10.0 then
      [Insight("warning", "Low Savings Rate",
               "Your savings rate is " + IntToString(Round(rate)) + "%. Consider reducing expenses or increasing income.")]
    else if rate > 30.0 then
      [Insight("success", "Excellent Savings Rate",
               "Great job! Your savings rate of " + IntToString(Round(rate)) + "% is above recommended levels.")]
    else []
  }

  /** The savings rate the insights assess: all income against all
      expenses, whatever their dates. */
  function InsightSavingsRate(ts: seq<Transaction>): real {
    SavingsRate(Sum(Filter(ts, IsIncome), Amount), SumTotals(CategoryTotals(ts)))
  }

  /** `totalExpenses`, the sum of the category totals, is the sum of all
      expenses. */
  lemma InsightExpensesTotal(ts: seq<Transaction>)
    ensures SumTotals(CategoryTotals(ts)) == Sum(Filter(ts, IsExpense), Amount)
  {
    GroupSumTotal(Filter(ts, IsExpense), CategoryOrOther, Amount);
  }

  /** Whether some insight has the title `title`. */
  predicate HasInsight(insights: seq<Insight>, title: string) {
    exists i :: 0 <= i < |insights| && insights[i].title == title
  }

  /** `getSpendingInsights(transactions)`: two passes over the expenses fill
      `dailySpending` and `categoryTotals`; then up to three insights are
      pushed, in order. */
  method GetSpendingInsights(ts: seq<Transaction>) returns (insights: seq<Insight>)
    ensures insights == HighSpendingInsight(DailySpending(ts)) + ConcentrationInsight(CategoryTotals(ts))
                        + SavingsInsight(InsightSavingsRate(ts))
    ensures |insights| <= 3
    ensures HasInsight(insights, "Low Savings Rate") <==> InsightSavingsRate(ts) < 10.0
    ensures HasInsight(insights, "Excellent Savings Rate") <==> InsightSavingsRate(ts) > 30.0
  {
    var daily := GroupExpenses(ts, DayKey);
    insights := HighSpendingInsight(daily);
    var totals := GroupExpenses(ts, CategoryOrOther);
    insights := insights + ConcentrationInsight(totals);
    FirstTitles(daily, totals);
    SavingsTitles(insights, InsightSavingsRate(ts));
    insights := insights + SavingsInsight(SavingsRate(Sum(Filter(ts, IsIncome), Amount), SumTotals(totals)));
  }

  /** Below the savings insight, no insight speaks of the savings rate. */
  lemma SavingsTitles(first: seq<Insight>, rate: real)
    requires forall i :: 0 <= i < |first| ==> (first[i].title == "High Spending Days Detected"
                                            || first[i].title == "Category Concentration")
    ensures HasInsight(first + SavingsInsight(rate), "Low Savings Rate") <==> rate < 10.0
    ensures HasInsight(first + SavingsInsight(rate), "Excellent Savings Rate") <==> rate > 30.0
  {
    var insights, n := first + SavingsInsight(rate), |first|;
    if rate < 10.0 || rate > 30.0 {
      assert insights[n] == SavingsInsight(rate)[0];
    }
    if HasInsight(insights, "Low Savings Rate") {
      var i :| 0 <= i < |insights| && insights[i].title == "Low Savings Rate";
      assert insights[i] == SavingsInsight(rate)[i - n];
    }
    if HasInsight(insights, "Excellent Savings Rate") {
      var i :| 0 <= i < |insights| && insights[i].title == "Excellent Savings Rate";
      assert insights[i] == SavingsInsight(rate)[i - n];
    }
  }

  /** The two insights pushed before the savings one. */
  lemma FirstTitles(daily: seq<Total>, totals: seq<Total>)
    ensures var first := HighSpendingInsight(daily) + ConcentrationInsight(totals);
      forall i :: 0 <= i < |first| ==> (first[i].title == "High Spending Days Detected"
                                     || first[i].title == "Category Concentration")
  {
    var high, conc := HighSpendingInsight(daily), ConcentrationInsight(totals);
    var first: seq<Insight> := high + conc;
    forall i | 0 <= i < |first|
      ensures first[i].title == "High Spending Days Detected" || first[i].title == "Category Concentration"
    {
      if i < |high| { assert first[i] == high[i]; } else { assert first[i] == conc[i - |high|]; }
    }
  }

  // ---------------------------------------------------------------------------
  // formatChartData

  datatype MonthEntry = MonthEntry(month: string, income: real, expenses: real)

  datatype TrendPoint = TrendPoint(month: string, income: real, expenses: real, savings: real)

  /** A month with any income or any expense. */
  predicate Active(e: MonthEntry) { e.income > 0.0 || e.expenses > 0.0 }

  /** The point a month is drawn as: `month.slice(-2)` and its savings. */
  function Point(e: MonthEntry): (p: TrendPoint)
    ensures p.income == e.income && p.expenses == e.expenses && p.savings == e.income - e.expenses
    ensures p.month == LastTwo(e.month)
  {
    TrendPoint(LastTwo(e.month), e.income, e.expenses, e.income - e.expenses)
  }

  /** `formatChartData.monthlyTrend(monthlyData)`: the active months, in
      order, as points. */
  function MonthlyTrend(data: seq<MonthEntry>): (r: seq<TrendPoint>)
    ensures |r| <= |data|
    ensures forall i :: 0 <= i < |r| ==> r[i].savings == r[i].income - r[i].expenses
    ensures forall i :: 0 <= i < |r| ==> r[i].income > 0.0 || r[i].expenses > 0.0
    ensures forall e :: e in data && Active(e) ==> Point(e) in r
    ensures forall p :: p in r ==> exists e :: e in data && Active(e) && p == Point(e)
  {
    if data == [] then []
    else
      var rest := MonthlyTrend(data[1..]);
      assert forall e :: e in data ==> e == data[0] || e in data[1..];
      (if Active(data[0]) then [Point(data[0])] else []) + rest
  }

  /** The points of `s`, one per entry, in order. */
  function Points(s: seq<MonthEntry>): (r: seq<TrendPoint>)
    ensures |r| == |s|
  {
    seq(|s|, i requires 0 <= i < |s| => Point(s[i]))
  }

  lemma PointsCons(e: MonthEntry, s: seq<MonthEntry>)
    ensures Points([e] + s) == [Point(e)] + Points(s)
  {
  }

  /** The trend is `filter` then `map`: the active months, in their order,
      each as its point. */
  lemma {:induction false} MonthlyTrendIsFilterMap(data: seq<MonthEntry>)
    ensures MonthlyTrend(data) == Points(Filter(data, Active))
  {
    if data != [] {
      assert data == [data[0]] + data[1..];
      MonthlyTrendIsFilterMap(data[1..]);
      FilterCons(data[0], data[1..], Active);
      PointsCons(data[0], Filter(data[1..], Active));
    }
  }

  /** A month with neither income nor expenses is not drawn. */
  lemma MonthlyTrendDropsIdle(data: seq<MonthEntry>, e: MonthEntry)
    requires !Active(e)
    ensures MonthlyTrend([e] + data) == MonthlyTrend(data)
  {
    assert ([e] + data)[1..] == data;
  }

  datatype Slice = Slice(name: string, value: real)

  function ToSlice(e: Total): Slice { Slice(e.key, e.amount) }

  /** `formatChartData.categoryPie(categoryBreakdown)`: the entries, largest
      first, cut to eight. */
  function CategoryPie(breakdown: seq<Total>): (r: seq<Slice>)
    ensures |r| == if |breakdown| < 8 then |breakdown| else 8
  {
    var sorted := SortDesc(breakdown, TotalAmount);
    assert |sorted| == |multiset(sorted)| == |breakdown|;
    var top := Take(sorted, 8);
    seq(|top|, i requires 0 <= i < |top| => ToSlice(top[i]))
  }

  /** The slices are entries of the breakdown, largest first. */
  lemma CategoryPieOrdered(breakdown: seq<Total>)
    ensures var r := CategoryPie(breakdown);
      (forall i, j :: 0 <= i < j < |r| ==> r[i].value >= r[j].value)
      && forall i :: 0 <= i < |r| ==> Total(r[i].name, r[i].value) in breakdown
  {
    var sorted := SortDesc(breakdown, TotalAmount);
    TakeSortedDesc(sorted, TotalAmount, 8);
    var top := Take(sorted, 8);
    var r := CategoryPie(breakdown);
    forall i | 0 <= i < |r| ensures Total(r[i].name, r[i].value) in breakdown {
      assert r[i] == ToSlice(top[i]) && top[i] == sorted[i];
      assert sorted[i] in multiset(breakdown);
    }
  }

  /** No entry left out of the pie is larger than a slice in it. */
  lemma CategoryPieKeepsLargest(breakdown: seq<Total>, e: Total, i: int)
    requires e in breakdown && 0 <= i < |CategoryPie(breakdown)| && e.amount > CategoryPie(breakdown)[i].value
    ensures ToSlice(e) in CategoryPie(breakdown)
  {
    var sorted := SortDesc(breakdown, TotalAmount);
    TakeSortedDesc(sorted, TotalAmount, 8);
    var top := Take(sorted, 8);
    var r := CategoryPie(breakdown);
    assert e in multiset(sorted);
    var j :| 0 <= j < |sorted| && sorted[j] == e;
    assert r[i] == ToSlice(sorted[i]);
    assert j < |top|;
    assert r[j] == ToSlice(e);
  }

  datatype WeekEntry = WeekEntry(week: string, income: real, expenses: real)

  datatype WeekPoint = WeekPoint(week: string, income: real, expenses: real, net: real)

  /** `formatChartData.weeklyComparison(weeklyData)`: every week, in order,
      with its net. */
  function WeeklyComparison(weeks: seq<WeekEntry>): (r: seq<WeekPoint>)
    ensures |r| == |weeks|
    ensures forall i :: 0 <= i < |r| ==> (r[i].week == weeks[i].week && r[i].income == weeks[i].income
        && r[i].expenses == weeks[i].expenses)
    ensures forall i :: 0 <= i < |r| ==> r[i].net == r[i].income - r[i].expenses
  {
    seq(|weeks|, i requires 0 <= i < |weeks| =>
      WeekPoint(weeks[i].week, weeks[i].income, weeks[i].expenses, weeks[i].income - weeks[i].expenses))
  }

  function WeekIncome(w: WeekEntry): real { w.income }
  function WeekExpenses(w: WeekEntry): real { w.expenses }
  function WeekNet(p: WeekPoint): real { p.net }

  /** The weekly nets add up to the period's income less its expenses. */
  lemma {:induction false} WeeklyNetsAddUp(weeks: seq<WeekEntry>)
    ensures Sum(WeeklyComparison(weeks), WeekNet) == Sum(weeks, WeekIncome) - Sum(weeks, WeekExpenses)
  {
    if weeks != [] {
      var init := weeks[..|weeks| - 1];
      WeeklyNetsAddUp(init);
      var r := WeeklyComparison(weeks);
      assert r[..|r| - 1] == WeeklyComparison(init);
    }
  }

  // ---------------------------------------------------------------------------
  // The text of exportToCSV

  const CsvHeader: seq<string> := ["Date", "Type", "Category", "Description", "Amount", "Currency"]

  /** The cells of a transaction. `numberText` is the text JavaScript
      writes for a number. */
  function CsvCells(t: Transaction, numberText: real -> string): (r: seq<string>)
    ensures |r| == |CsvHeader|
    ensures r[4] == numberText(t.amount)
    ensures t.date.Some? && t.date.value != "" ==> r[0] == t.date.value
    ensures t.kind.Some? && t.kind.value != "" ==> r[1] == t.kind.value
    ensures t.category.Some? && t.category.value != "" ==> r[2] == t.category.value
    ensures t.description.Some? && t.description.value != "" ==> r[3] == t.description.value
    ensures t.currency.Some? && t.currency.value != "" ==> r[5] == t.currency.value
    ensures t.date.None? || t.date == Some("") ==> r[0] == ""
    ensures t.kind.None? || t.kind == Some("") ==> r[1] == ""
    ensures t.category.None? || t.category == Some("") ==> r[2] == ""
    ensures t.description.None? || t.description == Some("") ==> r[3] == ""
    ensures t.currency.None? || t.currency == Some("") ==> r[5] == "INR"
  {
    [Or(t.date, ""), Or(t.kind, ""), Or(t.category, ""), Or(t.description, ""), numberText(t.amount),
     Or(t.currency, "INR")]
  }

  /** `"${cell}"`. */
  function Quote(cell: string): (r: string)
    ensures |r| == |cell| + 2 && r[0] == '"' && r[|r| - 1] == '"' && r[1..|r| - 1] == cell
  {
    "\"" + cell + "\""
  }

  /** `row.map(cell => `"${cell}"`).join(',')`. */
  function CsvRow(cells: seq<string>): string {
    Join(seq(|cells|, i requires 0 <= i < |cells| => Quote(cells[i])), ",")
  }

  /** The header row, then one row per transaction. */
  function CsvRows(ts: seq<Transaction>, numberText: real -> string): (r: seq<string>)
    ensures |r| == |ts| + 1
    ensures r[0] == CsvRow(CsvHeader)
    ensures forall i :: 0 <= i < |ts| ==> r[i + 1] == CsvRow(CsvCells(ts[i], numberText))
  {
    [CsvRow(CsvHeader)] + seq(|ts|, i requires 0 <= i < |ts| => CsvRow(CsvCells(ts[i], numberText)))
  }

  /** `csvContent` as written: the rows joined by the two characters `\`
      and `n`. */
  function CsvContentAsWritten(ts: seq<Transaction>, numberText: real -> string): string {
    Join(CsvRows(ts, numberText), "\\n")
  }

  /** The content evidently meant: one row per line. */
  function CsvContent(ts: seq<Transaction>, numberText: real -> string): string {
    Join(CsvRows(ts, numberText), "\n")
  }

  predicate NoNewline(s: string) { forall k :: 0 <= k < |s| ==> s[k] != '\n' }

  /** No cell of any transaction holds a line break. */
  predicate CsvCellsSingleLine(ts: seq<Transaction>, numberText: real -> string) {
    forall i, c :: 0 <= i < |ts| && 0 <= c < |CsvHeader| ==> NoNewline(CsvCells(ts[i], numberText)[c])
  }

  lemma RowSingleLine(cells: seq<string>)
    requires forall c :: 0 <= c < |cells| ==> NoNewline(cells[c])
    ensures NoNewline(CsvRow(cells))
  {
    var quoted := seq(|cells|, i requires 0 <= i < |cells| => Quote(cells[i]));
    forall i, k | 0 <= i < |quoted| && 0 <= k < |quoted[i]| ensures quoted[i][k] != '\n' {
      if 0 < k < |quoted[i]| - 1 {
        assert quoted[i][k] == cells[i][k - 1];
      }
    }
    JoinNoNewline(quoted, ",");
  }

  lemma RowsSingleLine(ts: seq<Transaction>, numberText: real -> string)
    requires CsvCellsSingleLine(ts, numberText)
    ensures forall i, k :: (0 <= i < |CsvRows(ts, numberText)| && 0 <= k < |CsvRows(ts, numberText)[i]|
        ==> CsvRows(ts, numberText)[i][k] != '\n')
  {
    var rows := CsvRows(ts, numberText);
    RowSingleLine(CsvHeader);
    forall i | 1 <= i < |rows| ensures NoNewline(rows[i]) {
      assert rows[i] == CsvRow(CsvCells(ts[i - 1], numberText));
      RowSingleLine(CsvCells(ts[i - 1], numberText));
    }
  }

  /** The export as written is a single line, however many transactions
      there are: a spreadsheet reads it as one row. */
  lemma CsvAsWrittenIsOneLine(ts: seq<Transaction>, numberText: real -> string)
    requires CsvCellsSingleLine(ts, numberText)
    ensures Lines(CsvContentAsWritten(ts, numberText)) == [CsvContentAsWritten(ts, numberText)]
    ensures |CsvRows(ts, numberText)| == |ts| + 1
  {
    RowsSingleLine(ts, numberText);
    JoinNoNewline(CsvRows(ts, numberText), "\\n");
    OneLine(CsvContentAsWritten(ts, numberText));
  }

  /** Joined with real newlines, the export reads back as the header row
      then one row per transaction. */
  lemma CsvLines(ts: seq<Transaction>, numberText: real -> string)
    requires CsvCellsSingleLine(ts, numberText)
    ensures Lines(CsvContent(ts, numberText)) == CsvRows(ts, numberText)
    ensures |Lines(CsvContent(ts, numberText))| == |ts| + 1
  {
    RowsSingleLine(ts, numberText);
    LinesOfJoin(CsvRows(ts, numberText));
  }
}
