// The figures the analytics page computes inline from the transactions it
// loaded: month names, the savings-rate colour, the top spending categories,
// the largest recent transactions, the averages and the trend bars.

module AnalyticsPage {
  import opened Wrappers
  import opened Text
  import opened Collections
  import opened Records
  import Analytics

  // ---------------------------------------------------------------------------
  // getMonthName

  const MonthNames: seq<string> := ["Jan", "Feb", "Mar", "Apr", "May", "Jun",
                                    "Jul", "Aug", "Sep", "Oct", "Nov", "Dec"]

  predicate NotDash(c: char) { c != '-' }

  /** `s.split('-')`: the pieces between the dashes. */
  function DashPieces(s: string): (r: seq<string>)
    ensures |r| > 0
    decreases |s|
  {
    var n := Run(s, 0, NotDash);
    if n == |s| then [s] else [s[..n]] + DashPieces(s[n + 1..])
  }

  /** Splitting loses nothing: joining the pieces with dashes gives the text
      back, and no piece holds a dash. */
  lemma {:induction false} DashPiecesJoin(s: string)
    ensures Join(DashPieces(s), "-") == s
    ensures forall i, k :: 0 <= i < |DashPieces(s)| && 0 <= k < |DashPieces(s)[i]| ==> DashPieces(s)[i][k] != '-'
    decreases |s|
  {
    var n := Run(s, 0, NotDash);
    if n < |s| {
      var rest := DashPieces(s[n + 1..]);
      DashPiecesJoin(s[n + 1..]);
      var r := DashPieces(s);
      assert r == [s[..n]] + rest;
      assert r[1..] == rest;
      assert Join(r, "-") == s[..n] + "-" + Join(rest, "-");
      assert s == s[..n] + "-" + s[n + 1..];
      forall i, k | 0 <= i < |r| && 0 <= k < |r[i]| ensures r[i][k] != '-' {
        if i > 0 {
          assert r[i] == rest[i - 1];
        }
      }
    }
  }

  /** `getMonthName(monthKey)`: the name at index `parseInt(month) - 1`,
      where `month` is the second dash-separated piece; `None` stands for
      `undefined`, which a missing piece, text that is not a number and an
      index outside the twelve months all give. */
  function MonthName(monthKey: string): (r: Option<string>)
    ensures r.Some? ==> r.value in MonthNames
  {
    var pieces := DashPieces(monthKey);
    if |pieces| < 2 then None
    else
      match ParseInt(pieces[1])
      case None => None
      case Some(m) => if 1 <= m <= 12 then Some(MonthNames[m - 1]) else None
  }

  /** A month key `YYYY-MM` names its month. */
  lemma MonthNameOfKey(year: string, month: string)
    requires forall i :: 0 <= i < |year| ==> year[i] != '-'
    requires |month| == 2 && AllDigits(month) && 1 <= DigitsValue(month) <= 12
    ensures MonthName(year + "-" + month) == Some(MonthNames[DigitsValue(month) - 1])
  {
    assert DashPieces(year + "-" + month) == [year, month] by {
      PiecesOfKey(year, month);
    }
    ParseIntDigits(month);
  }

  /** Text without a dash is a single piece. */
  lemma OnePiece(s: string)
    requires forall i :: 0 <= i < |s| ==> s[i] != '-'
    ensures DashPieces(s) == [s]
  {
    assert Run(s, 0, NotDash) == |s|;
  }

  /** `year-month` splits into the year and the month. */
  lemma PiecesOfKey(year: string, month: string)
    requires forall i :: 0 <= i < |year| ==> year[i] != '-'
    requires forall i :: 0 <= i < |month| ==> month[i] != '-'
    ensures DashPieces(year + "-" + month) == [year, month]
  {
    var key := year + "-" + month;
    assert Run(key, 0, NotDash) == |year| by {
      assert forall i :: 0 <= i < |year| ==> NotDash(key[i]);
      assert !NotDash(key[|year|]);
    }
    assert key[..|year|] == year;
    assert key[|year| + 1..] == month;
    OnePiece(month);
  }

  /** A key without a dash names no month. */
  lemma MonthNameNeedsDash(monthKey: string)
    requires forall i :: 0 <= i < |monthKey| ==> monthKey[i] != '-'
    ensures MonthName(monthKey) == None
  {
    OnePiece(monthKey);
  }

  // ---------------------------------------------------------------------------
  // Savings rate and its colour

  /** `transactions.filter(t => t.type === 'income').reduce(...)`. */
  function PageIncome(ts: seq<Transaction>): real { Sum(Filter(ts, IsIncome), Amount) }

  /** The same over the expenses. */
  function PageExpenses(ts: seq<Transaction>): real { Sum(Filter(ts, IsExpense), Amount) }

  /** The savings rate the card shows, in percent. */
  function PageSavingsRate(ts: seq<Transaction>): real {
    SavingsRate(PageIncome(ts), PageExpenses(ts))
  }

  /** The colour of the card, which also picks the width of its bar
      (emerald and full, amber and three quarters, red and half). */
  datatype Tier = Emerald | Amber | Red

  function TierRank(t: Tier): nat {
    match t
    case Red => 0
    case Amber => 1
    case Emerald => 2
  }

  /** `savingsRate >= 20 ? emerald : savingsRate >= 10 ? amber : red`. */
  function SavingsTier(rate: real): (r: Tier)
    ensures r == Emerald <==> rate >= 20.0
    ensures r == Amber <==> 10.0 <= rate < 20.0
    ensures r == Red <==> rate < 10.0
  {
    if rate >= 20.0 then Emerald else if rate >= 10.0 then Amber else Red
  }

  /** A higher rate never gets a worse colour. */
  lemma SavingsTierMonotone(a: real, b: real)
    requires a <= b
    ensures TierRank(SavingsTier(a)) <= TierRank(SavingsTier(b))
  {
  }

  /** No income, or spending more than the income, shows red. */
  lemma NoSavingsIsRed(ts: seq<Transaction>)
    requires PageIncome(ts) <= 0.0 || PageExpenses(ts) > PageIncome(ts)
    ensures SavingsTier(PageSavingsRate(ts)) == Red
  {
  }

  /** Spending at most four fifths of a positive income shows emerald, and
      more than nine tenths shows red. */
  lemma SavingsTierOfShare(ts: seq<Transaction>)
    requires PageIncome(ts) > 0.0
    ensures PageExpenses(ts) * 5.0 <= PageIncome(ts) * 4.0 ==> SavingsTier(PageSavingsRate(ts)) == Emerald
    ensures PageExpenses(ts) * 10.0 > PageIncome(ts) * 9.0 ==> SavingsTier(PageSavingsRate(ts)) == Red
  {
    var i, e := PageIncome(ts), PageExpenses(ts);
    var r := PageSavingsRate(ts);
    assert r * i == (i - e) * 100.0;
    if e * 5.0 <= i * 4.0 {
      RateAtLeast(r, i, e, 20.0);
    }
    if e * 10.0 > i * 9.0 {
      RateBelow(r, i, e, 10.0);
    }
  }

  lemma RateAtLeast(r: real, i: real, e: real, bound: real)
    requires i > 0.0 && r * i == (i - e) * 100.0 && (i - e) * 100.0 >= bound * i
    ensures r >= bound
  {
    Analytics.ScalePositive(bound, r, i);
  }

  lemma RateBelow(r: real, i: real, e: real, bound: real)
    requires i > 0.0 && r * i == (i - e) * 100.0 && (i - e) * 100.0 < bound * i
    ensures r < bound
  {
    Analytics.ScalePositive(bound, r, i);
  }

  // ---------------------------------------------------------------------------
  // Top spending categories

  /** The expense amounts grouped by `t.category || 'Other'`. */
  function ExpenseTotals(ts: seq<Transaction>): seq<Total> {
    GroupSum(Filter(ts, IsExpense), CategoryOrOther, Amount)
  }

  /** The categories, largest first, cut to five. */
  function TopSpending(ts: seq<Transaction>): seq<Total> {
    Take(SortDesc(ExpenseTotals(ts), TotalAmount), 5)
  }

  /** At most five rows, largest first, each one the total of the expenses
      of its category; a category left out spends no more than any shown. */
  lemma TopSpendingProperties(ts: seq<Transaction>)
    ensures |TopSpending(ts)| <= 5 && SortedDesc(TopSpending(ts), TotalAmount)
    ensures forall i :: 0 <= i < |TopSpending(ts)| ==> TopSpending(ts)[i] in ExpenseTotals(ts)
  {
    var sorted := SortDesc(ExpenseTotals(ts), TotalAmount);
    TakeSortedDesc(sorted, TotalAmount, 5);
    forall i | 0 <= i < |TopSpending(ts)| ensures TopSpending(ts)[i] in ExpenseTotals(ts) {
      assert TopSpending(ts)[i] == sorted[i];
      assert sorted[i] in multiset(ExpenseTotals(ts));
    }
  }

  /** The amount of a row is the sum of the expense amounts of its category. */
  lemma TopSpendingAmount(ts: seq<Transaction>, i: int)
    requires 0 <= i < |TopSpending(ts)|
    ensures TopSpending(ts)[i].amount
         == Sum(Filter(ts, IsExpense), Masked(KeyIs(CategoryOrOther, TopSpending(ts)[i].key), Amount))
  {
    TopSpendingProperties(ts);
    var e := TopSpending(ts)[i];
    var totals := ExpenseTotals(ts);
    var j :| 0 <= j < |totals| && totals[j] == e;
    LookupAt(totals, j);
    GroupSumLookup(Filter(ts, IsExpense), CategoryOrOther, Amount, e.key);
  }

  /** No category left out spends more than one shown. */
  lemma TopSpendingKeepsLargest(ts: seq<Transaction>, e: Total, i: int)
    requires e in ExpenseTotals(ts) && 0 <= i < |TopSpending(ts)| && e.amount > TopSpending(ts)[i].amount
    ensures e in TopSpending(ts)
  {
    var sorted := SortDesc(ExpenseTotals(ts), TotalAmount);
    TakeSortedDesc(sorted, TotalAmount, 5);
    assert e in multiset(sorted);
    var j :| 0 <= j < |sorted| && sorted[j] == e;
    assert TopSpending(ts)[i] == sorted[i];
    assert j < |TopSpending(ts)|;
    assert TopSpending(ts)[j] == e;
  }

  /** `t => t.category === category && t.type === 'expense'`, the count
      under each row. */
  function CategoryIs(category: string): Transaction -> bool {
    (t: Transaction) => t.category == Some(category) && IsExpense(t)
  }

  /** The count under a row, as written. */
  function RowCountAsWritten(ts: seq<Transaction>, category: string): nat {
    |Filter(ts, CategoryIs(category))|
  }

  /** The expenses a row adds up. */
  function GroupedUnder(category: string): Transaction -> bool {
    (t: Transaction) => IsExpense(t) && CategoryOrOther(t) == category
  }

  /** The count under a row: the expenses whose amounts the row adds up. */
  function RowCount(ts: seq<Transaction>, category: string): nat {
    |Filter(ts, GroupedUnder(category))|
  }

  /** An expense without a category is summed under 'Other', yet the count
      as written finds no transaction for that row. */
  lemma OtherRowCountAsWritten(t: Transaction)
    requires IsExpense(t) && t.category == None && t.amount == 50.0
    ensures TopSpending([t]) == [Total("Other", 50.0)]
    ensures RowCountAsWritten([t], "Other") == 0
    ensures RowCount([t], "Other") == 1
  {
    assert [t][..0] == [];
    assert Filter([t], IsExpense) == [t];
    assert CategoryOrOther(t) == "Other";
    assert GroupSum([t], CategoryOrOther, Amount) == AddTo([], "Other", 50.0);
    var e := Total("Other", 50.0);
    assert [e][1..] == [];
    assert SortDesc([e], TotalAmount) == InsertDesc(e, [], TotalAmount);
    assert !CategoryIs("Other")(t);
    assert GroupedUnder("Other")(t);
  }

  /** Every row shown counts at least one transaction. */
  lemma RowCountPositive(ts: seq<Transaction>, i: int)
    requires 0 <= i < |TopSpending(ts)|
    ensures RowCount(ts, TopSpending(ts)[i].key) > 0
  {
    TopSpendingProperties(ts);
    var k := TopSpending(ts)[i].key;
    var totals := ExpenseTotals(ts);
    var j :| 0 <= j < |totals| && totals[j] == TopSpending(ts)[i];
    assert k in Keys(totals) by { assert Keys(totals)[j] == k; }
    GroupSumKeys(Filter(ts, IsExpense), CategoryOrOther, Amount, k);
    var x :| x in Filter(ts, IsExpense) && CategoryOrOther(x) == k;
    var m :| 0 <= m < |Filter(ts, IsExpense)| && Filter(ts, IsExpense)[m] == x;
    assert GroupedUnder(k)(x);
    var n :| 0 <= n < |ts| && ts[n] == x;
    assert x in Filter(ts, GroupedUnder(k));
  }

  /** The two counts agree on every category but 'Other' and the empty one. */
  lemma RowCountsAgree(ts: seq<Transaction>, category: string)
    requires category != "Other" && category != ""
    ensures RowCountAsWritten(ts, category) == RowCount(ts, category)
  {
    forall t | t in ts ensures CategoryIs(category)(t) == GroupedUnder(category)(t) {
    }
    FilterCongruent(ts, CategoryIs(category), GroupedUnder(category));
  }

  // ---------------------------------------------------------------------------
  // Recent large transactions

  /** `transactions.sort((a, b) => (b.amount || 0) - (a.amount || 0))`: the
      page's own array sorted in place, largest amount first. Adjacent
      elements swap only when the later one is strictly larger, so equal
      amounts keep their order. */
  method SortByAmount(a: array<Transaction>)
    modifies a
    ensures SortedDesc(a[..], Amount)
    ensures multiset(a[..]) == multiset(old(a[..]))
  {
    var i := 0;
    while i < a.Length
      invariant 0 <= i <= a.Length
      invariant SortedDesc(a[..i], Amount)
      invariant multiset(a[..]) == multiset(old(a[..]))
    {
      SinkLeft(a, i);
      i := i + 1;
    }
    assert a[..a.Length] == a[..];
  }

  /** One pass of the insertion: `a[i]` moves left past every smaller
      element, and `a[..i + 1]` is then sorted. */
  method SinkLeft(a: array<Transaction>, i: int)
    requires 0 <= i < a.Length && SortedDesc(a[..i], Amount)
    modifies a
    ensures SortedDesc(a[..i + 1], Amount)
    ensures multiset(a[..]) == multiset(old(a[..]))
  {
    var j := i;
    while j > 0 && a[j - 1].amount < a[j].amount
      invariant 0 <= j <= i
      invariant multiset(a[..]) == multiset(old(a[..]))
      invariant Sinking(a[..], i, j)
    {
      SwapKeepsMultiset(a[..], j);
      SwapSinks(a[..], i, j);
      a[j - 1], a[j] := a[j], a[j - 1];
      j := j - 1;
    }
    SunkSorted(a[..], i, j);
  }

  /** The insertion loop's invariant: apart from the moving element at
      `j`, `s[..i + 1]` is sorted, and the moving element is larger than
      everything after it. */
  predicate Sinking(s: seq<Transaction>, i: int, j: int)
    requires 0 <= j <= i < |s|
  {
    (forall p, q :: 0 <= p < q <= i && p != j && q != j ==> s[p].amount >= s[q].amount)
    && forall q :: j < q <= i ==> s[j].amount > s[q].amount
  }

  lemma SwapKeepsMultiset(s: seq<Transaction>, j: int)
    requires 0 < j < |s|
    ensures multiset(s[j - 1 := s[j]][j := s[j - 1]]) == multiset(s)
  {
    var t := s[j - 1 := s[j]][j := s[j - 1]];
    assert s == s[..j - 1] + [s[j - 1], s[j]] + s[j + 1..];
    assert t == s[..j - 1] + [s[j], s[j - 1]] + s[j + 1..];
  }

  lemma SwapSinks(s: seq<Transaction>, i: int, j: int)
    requires 0 < j <= i < |s| && Sinking(s, i, j) && s[j - 1].amount < s[j].amount
    ensures Sinking(s[j - 1 := s[j]][j := s[j - 1]], i, j - 1)
  {
  }

  lemma SunkSorted(s: seq<Transaction>, i: int, j: int)
    requires 0 <= j <= i < |s| && Sinking(s, i, j) && (j == 0 || s[j - 1].amount >= s[j].amount)
    ensures SortedDesc(s[..i + 1], Amount)
  {
    forall p, q | 0 <= p < q <= i ensures s[p].amount >= s[q].amount {
      if q == j && p < j - 1 {
        assert s[p].amount >= s[j - 1].amount;
      }
    }
  }

  /** The five largest transactions, after the sort. */
  method RecentLarge(a: array<Transaction>) returns (top: seq<Transaction>)
    modifies a
    ensures multiset(a[..]) == multiset(old(a[..])) && SortedDesc(a[..], Amount)
    ensures top == Take(a[..], 5)
    ensures |top| <= 5 && forall i, j :: 0 <= i < |top| <= j < a.Length ==> top[i].amount >= a[j].amount
  {
    SortByAmount(a);
    top := Take(a[..], 5);
    TakeSortedDesc(a[..], Amount, 5);
  }

  // ---------------------------------------------------------------------------
  // Average, largest and daily average

  /** `Math.max(...transactions.map(t => t.amount || 0))` on a list that is
      not empty. */
  function MaxAmount(ts: seq<Transaction>): (r: real)
    requires |ts| > 0
    ensures forall i :: 0 <= i < |ts| ==> ts[i].amount <= r
    ensures exists i :: 0 <= i < |ts| && ts[i].amount == r
  {
    if |ts| == 1 then ts[0].amount
    else
      var rest := MaxAmount(ts[1..]);
      assert forall i :: 1 <= i < |ts| ==> ts[i] == ts[1..][i - 1];
      if ts[0].amount >= rest then ts[0].amount else rest
  }

  /** The largest transaction, or 0 when there is none. */
  function Largest(ts: seq<Transaction>): (r: real)
    ensures |ts| == 0 ==> r == 0.0
    ensures |ts| > 0 ==> (forall t :: t in ts ==> t.amount <= r) && exists t :: t in ts && t.amount == r
  {
    if |ts| > 0 then MaxAmount(ts) else 0.0
  }

  /** `Math.round(sum / transactions.length)`, or 0 when there is none. */
  function Average(ts: seq<Transaction>): int {
    if |ts| > 0 then Round(Sum(ts, Amount) / |ts| as real) else 0
  }

  /** `Math.round(sum / 30)`, or 0 when there is none. */
  function DailyAverage(ts: seq<Transaction>): int {
    if |ts| > 0 then Round(Sum(ts, Amount) / 30.0) else 0
  }

  /** The average, times the count, is within half the count of the sum. */
  lemma AverageBounds(ts: seq<Transaction>)
    requires |ts| > 0
    ensures Sum(ts, Amount) - 0.5 * |ts| as real < Average(ts) as real * |ts| as real
    ensures Average(ts) as real * |ts| as real <= Sum(ts, Amount) + 0.5 * |ts| as real
  {
    RoundedShare(Sum(ts, Amount), |ts| as real);
  }

  /** `Math.round(sum / n)`, times `n`, is within `n / 2` of `sum`. */
  lemma RoundedShare(sum: real, n: real)
    requires n > 0.0
    ensures sum - 0.5 * n < Round(sum / n) as real * n <= sum + 0.5 * n
  {
    var x := sum / n;
    assert x * n == sum;
    ScaleBounds(x, Round(x) as real, n, sum);
  }

  lemma ScaleBounds(x: real, r: real, n: real, sum: real)
    requires n > 0.0 && x * n == sum && x - 0.5 < r <= x + 0.5
    ensures sum - 0.5 * n < r * n <= sum + 0.5 * n
  {
    assert r * n - sum + 0.5 * n == (r - x + 0.5) * n;
    assert sum + 0.5 * n - r * n == (x + 0.5 - r) * n;
    assert r - x + 0.5 > 0.0;
    Positive(r - x + 0.5, n);
    assert (r - x + 0.5) * n > 0.0;
    assert r * n - sum + 0.5 * n > 0.0;
    Positive(x + 0.5 - r, n);
  }

  lemma Positive(a: real, n: real)
    requires a >= 0.0 && n > 0.0
    ensures a * n >= 0.0 && (a > 0.0 ==> a * n > 0.0)
  {
  }

  /** The daily average is the sum over thirty days, rounded, also when there
      is no transaction. */
  lemma DailyAverageIsThirtieth(ts: seq<Transaction>)
    ensures DailyAverage(ts) == Round(Sum(ts, Amount) / 30.0)
  {
  }

  /** The sum is at most the count times the largest, so the average never
      exceeds the largest by more than the rounding. */
  lemma {:induction false} SumAtMostLargest(ts: seq<Transaction>)
    requires |ts| > 0
    ensures Sum(ts, Amount) <= |ts| as real * Largest(ts)
  {
    var m := Largest(ts);
    SumBelow(ts, m);
  }

  lemma {:induction false} SumBelow(ts: seq<Transaction>, m: real)
    requires forall t :: t in ts ==> t.amount <= m
    ensures Sum(ts, Amount) <= |ts| as real * m
  {
    if ts != [] {
      var init := ts[..|ts| - 1];
      assert forall t :: t in init ==> t in ts;
      SumBelow(init, m);
      assert ts[|ts| - 1] in ts;
    }
  }

  // ---------------------------------------------------------------------------
  // Category trend bars

  function TrendCurrent(t: Analytics.Trend): real { t.current }

  /** The trends, largest current month first, cut to six. */
  function TrendRows(trends: seq<Analytics.Trend>): seq<Analytics.Trend> {
    Take(SortDesc(trends, TrendCurrent), 6)
  }

  lemma TrendRowsProperties(trends: seq<Analytics.Trend>)
    ensures |TrendRows(trends)| <= 6 && SortedDesc(TrendRows(trends), TrendCurrent)
    ensures forall i :: 0 <= i < |TrendRows(trends)| ==> TrendRows(trends)[i] in trends
  {
    var sorted := SortDesc(trends, TrendCurrent);
    TakeSortedDesc(sorted, TrendCurrent, 6);
    forall i | 0 <= i < |TrendRows(trends)| ensures TrendRows(trends)[i] in trends {
      assert TrendRows(trends)[i] == sorted[i];
      assert sorted[i] in multiset(trends);
    }
  }

  datatype Bars = Bars(current: real, last: real)

  /** `(trend.current / maxAmount) * 100` and the same for `last`, with
      `maxAmount = Math.max(trend.current, trend.last)`; `None` when
      `maxAmount` is 0, where the widths are not finite numbers. */
  function BarWidths(current: real, last: real): Option<Bars> {
    var maxAmount := if current >= last then current else last;
    if maxAmount == 0.0 then None
    else Some(Bars(current / maxAmount * 100.0, last / maxAmount * 100.0))
  }

  /** With amounts not negative and not both zero, the larger bar is full,
      both are between 0 and 100, and they keep the ratio of the amounts;
      two zero amounts give no width. */
  lemma BarWidthsProperties(current: real, last: real)
    requires current >= 0.0 && last >= 0.0
    ensures BarWidths(current, last).None? <==> current == 0.0 && last == 0.0
    ensures BarWidths(current, last).Some? ==>
      var b := BarWidths(current, last).value;
      (current >= last ==> b.current == 100.0) && (last >= current ==> b.last == 100.0)
      && 0.0 <= b.current <= 100.0 && 0.0 <= b.last <= 100.0
      && b.current * last == b.last * current
  {
    if current > 0.0 || last > 0.0 {
      var m := if current >= last then current else last;
      var b := BarWidths(current, last).value;
      assert b.current * m == current * 100.0;
      assert b.last * m == last * 100.0;
      WidthBelow(b.current, current, m);
      WidthBelow(b.last, last, m);
      assert b.current * last * m == b.last * current * m;
      CancelPositive(b.current * last, b.last * current, m);
    }
  }

  lemma WidthBelow(w: real, v: real, m: real)
    requires m > 0.0 && 0.0 <= v <= m && w * m == v * 100.0
    ensures 0.0 <= w <= 100.0
  {
    Analytics.ScalePositive(0.0, w, m);
    Analytics.ScalePositive(w, 100.0, m);
  }

  lemma CancelPositive(a: real, b: real, m: real)
    requires m > 0.0 && a * m == b * m
    ensures a == b
  {
    assert (a - b) * m == 0.0;
  }
}
