/** The dashboard's summary of the transactions, `calculateDashboardStats`
    in src/app/page.js: totals, the recent months, the spending by category,
    the latest transactions and the progress of the goals. */
module Dashboard {
  import opened Wrappers
  import opened Text
  import opened Collections
  import opened Records

  /** The date whose entries the dashboard skips as today's empty ones. */
  const SkippedDate: string := "2025-08-22"

  /** `t.type === 'income' || t.type === 'expense'`. */
  predicate IsValid(t: Transaction) { IsIncome(t) || IsExpense(t) }

  /** `validTransactions`. */
  function Valid(ts: seq<Transaction>): seq<Transaction> { Filter(ts, IsValid) }

  function TotalIncome(ts: seq<Transaction>): real { Sum(Filter(Valid(ts), IsIncome), Amount) }

  function TotalExpenses(ts: seq<Transaction>): real { Sum(Filter(Valid(ts), IsExpense), Amount) }

  // ---------------------------------------------------------------------------
  // The months shown

  /** `transaction.date && transaction.date !== '2025-08-22'`. */
  predicate Dated(t: Transaction) { HasDate(t) && t.date.value != SkippedDate }

  /** `transaction.date.slice(0, 7)`, the `YYYY-MM` key of a date. */
  function MonthKey(t: Transaction): string {
    if t.date.Some? then Prefix(t.date.value, 7) else ""
  }

  /** The month keys of `ts`, in order. */
  function MonthKeys(ts: seq<Transaction>): (r: seq<string>)
    ensures |r| == |ts| && forall i :: 0 <= i < |ts| ==> r[i] == MonthKey(ts[i])
  {
    if ts == [] then [] else MonthKeys(ts[..|ts| - 1]) + [MonthKey(ts[|ts| - 1])]
  }

  /** `monthsSet`: the keys of the dated valid transactions, each once, in the
      order they are added. */
  function MonthSet(ts: seq<Transaction>): seq<string> {
    Dedupe(MonthKeys(Filter(Valid(ts), Dated)))
  }

  /** `Array.from(monthsSet).sort().slice(-6)` over the valid transactions
      `valid`. */
  function LatestMonths(valid: seq<Transaction>): seq<string> {
    TakeLast(SortStrings(Dedupe(MonthKeys(Filter(valid, Dated)))), 6)
  }

  function RecentMonths(ts: seq<Transaction>): seq<string> {
    LatestMonths(Valid(ts))
  }

  /** `sortedMonths`: the latest months, or, when no transaction has a month,
      the six months up to today that the clock gives. */
  function ShownMonths(valid: seq<Transaction>, fallback: seq<string>): seq<string> {
    if LatestMonths(valid) == [] then fallback else LatestMonths(valid)
  }

  function Months(ts: seq<Transaction>, fallback: seq<string>): seq<string> {
    ShownMonths(Valid(ts), fallback)
  }

  /** A month has a key exactly when a dated valid transaction falls in it. */
  lemma MonthSetMembers(ts: seq<Transaction>, k: string)
    ensures k in MonthSet(ts) <==> exists t :: t in ts && IsValid(t) && Dated(t) && MonthKey(t) == k
  {
    if k in MonthSet(ts) {
      MonthSetSource(ts, k);
    }
    if exists t :: t in ts && IsValid(t) && Dated(t) && MonthKey(t) == k {
      var t :| t in ts && IsValid(t) && Dated(t) && MonthKey(t) == k;
      MonthSetHas(ts, t);
    }
  }

  /** Every month listed comes from a dated valid transaction. */
  lemma MonthSetSource(ts: seq<Transaction>, k: string)
    requires k in MonthSet(ts)
    ensures exists t :: t in ts && IsValid(t) && Dated(t) && MonthKey(t) == k
  {
    var dated := Filter(Valid(ts), Dated);
    var i :| 0 <= i < |dated| && MonthKeys(dated)[i] == k;
    FilterMember(ts, IsValid, dated[i]);
  }

  /** The month of every dated valid transaction is listed. */
  lemma MonthSetHas(ts: seq<Transaction>, t: Transaction)
    requires t in ts && IsValid(t) && Dated(t)
    ensures MonthKey(t) in MonthSet(ts)
  {
    var dated := Filter(Valid(ts), Dated);
    FilterMember(ts, IsValid, t);
    FilterMember(Valid(ts), Dated, t);
    var i :| 0 <= i < |dated| && dated[i] == t;
    assert MonthKeys(dated)[i] == MonthKey(t);
  }

  /** At most six months are shown, in ascending order, each once; they are
      months that have a key, and every month with a key left out comes
      before all of them. */
  lemma RecentMonthsAreLatest(ts: seq<Transaction>)
    ensures |RecentMonths(ts)| <= 6
    ensures SortedStrings(RecentMonths(ts))
    ensures forall i, j :: 0 <= i < j < |RecentMonths(ts)| ==> RecentMonths(ts)[i] != RecentMonths(ts)[j]
    ensures forall k :: k in RecentMonths(ts) ==> k in MonthSet(ts)
    ensures forall k, i :: (k in MonthSet(ts) && k !in RecentMonths(ts) && 0 <= i < |RecentMonths(ts)|
      ==> StrLe(k, RecentMonths(ts)[i]))
    ensures RecentMonths(ts) == [] <==> MonthSet(ts) == []
  {
    var set_ := MonthSet(ts);
    var sorted := SortStrings(set_);
    var r := RecentMonths(ts);
    assert |sorted| == |multiset(sorted)| == |set_|;
    forall k | k in sorted ensures k in set_ {
      assert k in multiset(sorted);
    }
    forall k | k in set_ ensures k in sorted {
      assert k in multiset(set_);
    }
    forall i, j | 0 <= i < j < |sorted| ensures sorted[i] != sorted[j] {
      DistinctPermutation(set_, sorted, i, j);
    }
    TakeLastSorted(sorted, 6);
    if set_ != [] {
      assert set_[0] in sorted;
      assert |r| > 0;
    }
  }

  /** A permutation of distinct strings is distinct. */
  lemma DistinctPermutation(a: seq<string>, b: seq<string>, i: int, j: int)
    requires forall x, y :: 0 <= x < y < |a| ==> a[x] != a[y]
    requires multiset(a) == multiset(b) && 0 <= i < j < |b|
    ensures b[i] != b[j]
  {
    if b[i] == b[j] {
      var x := b[i];
      assert multiset(b)[x] >= 2 by {
        assert b == b[..i] + [x] + b[i + 1..j] + [x] + b[j + 1..];
      }
      CountDistinct(a, x);
    }
  }

  /** In a sequence without repetition nothing occurs twice. */
  lemma {:induction false} CountDistinct(a: seq<string>, x: string)
    requires forall p, q :: 0 <= p < q < |a| ==> a[p] != a[q]
    ensures multiset(a)[x] <= 1
  {
    if a != [] {
      var init := a[..|a| - 1];
      assert a == init + [a[|a| - 1]];
      CountDistinct(init, x);
      if a[|a| - 1] == x {
        assert x !in init;
      }
    }
  }

  /** One more key added to `monthsSet`. */
  lemma MonthSetStep(vs: seq<Transaction>, i: nat)
    requires i < |vs|
    ensures Dedupe(MonthKeys(Filter(vs[..i + 1], Dated)))
         == if !Dated(vs[i]) || MonthKey(vs[i]) in Dedupe(MonthKeys(Filter(vs[..i], Dated)))
            then Dedupe(MonthKeys(Filter(vs[..i], Dated)))
            else Dedupe(MonthKeys(Filter(vs[..i], Dated))) + [MonthKey(vs[i])]
  {
    assert vs[..i + 1] == vs[..i] + [vs[i]];
    FilterSnoc(vs[..i], vs[i], Dated);
    var f := Filter(vs[..i], Dated);
    if Dated(vs[i]) {
      assert (f + [vs[i]])[..|f|] == f;
      assert MonthKeys(f + [vs[i]]) == MonthKeys(f) + [MonthKey(vs[i])];
      assert (MonthKeys(f) + [MonthKey(vs[i])])[..|MonthKeys(f)|] == MonthKeys(f);
    }
  }

  /** The `forEach` that fills `monthsSet`. */
  method CollectMonths(valid: seq<Transaction>) returns (months: seq<string>)
    ensures months == Dedupe(MonthKeys(Filter(valid, Dated)))
  {
    months := [];
    var i := 0;
    while i < |valid|
      invariant i <= |valid|
      invariant months == Dedupe(MonthKeys(Filter(valid[..i], Dated)))
    {
      MonthSetStep(valid, i);
      var t := valid[i];
      if Dated(t) {
        var key := MonthKey(t);
        if key !in months {
          months := months + [key];
        }
      }
      i := i + 1;
    }
    assert valid[..i] == valid;
  }

  // ---------------------------------------------------------------------------
  // The monthly buckets

  /** `monthlyData[monthKey]`, with the key in place of the display name
      `toLocaleDateString` derives from it. */
  datatype MonthBucket = MonthBucket(key: string, income: real, expenses: real, transactions: nat)

  /** The transactions a month's bucket counts. */
  function InMonthBucket(k: string): Transaction -> bool {
    (t: Transaction) => Dated(t) && MonthKey(t) == k
  }

  /** The bucket of month `k` over the valid transactions `vs`: the income
      and the expenses of the month summed apart, and how many there are. */
  function BucketOf(vs: seq<Transaction>, k: string): MonthBucket {
    var inMonth := Filter(vs, InMonthBucket(k));
    MonthBucket(k, Sum(inMonth, IncomeAmount), Sum(inMonth, ExpenseAmount), |inMonth|)
  }

  /** One transaction more in the fill loop. */
  lemma BucketStep(vs: seq<Transaction>, x: Transaction, k: string)
    ensures BucketOf(vs + [x], k)
         == if InMonthBucket(k)(x)
            then MonthBucket(k, BucketOf(vs, k).income + IncomeAmount(x),
                             BucketOf(vs, k).expenses + ExpenseAmount(x),
                             BucketOf(vs, k).transactions + 1)
            else BucketOf(vs, k)
  {
    FilterSnoc(vs, x, InMonthBucket(k));
    SumSnoc(Filter(vs, InMonthBucket(k)), x, IncomeAmount);
    SumSnoc(Filter(vs, InMonthBucket(k)), x, ExpenseAmount);
  }

  /** `monthlyData` as `sortedMonths.forEach` initialises it: an empty
      bucket for every month shown. */
  method InitBuckets(months: seq<string>) returns (data: map<string, MonthBucket>)
    ensures Filled(data, months, [])
  {
    data := map[];
    var j := 0;
    while j < |months|
      invariant j <= |months|
      invariant forall k :: k in data <==> k in months[..j]
      invariant forall k :: k in data ==> data[k] == MonthBucket(k, 0.0, 0.0, 0)
    {
      data := data[months[j] := MonthBucket(months[j], 0.0, 0.0, 0)];
      assert months[..j + 1] == months[..j] + [months[j]];
      j := j + 1;
    }
    assert months[..j] == months;
  }

  /** The bucket of the month of `t` as the fill loop updates it. */
  lemma BucketUpdate(vs: seq<Transaction>, t: Transaction, b: MonthBucket, updated: MonthBucket)
    requires Dated(t) && b == BucketOf(vs, MonthKey(t))
    requires updated == b.(income := b.income + (if IsIncome(t) then t.amount else 0.0),
                           expenses := b.expenses + (if !IsIncome(t) && IsExpense(t) then t.amount else 0.0),
                           transactions := b.transactions + 1)
    ensures updated == BucketOf(vs + [t], MonthKey(t))
  {
    var k := MonthKey(t);
    assert InMonthBucket(k)(t);
    BucketStep(vs, t, k);
    if IsIncome(t) {
      IncomeIsNotExpense(t);
      assert ExpenseAmount(t) == 0.0;
    }
  }

  /** The other buckets stay as they are. */
  lemma BucketUnchanged(vs: seq<Transaction>, t: Transaction, k: string)
    requires !Dated(t) || MonthKey(t) != k
    ensures BucketOf(vs + [t], k) == BucketOf(vs, k)
  {
    BucketStep(vs, t, k);
  }

  /** `data` holds the bucket over `vs` of every month shown, and no other. */
  ghost predicate Filled(data: map<string, MonthBucket>, months: seq<string>, vs: seq<Transaction>) {
    (forall k :: k in data <==> k in months)
    && forall k :: k in months ==> data[k] == BucketOf(vs, k)
  }

  /** One pass of the fill loop: the bucket of the month of `t`, if shown,
      takes `t` in. */
  method FillOne(data: map<string, MonthBucket>, months: seq<string>, vs: seq<Transaction>, t: Transaction)
    returns (filled: map<string, MonthBucket>)
    requires Filled(data, months, vs)
    ensures Filled(filled, months, vs + [t])
  {
    if Dated(t) && MonthKey(t) in data {
      var key := MonthKey(t);
      var b := data[key];
      ghost var before := b;
      if IsIncome(t) {
        b := b.(income := b.income + t.amount);
      } else if IsExpense(t) {
        b := b.(expenses := b.expenses + t.amount);
      }
      b := b.(transactions := b.transactions + 1);
      BucketUpdate(vs, t, before, b);
      FilledUpdate(data, months, vs, t, b);
      filled := data[key := b];
    } else {
      FilledSkip(data, months, vs, t);
      filled := data;
    }
  }

  /** Storing the bucket over `vs + [t]` of the month of `t` fills the map
      over `vs + [t]`. */
  lemma FilledUpdate(data: map<string, MonthBucket>, months: seq<string>, vs: seq<Transaction>, t: Transaction,
                     b: MonthBucket)
    requires Filled(data, months, vs) && Dated(t) && MonthKey(t) in data
    requires b == BucketOf(vs + [t], MonthKey(t))
    ensures Filled(data[MonthKey(t) := b], months, vs + [t])
  {
    OtherBucketsUnchanged(data, months, vs, t);
  }

  /** The buckets of the other months stay as they are. */
  lemma OtherBucketsUnchanged(data: map<string, MonthBucket>, months: seq<string>, vs: seq<Transaction>, t: Transaction)
    requires Filled(data, months, vs)
    ensures forall k :: k in months && k != MonthKey(t) ==> data[k] == BucketOf(vs + [t], k)
  {
    forall k | k in months && k != MonthKey(t)
      ensures data[k] == BucketOf(vs + [t], k)
    {
      BucketUnchanged(vs, t, k);
    }
  }

  /** A transaction whose month is not shown leaves every bucket as it is. */
  lemma FilledSkip(data: map<string, MonthBucket>, months: seq<string>, vs: seq<Transaction>, t: Transaction)
    requires Filled(data, months, vs) && !(Dated(t) && MonthKey(t) in data)
    ensures Filled(data, months, vs + [t])
  {
    forall k | k in months
      ensures data[k] == BucketOf(vs + [t], k)
    {
      BucketUnchanged(vs, t, k);
    }
  }

  /** `monthlyData`, filled by a `forEach` over the valid transactions. */
  method FillBuckets(valid: seq<Transaction>, months: seq<string>) returns (data: map<string, MonthBucket>)
    ensures Filled(data, months, valid)
  {
    data := InitBuckets(months);
    assert valid[..0] == [];
    var i := 0;
    while i < |valid|
      invariant i <= |valid|
      invariant Filled(data, months, valid[..i])
    {
      assert valid[..i + 1] == valid[..i] + [valid[i]];
      data := FillOne(data, months, valid[..i], valid[i]);
      i := i + 1;
    }
    assert valid[..i] == valid;
  }

  /** The bucket over `valid` of every month shown, in order. */
  function BreakdownOf(valid: seq<Transaction>, fallback: seq<string>): (r: seq<MonthBucket>)
    ensures |r| == |ShownMonths(valid, fallback)|
  {
    var months := ShownMonths(valid, fallback);
    seq(|months|, i requires 0 <= i < |months| => BucketOf(valid, months[i]))
  }

  /** `monthlyBreakdown`. */
  function Breakdown(ts: seq<Transaction>, fallback: seq<string>): (r: seq<MonthBucket>)
    ensures |r| == |Months(ts, fallback)|
    ensures forall i :: 0 <= i < |r| ==> r[i] == BucketOf(Valid(ts), Months(ts, fallback)[i])
  {
    BreakdownOf(Valid(ts), fallback)
  }

  /** The chart never has more than six months: the latest six month keys,
      or the six months the clock gives when no transaction has a month.
      With the clock's six months, the months shown are six exactly when
      no transaction has one. */
  lemma BreakdownAtMostSix(ts: seq<Transaction>, fallback: seq<string>)
    requires |fallback| <= 6
    ensures |Breakdown(ts, fallback)| <= 6
    ensures MonthSet(ts) == [] ==> Breakdown(ts, fallback) == seq(|fallback|, i requires 0 <= i < |fallback| => BucketOf(Valid(ts), fallback[i]))
  {
    RecentMonthsAreLatest(ts);
  }

  /** `sortedMonths`, from `monthsSet` or the clock. */
  method SortedMonths(valid: seq<Transaction>, fallback: seq<string>) returns (months: seq<string>)
    ensures months == ShownMonths(valid, fallback)
  {
    var monthsSet := CollectMonths(valid);
    months := TakeLast(SortStrings(monthsSet), 6);
    if months == [] {
      months := fallback;
    }
  }

  /** The month keys, the buckets and `monthlyBreakdown`, as the three passes
      build them. */
  method MonthlyBreakdown(valid: seq<Transaction>, fallback: seq<string>) returns (breakdown: seq<MonthBucket>)
    ensures breakdown == BreakdownOf(valid, fallback)
  {
    var sortedMonths := SortedMonths(valid, fallback);
    var monthlyData := FillBuckets(valid, sortedMonths);
    breakdown := seq(|sortedMonths|, i requires 0 <= i < |sortedMonths| => monthlyData[sortedMonths[i]]);
    ghost var spec := BreakdownOf(valid, fallback);
    assert |breakdown| == |spec|;
    forall i | 0 <= i < |breakdown| ensures breakdown[i] == spec[i] {
      assert sortedMonths[i] in sortedMonths;
    }
  }

  /** Within a month the income and the expenses add up to all that the
      month counts, since every counted transaction is one or the other. */
  lemma BucketSplitsAmounts(vs: seq<Transaction>, k: string)
    requires forall i :: 0 <= i < |vs| ==> IsValid(vs[i])
    ensures BucketOf(vs, k).income + BucketOf(vs, k).expenses == Sum(Filter(vs, InMonthBucket(k)), Amount)
  {
    var inMonth := Filter(vs, InMonthBucket(k));
    forall x | x in inMonth ensures IncomeAmount(x) + ExpenseAmount(x) == Amount(x) {
      FilterMember(vs, InMonthBucket(k), x);
      IncomeIsNotExpense(x);
    }
    SumPointwise(inMonth, IncomeAmount, ExpenseAmount, Amount);
  }

  /** A transaction dated '2025-08-22' adds no month and changes no bucket. */
  lemma SkippedDateIgnored(vs: seq<Transaction>, x: Transaction, k: string)
    requires x.date == Some(SkippedDate)
    ensures BucketOf(vs + [x], k) == BucketOf(vs, k)
    ensures Filter(vs + [x], Dated) == Filter(vs, Dated)
  {
    BucketStep(vs, x, k);
    FilterSnoc(vs, x, Dated);
  }

  // ---------------------------------------------------------------------------
  // Spending by category

  /** `categoryData`: the valid expenses summed per category, 'Other' for a
      missing one. */
  function CategoryData(ts: seq<Transaction>): seq<Total> {
    GroupSum(Filter(Valid(ts), IsExpense), CategoryOrOther, Amount)
  }

  /** `categorySpending`: the categories, largest first, cut to six. */
  function CategorySpending(ts: seq<Transaction>): seq<Total> {
    Take(SortDesc(CategoryData(ts), TotalAmount), 6)
  }

  /** At most six categories, largest first; together all the categories,
      before the cut, add up to the total expenses; and a category is there
      exactly when an expense has it. */
  lemma CategorySpendingProperties(ts: seq<Transaction>, k: string)
    ensures |CategorySpending(ts)| <= 6 && SortedDesc(CategorySpending(ts), TotalAmount)
    ensures SumTotals(CategoryData(ts)) == TotalExpenses(ts)
    ensures k in Keys(CategoryData(ts)) <==> exists t :: t in Filter(Valid(ts), IsExpense) && CategoryOrOther(t) == k
  {
    TakeSortedDesc(SortDesc(CategoryData(ts), TotalAmount), TotalAmount, 6);
    GroupSumTotal(Filter(Valid(ts), IsExpense), CategoryOrOther, Amount);
    GroupSumKeys(Filter(Valid(ts), IsExpense), CategoryOrOther, Amount, k);
  }

  // ---------------------------------------------------------------------------
  // Recent transactions

  /** `t.date !== '2025-08-22'`: a transaction without a date passes. */
  predicate NotSkipped(t: Transaction) { t.date != Some(SkippedDate) }

  /** `recentTransactions`: the valid transactions not dated '2025-08-22',
      latest first, cut to five. */
  function Recent(ts: seq<Transaction>): seq<Transaction> {
    Take(SortDesc(Filter(Valid(ts), NotSkipped), DateRank), 5)
  }

  /** At most five, latest first, each a valid transaction of `ts` not dated
      '2025-08-22'. */
  lemma RecentProperties(ts: seq<Transaction>)
    ensures |Recent(ts)| <= 5 && SortedDesc(Recent(ts), DateRank)
    ensures forall i :: 0 <= i < |Recent(ts)| ==> Recent(ts)[i] in ts && IsValid(Recent(ts)[i]) && NotSkipped(Recent(ts)[i])
  {
    var candidates := Filter(Valid(ts), NotSkipped);
    var sorted := SortDesc(candidates, DateRank);
    TakeSortedDesc(sorted, DateRank, 5);
    forall i | 0 <= i < |Recent(ts)|
      ensures Recent(ts)[i] in ts && IsValid(Recent(ts)[i]) && NotSkipped(Recent(ts)[i])
    {
      assert Recent(ts)[i] == sorted[i];
      assert sorted[i] in multiset(candidates);
      FilterMember(Valid(ts), NotSkipped, sorted[i]);
      FilterMember(ts, IsValid, sorted[i]);
    }
  }

  /** A valid transaction without a date is still listed as recent. */
  lemma UndatedIsRecent(t: Transaction)
    requires IsValid(t) && t.date.None?
    ensures Recent([t]) == [t]
  {
    assert Valid([t]) == [t] by { FilterSnoc([], t, IsValid); assert [] + [t] == [t]; }
    assert Filter([t], NotSkipped) == [t] by { FilterSnoc([], t, NotSkipped); assert [] + [t] == [t]; }
  }

  // ---------------------------------------------------------------------------
  // Goal progress

  /** `goalData[goalName]`. */
  datatype GoalProgress = GoalProgress(name: string, target: real, duration: Option<real>, saved: real)

  /** `transaction.goal.name`, or the empty text when it is missing. */
  function GoalName(t: Transaction): string {
    if t.goal.Some? then Or(t.goal.value.name, "") else ""
  }

  /** `transaction.goal && transaction.goal.name && transaction.goal.target_amount > 0`. */
  predicate HasGoal(t: Transaction) {
    t.goal.Some? && GoalName(t) != "" && t.goal.value.target > 0.0
  }

  /** The goal entry a transaction adds or updates: an existing goal keeps
      its target and duration and gains the saving; a new goal is appended. */
  function AddToGoal(acc: seq<GoalProgress>, t: Transaction): seq<GoalProgress>
    requires t.goal.Some?
  {
    if acc == [] then [GoalProgress(GoalName(t), t.goal.value.target, t.goal.value.months, IncomeAmount(t))]
    else if acc[0].name == GoalName(t) then [acc[0].(saved := acc[0].saved + IncomeAmount(t))] + acc[1..]
    else [acc[0]] + AddToGoal(acc[1..], t)
  }

  /** `goalData` after a `forEach` over `vs`. */
  function GoalData(vs: seq<Transaction>): seq<GoalProgress> {
    if vs == [] then []
    else
      var acc := GoalData(vs[..|vs| - 1]);
      var t := vs[|vs| - 1];
      if HasGoal(t) then AddToGoal(acc, t) else acc
  }

  /** The entry named `k`, if any. */
  function GoalOf(acc: seq<GoalProgress>, k: string): (r: Option<GoalProgress>)
    ensures r.Some? ==> r.value.name == k
  {
    if acc == [] then None else if acc[0].name == k then Some(acc[0]) else GoalOf(acc[1..], k)
  }

  /** The transactions that feed the goal named `k`. */
  function GoalNamed(k: string): Transaction -> bool {
    (t: Transaction) => HasGoal(t) && GoalName(t) == k
  }

  /** The first transaction of `vs` that feeds the goal named `k`. */
  function FirstGoal(vs: seq<Transaction>, k: string): (r: Option<Transaction>)
    ensures r.Some? ==> HasGoal(r.value) && GoalName(r.value) == k
  {
    if vs == [] then None
    else
      var earlier := FirstGoal(vs[..|vs| - 1], k);
      if earlier.Some? then earlier
      else if GoalNamed(k)(vs[|vs| - 1]) then Some(vs[|vs| - 1])
      else None
  }

  /** `FirstGoal` finds the first transaction that feeds the goal, and none
      when no transaction does. */
  lemma {:induction false} FirstGoalIsFirst(vs: seq<Transaction>, k: string)
    ensures FirstGoal(vs, k).Some? ==> exists j :: 0 <= j < |vs| && vs[j] == FirstGoal(vs, k).value && GoalNamed(k)(vs[j])
                                        && forall i :: 0 <= i < j ==> !GoalNamed(k)(vs[i])
    ensures FirstGoal(vs, k).None? ==> forall i :: 0 <= i < |vs| ==> !GoalNamed(k)(vs[i])
  {
    if vs != [] {
      var init := vs[..|vs| - 1];
      FirstGoalIsFirst(init, k);
      if FirstGoal(init, k).Some? {
        var j :| 0 <= j < |init| && init[j] == FirstGoal(init, k).value && GoalNamed(k)(init[j])
                 && forall i :: 0 <= i < j ==> !GoalNamed(k)(init[i]);
        assert vs[j] == init[j];
      } else {
        assert forall i :: 0 <= i < |init| ==> vs[i] == init[i];
      }
    }
  }

  lemma {:induction false} GoalOfAddToGoal(acc: seq<GoalProgress>, t: Transaction, k: string)
    requires t.goal.Some?
    ensures GoalOf(AddToGoal(acc, t), k)
         == if GoalName(t) != k then GoalOf(acc, k)
            else match GoalOf(acc, k)
              case None => Some(GoalProgress(k, t.goal.value.target, t.goal.value.months, IncomeAmount(t)))
              case Some(g) => Some(g.(saved := g.saved + IncomeAmount(t)))
  {
    if acc != [] && acc[0].name != GoalName(t) {
      GoalOfAddToGoal(acc[1..], t, k);
    }
  }

  /** What the entry of the goal named `k` must be: absent when no
      transaction feeds the goal; otherwise the target and duration of the
      first transaction that feeds it, and the sum of the income amounts
      among all that do. */
  function ExpectedGoal(vs: seq<Transaction>, k: string): Option<GoalProgress> {
    match FirstGoal(vs, k)
    case None => None
    case Some(t) => Some(GoalProgress(k, t.goal.value.target, t.goal.value.months,
                                      Sum(Filter(vs, GoalNamed(k)), IncomeAmount)))
  }

  /** The goal named `k` appears exactly when some transaction feeds it, and
      is as `ExpectedGoal` says. */
  lemma {:induction false} GoalDataLookup(vs: seq<Transaction>, k: string)
    ensures GoalOf(GoalData(vs), k) == ExpectedGoal(vs, k)
  {
    if vs != [] {
      var init, t := vs[..|vs| - 1], vs[|vs| - 1];
      assert vs == init + [t];
      GoalDataLookup(init, k);
      GoalLookupStep(init, t, k);
    }
  }

  lemma GoalLookupStep(init: seq<Transaction>, t: Transaction, k: string)
    requires GoalOf(GoalData(init), k) == ExpectedGoal(init, k)
    ensures GoalOf(GoalData(init + [t]), k) == ExpectedGoal(init + [t], k)
  {
    if !GoalNamed(k)(t) {
      GoalStepOther(init, t, k);
    } else if FirstGoal(init, k).None? {
      GoalStepNew(init, t, k);
    } else {
      GoalStepExisting(init, t, k);
    }
  }

  /** A later transaction that feeds the goal adds its saving. */
  lemma GoalStepExisting(init: seq<Transaction>, t: Transaction, k: string)
    requires GoalNamed(k)(t) && FirstGoal(init, k).Some? && GoalOf(GoalData(init), k) == ExpectedGoal(init, k)
    ensures GoalOf(GoalData(init + [t]), k) == ExpectedGoal(init + [t], k)
  {
    var f := FirstGoal(init, k).value;
    var before := Sum(Filter(init, GoalNamed(k)), IncomeAmount);
    ExpectedOfFirst(init, k, f, before);
    ExpectedAfter(init, t, k, f, before);
    GoalDataAfter(init, t, k, f.goal.value.target, f.goal.value.months, before);
  }

  /** A transaction that does not feed the goal leaves its entry alone. */
  lemma GoalStepOther(init: seq<Transaction>, t: Transaction, k: string)
    requires !GoalNamed(k)(t)
    ensures GoalOf(GoalData(init + [t]), k) == GoalOf(GoalData(init), k)
    ensures ExpectedGoal(init + [t], k) == ExpectedGoal(init, k)
  {
    assert (init + [t])[..|init|] == init;
    FilterSnoc(init, t, GoalNamed(k));
    if HasGoal(t) {
      GoalOfAddToGoal(GoalData(init), t, k);
    }
  }

  /** The first transaction that feeds the goal creates its entry. */
  lemma GoalStepNew(init: seq<Transaction>, t: Transaction, k: string)
    requires GoalNamed(k)(t) && FirstGoal(init, k).None? && GoalOf(GoalData(init), k).None?
    ensures GoalOf(GoalData(init + [t]), k) == ExpectedGoal(init + [t], k)
  {
    assert (init + [t])[..|init|] == init;
    FilterSnoc(init, t, GoalNamed(k));
    GoalOfAddToGoal(GoalData(init), t, k);
    NoneFeedsGoal(init, k);
    assert Filter(init + [t], GoalNamed(k)) == [t];
    assert Sum([t], IncomeAmount) == Sum([t][..0], IncomeAmount) + IncomeAmount(t);
  }

  /** The expected entry after a later transaction that feeds the goal. */
  lemma ExpectedAfter(init: seq<Transaction>, t: Transaction, k: string, f: Transaction, before: real)
    requires GoalNamed(k)(t) && FirstGoal(init, k) == Some(f) && Sum(Filter(init, GoalNamed(k)), IncomeAmount) == before
    ensures f.goal.Some?
    ensures ExpectedGoal(init + [t], k)
         == Some(GoalProgress(k, f.goal.value.target, f.goal.value.months, before + IncomeAmount(t)))
  {
    FirstGoalSnoc(init, t, k);
    FilterSnoc(init, t, GoalNamed(k));
    SumSnoc(Filter(init, GoalNamed(k)), t, IncomeAmount);
    assert Sum(Filter(init + [t], GoalNamed(k)), IncomeAmount) == before + IncomeAmount(t);
    ExpectedOfFirst(init + [t], k, f, before + IncomeAmount(t));
  }

  lemma FirstGoalSnoc(init: seq<Transaction>, t: Transaction, k: string)
    requires FirstGoal(init, k).Some?
    ensures FirstGoal(init + [t], k) == FirstGoal(init, k)
  {
    assert (init + [t])[..|init|] == init;
  }

  lemma ExpectedOfFirst(vs: seq<Transaction>, k: string, f: Transaction, saved: real)
    requires FirstGoal(vs, k) == Some(f) && Sum(Filter(vs, GoalNamed(k)), IncomeAmount) == saved
    ensures f.goal.Some?
    ensures ExpectedGoal(vs, k) == Some(GoalProgress(k, f.goal.value.target, f.goal.value.months, saved))
  {
  }

  /** The stored entry after a later transaction that feeds the goal. */
  lemma GoalDataAfter(init: seq<Transaction>, t: Transaction, k: string, target: real, months: Option<real>, saved: real)
    requires GoalNamed(k)(t) && GoalOf(GoalData(init), k) == Some(GoalProgress(k, target, months, saved))
    ensures GoalOf(GoalData(init + [t]), k) == Some(GoalProgress(k, target, months, saved + IncomeAmount(t)))
  {
    var vs := init + [t];
    assert vs[..|vs| - 1] == init;
    assert GoalData(vs) == AddToGoal(GoalData(init), t);
    GoalOfAddToGoal(GoalData(init), t, k);
  }

  /** Before the first transaction that feeds a goal, the goal has saved
      nothing. */
  lemma {:induction false} NoneFeedsGoal(vs: seq<Transaction>, k: string)
    requires FirstGoal(vs, k).None?
    ensures Filter(vs, GoalNamed(k)) == []
  {
    if vs != [] {
      NoneFeedsGoal(vs[..|vs| - 1], k);
    }
  }

  /** The names of the entries, in order. */
  function GoalNames(acc: seq<GoalProgress>): (r: seq<string>)
    ensures |r| == |acc| && forall i :: 0 <= i < |acc| ==> r[i] == acc[i].name
  {
    if acc == [] then [] else [acc[0].name] + GoalNames(acc[1..])
  }

  lemma {:induction false} AddToGoalNames(acc: seq<GoalProgress>, t: Transaction)
    requires t.goal.Some?
    ensures GoalNames(AddToGoal(acc, t))
         == if GoalName(t) in GoalNames(acc) then GoalNames(acc) else GoalNames(acc) + [GoalName(t)]
  {
    if acc != [] {
      assert GoalNames(acc) == [acc[0].name] + GoalNames(acc[1..]);
      if acc[0].name != GoalName(t) {
        AddToGoalNames(acc[1..], t);
        assert GoalNames(AddToGoal(acc, t)) == [acc[0].name] + GoalNames(AddToGoal(acc[1..], t));
      } else {
        assert GoalNames(AddToGoal(acc, t)) == [acc[0].name] + GoalNames(acc[1..]);
      }
    }
  }

  /** No goal is listed twice. */
  lemma {:induction false} GoalNamesDistinct(vs: seq<Transaction>)
    ensures forall i, j :: 0 <= i < j < |GoalData(vs)| ==> GoalData(vs)[i].name != GoalData(vs)[j].name
  {
    if vs != [] {
      var init, t := vs[..|vs| - 1], vs[|vs| - 1];
      GoalNamesDistinct(init);
      if HasGoal(t) {
        var acc := GoalData(init);
        AddToGoalNames(acc, t);
        var names := GoalNames(AddToGoal(acc, t));
        forall i, j | 0 <= i < j < |names| ensures names[i] != names[j] {
          if j == |acc| {
            assert names[i] == GoalNames(acc)[i];
          }
        }
      }
    }
  }

  /** `goalProgress`: the first three goals. */
  function GoalProgressList(ts: seq<Transaction>): seq<GoalProgress> {
    Take(GoalData(Valid(ts)), 3)
  }

  /** Each listed goal is read off the transactions that feed it. */
  lemma GoalProgressProperties(ts: seq<Transaction>, i: nat)
    requires i < |GoalProgressList(ts)|
    ensures |GoalProgressList(ts)| <= 3
    ensures var g := GoalProgressList(ts)[i];
      FirstGoal(Valid(ts), g.name).Some?
      && g.target == FirstGoal(Valid(ts), g.name).value.goal.value.target
      && g.duration == FirstGoal(Valid(ts), g.name).value.goal.value.months
      && g.saved == Sum(Filter(Valid(ts), GoalNamed(g.name)), IncomeAmount)
  {
    var acc := GoalData(Valid(ts));
    var g := acc[i];
    GoalNamesDistinct(Valid(ts));
    GoalOfAt(acc, i);
    GoalDataLookup(Valid(ts), g.name);
  }

  /** Among distinct names, the lookup finds the entry itself. */
  lemma {:induction false} GoalOfAt(acc: seq<GoalProgress>, i: nat)
    requires i < |acc| && forall p, q :: 0 <= p < q < |acc| ==> acc[p].name != acc[q].name
    ensures GoalOf(acc, acc[i].name) == Some(acc[i])
  {
    if i > 0 {
      assert acc[0].name != acc[i].name;
      GoalOfAt(acc[1..], i - 1);
    }
  }

  /** The `forEach` that fills `goalData`. */
  method CollectGoals(valid: seq<Transaction>) returns (goals: seq<GoalProgress>)
    ensures goals == GoalData(valid)
  {
    goals := [];
    var i := 0;
    while i < |valid|
      invariant i <= |valid|
      invariant goals == GoalData(valid[..i])
    {
      var t := valid[i];
      assert valid[..i + 1][..i] == valid[..i];
      if HasGoal(t) {
        goals := AddToGoal(goals, t);
      }
      i := i + 1;
    }
    assert valid[..i] == valid;
  }

  // ---------------------------------------------------------------------------
  // The whole summary

  datatype Stats = Stats(
    totalIncome: real,
    totalExpenses: real,
    netSavings: real,
    savingsRate: real,
    monthlyBreakdown: seq<MonthBucket>,
    categorySpending: seq<Total>,
    recentTransactions: seq<Transaction>,
    goalProgress: seq<GoalProgress>)

  const EmptyStats := Stats(0.0, 0.0, 0.0, 0.0, [], [], [], [])

  /** `calculateDashboardStats(data)`, with the stats returned rather than
      stored: no data gives zeros and empty lists; otherwise every part is
      read off the valid transactions. `fallback` is the six months up to
      today the clock gives. */
  method CalculateDashboardStats(data: Option<seq<Transaction>>, fallback: seq<string>) returns (stats: Stats)
    ensures data.None? || data.value == [] ==> stats == EmptyStats
    ensures data.Some? && data.value != [] ==>
      var ts := data.value;
      stats.totalIncome == TotalIncome(ts) && stats.totalExpenses == TotalExpenses(ts)
      && stats.netSavings == TotalIncome(ts) - TotalExpenses(ts)
      && stats.savingsRate == SavingsRate(TotalIncome(ts), TotalExpenses(ts))
      && stats.monthlyBreakdown == Breakdown(ts, fallback)
      && stats.categorySpending == CategorySpending(ts)
      && stats.recentTransactions == Recent(ts)
      && stats.goalProgress == GoalProgressList(ts)
    ensures |fallback| <= 6 ==> |stats.monthlyBreakdown| <= 6
  {
    if data.None? || data.value == [] {
      return EmptyStats;
    }
    var ts := data.value;
    var valid := Filter(ts, IsValid);
    var income := Sum(Filter(valid, IsIncome), Amount);
    var expenses := Sum(Filter(valid, IsExpense), Amount);
    var netSavings := income - expenses;
    var savingsRate := if income > 0.0 then netSavings / income * 100.0 else 0.0;

    var monthlyBreakdown := MonthlyBreakdown(valid, fallback);
    if |fallback| <= 6 {
      BreakdownAtMostSix(ts, fallback);
    }

    var categoryData := GroupExpenses(valid, CategoryOrOther);
    var categorySpending := Take(SortDesc(categoryData, TotalAmount), 6);

    var recent := Take(SortDesc(Filter(valid, NotSkipped), DateRank), 5);

    var goalData := CollectGoals(valid);

    stats := Stats(income, expenses, netSavings, savingsRate, monthlyBreakdown,
                   categorySpending, recent, Take(goalData, 3));
  }
}
