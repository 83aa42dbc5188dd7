/** The goals and budgets page: what a budget has spent this month, the
    capped progress and usage percentages, the status a budget card shows,
    and the records the two add forms store. */
module GoalsPage {
  import opened Wrappers
  import opened Text
  import opened Collections
  import opened Records

  // ---------------------------------------------------------------------------
  // calculateBudgetSpent

  /** The filter of `calculateBudgetSpent`: an expense of `category` whose
      date falls in month `month0` (counted from 0, as `getMonth` counts) of
      `year`. A date that does not read never falls in any month. */
  predicate SpentIn(t: Transaction, category: string, month0: int, year: int) {
    IsExpense(t) && t.category == Some(category)
    && DateOf(t).Some? && DateOf(t).value.month - 1 == month0 && DateOf(t).value.year == year
  }

  /** The filter of `calculateBudgetSpent` as the function it passes. */
  function SpentFilter(category: string, month0: int, year: int): Transaction -> bool {
    t => SpentIn(t, category, month0, year)
  }

  /** `calculateBudgetSpent(category)` in month `month0` of `year`. */
  function CalculateBudgetSpent(ts: seq<Transaction>, category: string, month0: int, year: int): (r: real)
    ensures (forall t :: t in ts ==> !SpentIn(t, category, month0, year)) ==> r == 0.0
    ensures (forall t :: t in ts && SpentIn(t, category, month0, year) ==> t.amount >= 0.0) ==> r >= 0.0
  {
    var kept := Filter(ts, SpentFilter(category, month0, year));
    assert kept != [] ==> kept[0] in ts && SpentIn(kept[0], category, month0, year);
    assert (forall t :: t in ts && SpentIn(t, category, month0, year) ==> t.amount >= 0.0)
        ==> Sum(kept, Amount) >= 0.0 by {
      if forall t :: t in ts && SpentIn(t, category, month0, year) ==> t.amount >= 0.0 {
        forall x | x in kept ensures Amount(x) >= 0.0 {
          var i :| 0 <= i < |kept| && kept[i] == x;
        }
        SumNonNegative(kept, Amount);
      }
    }
    Sum(kept, Amount)
  }

  /** The spent amount is the sum of the amounts of exactly the transactions
      that pass the filter: every other one adds nothing. */
  lemma BudgetSpentIsSum(ts: seq<Transaction>, category: string, month0: int, year: int)
    ensures CalculateBudgetSpent(ts, category, month0, year)
         == Sum(ts, t => if SpentIn(t, category, month0, year) then t.amount else 0.0)
  {
    var p, f := SpentFilter(category, month0, year), Amount;
    SumFilter(ts, p, f);
    SumCongruent(ts, Masked(p, f),
                 t => if SpentIn(t, category, month0, year) then t.amount else 0.0);
  }

  /** One more transaction adds its amount when it passes the filter, and
      nothing otherwise. */
  lemma BudgetSpentAppend(ts: seq<Transaction>, t: Transaction, category: string, month0: int, year: int)
    ensures CalculateBudgetSpent(ts + [t], category, month0, year)
         == CalculateBudgetSpent(ts, category, month0, year)
            + (if SpentIn(t, category, month0, year) then t.amount else 0.0)
  {
    var f := x => if SpentIn(x, category, month0, year) then x.amount else 0.0;
    BudgetSpentIsSum(ts + [t], category, month0, year);
    BudgetSpentIsSum(ts, category, month0, year);
    SumAppend(ts, [t], f);
    assert Sum([t], f) == Sum([t][..0], f) + f(t);
  }

  // ---------------------------------------------------------------------------
  // getProgressPercentage and getBudgetUsagePercentage

  /** `Math.min((part / whole) * 100, 100)`, the body shared by
      `getProgressPercentage(current, target)` and
      `getBudgetUsagePercentage(spent, limit)`. A zero `whole` gives `NaN`
      or an infinity, which the model does not represent. */
  function CappedPercentage(part: real, whole: real): (r: real)
    requires whole != 0.0
    ensures r <= 100.0
    ensures r < 100.0 ==> r * whole == part * 100.0
    ensures whole > 0.0 ==> (r == 100.0 <==> part >= whole)
    ensures whole > 0.0 && part >= 0.0 ==> r >= 0.0
  {
    var x := (part / whole) * 100.0;
    if x <= 100.0 then x else 100.0
  }

  // ---------------------------------------------------------------------------
  // The budget card

  /** The label of a budget card as the code derives it from
      `usagePercentage = getBudgetUsagePercentage(actualSpent, limit)`:
      `isOverBudget = usagePercentage > 100`,
      `isNearLimit = usagePercentage >= alert_threshold`. */
  function BudgetStatusAsWritten(spent: real, limit: real, threshold: real): (r: string)
    requires limit != 0.0
  {
    var usage := CappedPercentage(spent, limit);
    if usage > 100.0 then "Over Budget"
    else if usage >= threshold then "Near Limit"
    else "On Track"
  }

  /** Because the usage is capped at 100 the first branch is dead: the label
      is never 'Over Budget', and it is 'Near Limit' exactly when the capped
      usage reaches the threshold. */
  lemma OverBudgetUnreachable(spent: real, limit: real, threshold: real)
    requires limit != 0.0
    ensures BudgetStatusAsWritten(spent, limit, threshold) != "Over Budget"
    ensures BudgetStatusAsWritten(spent, limit, threshold) == "Near Limit"
        <==> CappedPercentage(spent, limit) >= threshold
    ensures BudgetStatusAsWritten(spent, limit, threshold) == "On Track"
        <==> CappedPercentage(spent, limit) < threshold
  {
  }

  /** Spending 150 against a limit of 100 with the default alert threshold
      of 80 is shown as 'Near Limit', not 'Over Budget'. */
  lemma OverspentShownNearLimit()
    ensures BudgetStatusAsWritten(150.0, 100.0, 80.0) == "Near Limit"
  {
    assert CappedPercentage(150.0, 100.0) == 100.0;
  }

  /** The label the card evidently means to show: over budget is decided on
      the usage before it is capped. */
  function BudgetStatus(spent: real, limit: real, threshold: real): (r: string)
    requires limit > 0.0
    ensures r == "Over Budget" <==> spent > limit
    ensures r == "Near Limit" <==> spent <= limit && CappedPercentage(spent, limit) >= threshold
    ensures r == "On Track" <==> spent <= limit && CappedPercentage(spent, limit) < threshold
  {
    var usage := (spent / limit) * 100.0;
    if usage > 100.0 then "Over Budget"
    else if usage >= threshold then "Near Limit"
    else "On Track"
  }

  /** `Math.max(0, monthly_limit - actualSpent)`. */
  function Remaining(limit: real, spent: real): (r: real)
    ensures r >= 0.0 && r >= limit - spent
    ensures r == 0.0 || r == limit - spent
    ensures r + spent == limit <==> spent <= limit
  {
    if limit - spent >= 0.0 then limit - spent else 0.0
  }

  /** What a budget card shows: its status label, the usage percentage, the width
      of its bar and the amount remaining. */
  datatype BudgetCard = BudgetCard(status: string, usage: real, width: real, remaining: real)

  /** The card of a budget with limit `limit` and threshold `threshold` for
      `category`, whose spending is recomputed from the transactions (the
      stored `current_spent` is not read). */
  function Card(ts: seq<Transaction>, category: string, limit: real, threshold: real, month0: int, year: int)
    : (r: BudgetCard)
    requires limit > 0.0
    ensures r.width == r.usage <= 100.0
    ensures r.remaining >= 0.0
    ensures r.status == "Over Budget" <==> CalculateBudgetSpent(ts, category, month0, year) > limit
    ensures r.status == "Over Budget" ==> r.usage == 100.0 && r.remaining == 0.0
    ensures (forall t :: t in ts ==> !SpentIn(t, category, month0, year))
        ==> r.usage == 0.0 && r.remaining == limit && (r.status == "Near Limit" <==> threshold <= 0.0)
    ensures var spent := CalculateBudgetSpent(ts, category, month0, year);
      r.usage == CappedPercentage(spent, limit) && r.remaining == Remaining(limit, spent)
      && (r.status == "Near Limit" <==> spent <= limit && r.usage >= threshold)
      && (r.status == "On Track" <==> spent <= limit && r.usage < threshold)
  {
    var spent := CalculateBudgetSpent(ts, category, month0, year);
    var usage := CappedPercentage(spent, limit);
    BudgetCard(BudgetStatus(spent, limit, threshold), usage, if usage <= 100.0 then usage else 100.0,
               Remaining(limit, spent))
  }

  // ---------------------------------------------------------------------------
  // handleAddGoal and handleAddBudget

  /** The goal form; every field is the text its input holds. */
  datatype GoalForm = GoalForm(
    name: string, targetAmount: string, currentAmount: string, deadline: string,
    category: string, description: string, priority: string)

  /** A stored goal; a target that `parseFloat` cannot read is `None`
      (it is stored as `NaN`). */
  datatype Goal = Goal(
    name: string, target: Option<real>, current: real, deadline: string, category: string,
    description: string, priority: string, createdAt: string, status: string)

  /** The goal form as the page opens it and as `resetGoalForm` leaves it. */
  const EmptyGoalForm := GoalForm("", "", "", "", "savings", "", "medium")

  /** `handleAddGoal`, `now` being `new Date().toISOString()`. */
  function HandleAddGoal(form: GoalForm, now: string): (r: Result<Goal>)
    ensures r.Rejected? <==> form.name == "" || form.targetAmount == ""
    ensures r.Rejected? ==> r.message == "Please fill in required fields"
    ensures r.Ok? ==> (r.value.name == form.name && r.value.deadline == form.deadline
      && r.value.category == form.category && r.value.description == form.description
      && r.value.priority == form.priority && r.value.createdAt == now && r.value.status == "active")
    ensures r.Ok? ==> r.value.target == ParseFloat(form.targetAmount)
    ensures r.Ok? && ParseFloat(form.currentAmount).None? ==> r.value.current == 0.0
    ensures r.Ok? && ParseFloat(form.currentAmount).Some? ==> r.value.current == ParseFloat(form.currentAmount).value
  {
    if form.name == "" || form.targetAmount == "" then Rejected("Please fill in required fields")
    else Ok(Goal(form.name, ParseFloat(form.targetAmount), ParseFloat(form.currentAmount).GetOr(0.0),
                 form.deadline, form.category, form.description, form.priority, now, "active"))
  }

  /** A goal added with an empty current amount starts at 0; one whose
      amounts are whole numbers stores exactly those numbers. */
  lemma GoalAmounts(form: GoalForm, now: string, target: nat, current: nat)
    requires form.name != "" && form.targetAmount == NatToString(target)
    ensures HandleAddGoal(form, now).Ok?
    ensures form.currentAmount == "" ==> HandleAddGoal(form, now).value.current == 0.0
    ensures HandleAddGoal(form, now).value.target == Some(target as real)
    ensures form.currentAmount == NatToString(current) ==> HandleAddGoal(form, now).value.current == current as real
  {
    NatToStringRoundTrip(target);
    ParseFloatDigits(NatToString(target));
    NatToStringRoundTrip(current);
    ParseFloatDigits(NatToString(current));
    assert Run("", 0, IsSpace) == 0;
    assert SignAndRest(""[0..]) == (1.0, "");
    assert Run("", 0, IsDigit) == 0;
    assert FractionLength("", 0) == 0;
  }

  /** The budget form; the alert threshold is the number `parseInt` made of
      its input. */
  datatype BudgetForm = BudgetForm(
    category: string, monthlyLimit: string, currentSpent: real, period: string,
    alertThreshold: real, description: string)

  /** A stored budget; a limit that `parseFloat` cannot read is `None`. */
  datatype Budget = Budget(
    category: string, monthlyLimit: Option<real>, currentSpent: real, period: string,
    alertThreshold: real, description: string, createdAt: string, month: int, year: int)

  /** The budget form as the page opens it and as `resetBudgetForm` leaves it. */
  const EmptyBudgetForm := BudgetForm("", "", 0.0, "monthly", 80.0, "")

  /** `handleAddBudget` in month `month0` (from 0) of `year`, at time `now`. */
  function HandleAddBudget(form: BudgetForm, ts: seq<Transaction>, month0: int, year: int, now: string)
    : (r: Result<Budget>)
    ensures r.Rejected? <==> form.category == "" || form.monthlyLimit == ""
    ensures r.Rejected? ==> r.message == "Please fill in required fields"
    ensures r.Ok? ==> (r.value.category == form.category && r.value.period == form.period
      && r.value.alertThreshold == form.alertThreshold && r.value.description == form.description
      && r.value.createdAt == now && r.value.month == month0 + 1 && r.value.year == year)
    ensures r.Ok? ==> r.value.monthlyLimit == ParseFloat(form.monthlyLimit)
    ensures r.Ok? ==> r.value.currentSpent == CalculateBudgetSpent(ts, form.category, month0, year)
  {
    if form.category == "" || form.monthlyLimit == "" then Rejected("Please fill in required fields")
    else Ok(Budget(form.category, ParseFloat(form.monthlyLimit),
                   CalculateBudgetSpent(ts, form.category, month0, year), form.period,
                   form.alertThreshold, form.description, now, month0 + 1, year))
  }

  /** The forms as they are reset are rejected. */
  lemma EmptyFormsRejected(ts: seq<Transaction>, month0: int, year: int, now: string)
    ensures HandleAddGoal(EmptyGoalForm, now) == Rejected("Please fill in required fields")
    ensures HandleAddBudget(EmptyBudgetForm, ts, month0, year, now) == Rejected("Please fill in required fields")
  {
  }
}
