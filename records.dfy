/** The documents the pages fetch and the field readings they all share. */
module Records {
  import opened Wrappers
  import opened Text
  import opened Collections

  /** The goal a transaction may be tagged with:
      `{ name, target_amount, duration_months }`. */
  datatype GoalTag = GoalTag(name: Option<string>, target: real, months: Option<real>)

  /** A transaction document. A text field the document may lack is an
      `Option`; `amount` is the number that every reading of it in the core,
      `amount || 0`, sees (a missing amount and `NaN` read as 0). */
  datatype Transaction = Transaction(
    kind: Option<string>,
    amount: real,
    currency: Option<string>,
    category: Option<string>,
    description: Option<string>,
    date: Option<string>,
    goal: Option<GoalTag>)

  /** `x || d` on a text field: a missing and an empty text both give `d`. */
  function Or(x: Option<string>, d: string): string {
    if x.Some? && x.value != "" then x.value else d
  }

  predicate IsIncome(t: Transaction) { t.kind == Some("income") }

  predicate IsExpense(t: Transaction) { t.kind == Some("expense") }

  /** No transaction is both an income and an expense. */
  lemma IncomeIsNotExpense(t: Transaction)
    ensures !(IsIncome(t) && IsExpense(t))
  {
    if IsIncome(t) {
      assert t.kind.value[0] == 'i';
    }
  }

  /** The amount of an income, 0 for anything else. */
  function IncomeAmount(t: Transaction): real { if IsIncome(t) then t.amount else 0.0 }

  /** The amount of an expense, 0 for anything else. */
  function ExpenseAmount(t: Transaction): real { if IsExpense(t) then t.amount else 0.0 }

  /** `t.category || 'Other'`. */
  function CategoryOrOther(t: Transaction): string { Or(t.category, "Other") }

  /** `t.date` is truthy. */
  predicate HasDate(t: Transaction) { t.date.Some? && t.date.value != "" }

  /** `t.date && t.date.startsWith(month)`. */
  predicate InMonth(t: Transaction, month: string) {
    HasDate(t) && StartsWith(t.date.value, month)
  }

  function Amount(t: Transaction): real { t.amount }

  /** A calendar date as `new Date(s)` reads an ISO date string. */
  datatype CalendarDate = CalendarDate(year: int, month: int, day: int)

  function TwoDigits(s: string, i: nat): Option<int>
    requires i + 2 <= |s|
  {
    if IsDigit(s[i]) && IsDigit(s[i + 1]) then Some(DigitValue(s[i]) * 10 + DigitValue(s[i + 1]))
    else None
  }

  /** A leap year of the proleptic Gregorian calendar. */
  predicate LeapYear(year: int) {
    year % 4 == 0 && (year % 100 != 0 || year % 400 == 0)
  }

  /** The number of days of a month, February by the leap-year rule. */
  function DaysInMonth(year: int, month: int): (n: int)
    requires 1 <= month <= 12
    ensures 28 <= n <= 31
  {
    if month == 2 then (if LeapYear(year) then 29 else 28)
    else if month == 4 || month == 6 || month == 9 || month == 11 then 30
    else 31
  }

  /** `new Date(s)` for the ISO forms `YYYY-MM` and `YYYY-MM-DD`, the latter
      possibly followed by a time `T...`; `None` is an invalid date. As the
      date time string format of ECMAScript (section 21.4.1.32 of
      ECMA-262) prescribes, a day past the end of its month is invalid. */
  function ParseDate(s: string): (r: Option<CalendarDate>)
    ensures r.Some? ==> 1 <= r.value.month <= 12 && 1 <= r.value.day <= DaysInMonth(r.value.year, r.value.month)
    ensures r.Some? ==> |s| >= 7 && s[4] == '-'
  {
    if |s| < 7 || s[4] != '-' || !AllDigits(s[..4]) then None
    else
      var year := DigitsValue(s[..4]);
      match TwoDigits(s, 5)
      case None => None
      case Some(month) =>
        if month < 1 || month > 12 then None
        else if |s| == 7 then Some(CalendarDate(year, month, 1))
        else if |s| < 10 || s[7] != '-' then None
        else
          match TwoDigits(s, 8)
          case None => None
          case Some(day) =>
            if day < 1 || day > DaysInMonth(year, month) || (|s| > 10 && s[10] != 'T') then None
            else Some(CalendarDate(year, month, day))
  }

  lemma TwoDigitsValue(s: string, i: nat)
    requires i + 2 <= |s| && AllDigits(s[i..i + 2])
    ensures TwoDigits(s, i) == Some(DigitsValue(s[i..i + 2]))
  {
    var two := s[i..i + 2];
    assert two[0] == s[i] && two[1] == s[i + 1];
    assert DigitsValue(two[..1]) == DigitValue(s[i]) by {
      assert two[..1][..0] == [];
    }
    assert DigitsValue(two) == DigitsValue(two[..1]) * 10 + DigitValue(s[i + 1]);
  }

  /** `YYYY-MM-DD`, possibly followed by a time `T...`, reads as that year,
      month and day when the month is in range and the day within it. */
  lemma ParseIsoDate(year: string, month: string, day: string, time: string)
    requires |year| == 4 && |month| == 2 && |day| == 2
    requires AllDigits(year) && AllDigits(month) && AllDigits(day)
    requires 1 <= DigitsValue(month) <= 12
    requires 1 <= DigitsValue(day) <= DaysInMonth(DigitsValue(year), DigitsValue(month))
    requires time == [] || time[0] == 'T'
    ensures ParseDate(year + "-" + month + "-" + day + time)
      == Some(CalendarDate(DigitsValue(year), DigitsValue(month), DigitsValue(day)))
  {
    var s := year + "-" + month + "-" + day + time;
    IsoPieces(year, month, day, time);
    TwoDigitsValue(s, 5);
    TwoDigitsValue(s, 8);
  }

  lemma IsoPieces(year: string, month: string, day: string, time: string)
    requires |year| == 4 && |month| == 2 && |day| == 2
    ensures var s := year + "-" + month + "-" + day + time;
      |s| == 10 + |time| && s[..4] == year && s[4] == '-' && s[5..7] == month && s[7] == '-'
      && s[8..10] == day && (|s| > 10 ==> s[10] == time[0])
  {
  }

  /** A day past the end of its month does not read. */
  lemma DayPastMonthEnd(year: string, month: string, day: string)
    requires |year| == 4 && |month| == 2 && |day| == 2
    requires AllDigits(year) && AllDigits(month) && AllDigits(day)
    requires 1 <= DigitsValue(month) <= 12
    ensures DigitsValue(day) > DaysInMonth(DigitsValue(year), DigitsValue(month))
      ==> ParseDate(year + "-" + month + "-" + day) == None
  {
    var s := year + "-" + month + "-" + day;
    IsoPieces(year, month, day, "");
    assert s == year + "-" + month + "-" + day + "";
    TwoDigitsValue(s, 5);
    TwoDigitsValue(s, 8);
  }

  lemma TwoDigitLiterals()
    ensures AllDigits("02") && DigitsValue("02") == 2
    ensures AllDigits("29") && DigitsValue("29") == 29
    ensures AllDigits("31") && DigitsValue("31") == 31
  {
    assert "02"[..1] == "0" && "29"[..1] == "2" && "31"[..1] == "3";
    assert "0"[..0] == "" && "2"[..0] == "" && "3"[..0] == "";
  }

  lemma YearLiterals()
    ensures AllDigits("2024") && DigitsValue("2024") == 2024
    ensures AllDigits("2025") && DigitsValue("2025") == 2025
  {
    assert "2024"[..3] == "202" && "2025"[..3] == "202";
    assert "202"[..2] == "20" && "20"[..1] == "2" && "2"[..0] == "";
  }

  /** 31 February of 2025 does not read. */
  lemma February31Invalid()
    ensures ParseDate("2025-02-31") == None
  {
    TwoDigitLiterals();
    YearLiterals();
    DayPastMonthEnd("2025", "02", "31");
    assert "2025" + "-" + "02" + "-" + "31" == "2025-02-31";
  }

  /** 29 February reads in the leap year 2024 and not in 2025. */
  lemma February29()
    ensures ParseDate("2025-02-29") == None
    ensures ParseDate("2024-02-29") == Some(CalendarDate(2024, 2, 29))
  {
    TwoDigitLiterals();
    YearLiterals();
    DayPastMonthEnd("2025", "02", "29");
    assert "2025" + "-" + "02" + "-" + "29" == "2025-02-29";
    ParseIsoDate("2024", "02", "29", "");
    assert "2024" + "-" + "02" + "-" + "29" + "" == "2024-02-29";
  }

  /** `YYYY-MM` reads as the first day of that month. */
  lemma ParseIsoMonth(year: string, month: string)
    requires |year| == 4 && |month| == 2 && AllDigits(year) && AllDigits(month)
    requires 1 <= DigitsValue(month) <= 12
    ensures ParseDate(year + "-" + month) == Some(CalendarDate(DigitsValue(year), DigitsValue(month), 1))
  {
    var s := year + "-" + month;
    assert s[..4] == year && s[4] == '-' && s[5..7] == month;
    TwoDigitsValue(s, 5);
  }

  /** `new Date(t.date)`: a missing date is an invalid one. */
  function DateOf(t: Transaction): Option<CalendarDate> {
    if t.date.Some? then ParseDate(t.date.value) else None
  }

  /** The order `new Date(b.date) - new Date(a.date)` sorts by, day by day;
      a date that does not read is put at 0, below every date that does. */
  function DateRank(t: Transaction): (r: real)
    ensures r >= 0.0
  {
    match DateOf(t)
    case None => 0.0
    case Some(d) => (if d.year < 0 then 0 else d.year * 10000 + d.month * 100 + d.day) as real
  }

  /** The month-over-month change in percent,
      `previous > 0 ? (current - previous) / previous * 100 : 0`. */
  function Change(current: real, previous: real): (r: real)
    ensures previous <= 0.0 ==> r == 0.0
    ensures previous > 0.0 ==> r * previous == (current - previous) * 100.0
    ensures previous > 0.0 ==> (r > 0.0 <==> current > previous) && (r == 0.0 <==> current == previous)
  {
    if previous > 0.0 then (current - previous) / previous * 100.0 else 0.0
  }

  /** The savings rate in percent,
      `income > 0 ? (income - expenses) / income * 100 : 0`. */
  function SavingsRate(income: real, expenses: real): (r: real)
    ensures income <= 0.0 ==> r == 0.0
    ensures income > 0.0 ==> r * income == (income - expenses) * 100.0
    ensures income > 0.0 && expenses >= 0.0 ==> r <= 100.0
    ensures income > 0.0 ==> (r < 0.0 <==> expenses > income)
  {
    if income > 0.0 then (income - expenses) / income * 100.0 else 0.0
  }

  // ---------------------------------------------------------------------------
  // Expenses grouped by a key

  /** One step of a `forEach` over the expenses that groups them by `key`. */
  lemma ExpenseGroupStep(ts: seq<Transaction>, i: nat, key: Transaction -> string)
    requires i < |ts|
    ensures GroupSum(Filter(ts[..i + 1], IsExpense), key, Amount)
         == if IsExpense(ts[i]) then AddTo(GroupSum(Filter(ts[..i], IsExpense), key, Amount), key(ts[i]), ts[i].amount)
            else GroupSum(Filter(ts[..i], IsExpense), key, Amount)
  {
    assert ts[..i + 1] == ts[..i] + [ts[i]];
    FilterSnoc(ts[..i], ts[i], IsExpense);
    GroupSumSnoc(Filter(ts[..i], IsExpense), ts[i], key, Amount);
  }

  /** A `forEach` over the expenses that adds each one to the total of its
      `key`. */
  method GroupExpenses(ts: seq<Transaction>, key: Transaction -> string) returns (totals: seq<Total>)
    ensures totals == GroupSum(Filter(ts, IsExpense), key, Amount)
  {
    totals := [];
    var i := 0;
    while i < |ts|
      invariant i <= |ts|
      invariant totals == GroupSum(Filter(ts[..i], IsExpense), key, Amount)
    {
      ExpenseGroupStep(ts, i, key);
      if IsExpense(ts[i]) {
        totals := AddTo(totals, key(ts[i]), ts[i].amount);
      }
      i := i + 1;
    }
    assert ts[..i] == ts;
  }
}
