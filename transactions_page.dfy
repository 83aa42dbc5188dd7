/** The transactions page: the natural-language entry parser, the keyword
    category guesser, the list filter and the add/edit form checks. */
module TransactionsPage {
  import opened Wrappers
  import opened Text
  import opened Collections
  import opened Records
  import opened Pattern

  /** `categories.expense`. */
  const ExpenseCategories: seq<string> :=
    ["Food", "Entertainment", "Transportation", "Shopping", "Bills", "Healthcare", "Education", "Other"]

  /** `categories.income`. */
  const IncomeCategories: seq<string> :=
    ["Salary", "Freelance", "Investment", "Business", "Gift", "Other"]

  /** One guarded return of `guessCategory`: the category, if the lower-cased
      description includes any of the keywords. */
  datatype Rule = Rule(keywords: seq<string>, category: string)

  const ExpenseRules: seq<Rule> := [
    Rule(["food", "dinner", "lunch", "restaurant"], "Food"),
    Rule(["movie", "netflix", "entertainment"], "Entertainment"),
    Rule(["uber", "taxi", "bus", "transport"], "Transportation"),
    Rule(["shopping", "clothes", "amazon"], "Shopping"),
    Rule(["bill", "electricity", "phone", "internet"], "Bills"),
    Rule(["doctor", "medicine", "hospital"], "Healthcare")
  ]

  const IncomeRules: seq<Rule> := [
    Rule(["salary", "job", "work"], "Salary"),
    Rule(["freelance", "project", "client"], "Freelance"),
    Rule(["investment", "dividend", "interest"], "Investment")
  ]

  predicate Hits(desc: string, rule: Rule) {
    exists i :: 0 <= i < |rule.keywords| && Contains(desc, rule.keywords[i])
  }

  /** The category of the first rule that hits, or `'Other'`. */
  function FirstRule(desc: string, rules: seq<Rule>): string {
    if rules == [] then "Other"
    else if Hits(desc, rules[0]) then rules[0].category
    else FirstRule(desc, rules[1..])
  }

  /** The rules are tried in order and the first that hits decides. */
  lemma {:induction false} FirstRuleFirstHit(desc: string, rules: seq<Rule>, k: nat)
    requires k < |rules| && Hits(desc, rules[k])
    requires forall j :: 0 <= j < k ==> !Hits(desc, rules[j])
    ensures FirstRule(desc, rules) == rules[k].category
  {
    if k > 0 {
      assert !Hits(desc, rules[0]);
      assert forall j :: 0 <= j < k - 1 ==> rules[1..][j] == rules[j + 1];
      FirstRuleFirstHit(desc, rules[1..], k - 1);
    }
  }

  /** No rule hits: `'Other'`. */
  lemma {:induction false} FirstRuleNoHit(desc: string, rules: seq<Rule>)
    requires forall j :: 0 <= j < |rules| ==> !Hits(desc, rules[j])
    ensures FirstRule(desc, rules) == "Other"
  {
    if rules != [] {
      assert forall j :: 0 <= j < |rules| - 1 ==> rules[1..][j] == rules[j + 1];
      FirstRuleNoHit(desc, rules[1..]);
    }
  }

  /** The result is some rule's category or `'Other'`. */
  lemma {:induction false} FirstRuleIsACategory(desc: string, rules: seq<Rule>)
    ensures FirstRule(desc, rules) == "Other"
      || exists k :: 0 <= k < |rules| && FirstRule(desc, rules) == rules[k].category
  {
    if rules != [] && !Hits(desc, rules[0]) {
      FirstRuleIsACategory(desc, rules[1..]);
      if FirstRule(desc, rules) != "Other" {
        var k :| 0 <= k < |rules| - 1 && FirstRule(desc, rules[1..]) == rules[1..][k].category;
        assert FirstRule(desc, rules) == rules[k + 1].category;
      }
    }
  }

  /** `guessCategory(description, type)`: every type but `'expense'` takes
      the income rules. The guess is always one of the type's categories. */
  function GuessCategory(description: string, kind: string): (r: string)
    ensures kind == "expense" ==> r in ExpenseCategories
    ensures kind != "expense" ==> r in IncomeCategories
  {
    var rules := if kind == "expense" then ExpenseRules else IncomeRules;
    FirstRuleIsACategory(Lower(description), rules);
    FirstRule(Lower(description), rules)
  }

  /** `'Other'` exactly when no keyword of the type's rules is included. */
  lemma GuessCategoryOther(description: string, kind: string)
    ensures var rules := if kind == "expense" then ExpenseRules else IncomeRules;
      GuessCategory(description, kind) == "Other"
      <==> forall j :: 0 <= j < |rules| ==> !Hits(Lower(description), rules[j])
  {
    var rules := if kind == "expense" then ExpenseRules else IncomeRules;
    var desc := Lower(description);
    if forall j :: 0 <= j < |rules| ==> !Hits(desc, rules[j]) {
      FirstRuleNoHit(desc, rules);
    } else {
      var k :| 0 <= k < |rules| && Hits(desc, rules[k]);
      LeastHit(desc, rules, k);
    }
  }

  /** From any hit, the first hit decides and is not `'Other'`. */
  lemma LeastHit(desc: string, rules: seq<Rule>, k: nat)
    requires rules == ExpenseRules || rules == IncomeRules
    requires k < |rules| && Hits(desc, rules[k])
    ensures FirstRule(desc, rules) != "Other"
  {
    var m: nat := k;
    while exists j :: 0 <= j < m && Hits(desc, rules[j])
      invariant m <= k && Hits(desc, rules[m])
      decreases m
    {
      var j :| 0 <= j < m && Hits(desc, rules[j]);
      m := j;
    }
    FirstRuleFirstHit(desc, rules, m);
  }

  /** The rule order: an expense description with a food keyword is food,
      whatever else it names (`'dinner and movie'` is `'Food'`). */
  lemma FoodFirst(description: string, k: nat)
    requires k < |ExpenseRules[0].keywords| && Contains(Lower(description), ExpenseRules[0].keywords[k])
    ensures GuessCategory(description, "expense") == "Food"
  {
    FirstRuleFirstHit(Lower(description), ExpenseRules, 0);
  }

  // ---------------------------------------------------------------------------
  // parseTextInput

  /** The record the parser builds from the captured amount and description. */
  function Entry(kind: string, amount: string, description: string, today: string): (t: Transaction)
    requires |amount| > 0 && AllDigits(amount)
    ensures t.amount == DigitsValue(amount) as real
  {
    ParseFloatDigits(amount);
    Transaction(
      Some(kind), ParseFloat(amount).value, Some("INR"),
      Some(GuessCategory(description, kind)), Some(Trim(description)), Some(today),
      Some(GoalTag(Some(""), 0.0, Some(0.0))))
  }

  /** `parseTextInput(text)` with today's ISO date as `today`: the `spent`
      expression is tried first, then the `earned` one; `None` is `null`. */
  function ParseTextInput(text: string, today: string): (r: Option<Transaction>)
    ensures r.Some? <==> Find(SpentPattern, text).Some? || Find(EarnedPattern, text).Some?
    ensures Find(SpentPattern, text).Some? ==> r.Some? && r.value.kind == Some("expense")
    ensures Find(SpentPattern, text).None? && Find(EarnedPattern, text).Some?
      ==> r.Some? && r.value.kind == Some("income")
    ensures r.Some? ==> (r.value.currency == Some("INR") && r.value.date == Some(today)
      && r.value.goal == Some(GoalTag(Some(""), 0.0, Some(0.0))))
  {
    match Find(SpentPattern, text)
    case Some(caps) =>
      PatternCaptures(SpentPattern, text);
      Some(Entry("expense", caps[0], caps[1], today))
    case None =>
      match Find(EarnedPattern, text)
      case Some(caps) =>
        PatternCaptures(EarnedPattern, text);
        Some(Entry("income", caps[0], caps[1], today))
      case None => None
  }

  /** A record exactly when one of the two expressions matches somewhere in
      the text; an expense whenever the `spent` one does. */
  lemma ParseTextInputMatches(text: string, today: string)
    ensures ParseTextInput(text, today).Some?
      <==> MatchesAfter(SpentPattern, text, 0) || MatchesAfter(EarnedPattern, text, 0)
    ensures MatchesAfter(SpentPattern, text, 0) ==> ParseTextInput(text, today).value.kind == Some("expense")
    ensures !MatchesAfter(SpentPattern, text, 0) && MatchesAfter(EarnedPattern, text, 0)
      ==> ParseTextInput(text, today).value.kind == Some("income")
  {
    FindComplete(SpentPattern, text);
    FindComplete(EarnedPattern, text);
  }

  /** The fields a successful parse takes from the captures: the amount is
      the value of the captured digits and the description is the captured
      text trimmed, so it neither starts nor ends with white space; the
      category is guessed from the untrimmed capture. */
  lemma ParsedFields(text: string, today: string)
    requires ParseTextInput(text, today).Some?
    ensures var atoms := if Find(SpentPattern, text).Some? then SpentPattern else EarnedPattern;
      var caps := Find(atoms, text).value;
      var t := ParseTextInput(text, today).value;
      |caps| == 2 && AllDigits(caps[0]) && |caps[0]| > 0
      && t.amount == DigitsValue(caps[0]) as real
      && t.description == Some(Trim(caps[1]))
      && t.category == Some(GuessCategory(caps[1], t.kind.value))
  {
    var atoms := if Find(SpentPattern, text).Some? then SpentPattern else EarnedPattern;
    PatternCaptures(atoms, text);
  }

  /** `spent N on D`, with single spaces, D a line that does not start with
      white space: the description D trimmed, the amount N, the category
      guessed from D. */
  lemma SpentSentence(n: string, d: string, today: string)
    requires |n| > 0 && AllDigits(n)
    requires |d| > 0 && !IsSpace(d[0]) && forall i :: 0 <= i < |d| ==> !IsLineTerminator(d[i])
    ensures ParseTextInput("spent " + n + " on " + d, today) == Some(Transaction(
      Some("expense"), DigitsValue(n) as real, Some("INR"), Some(GuessCategory(d, "expense")),
      Some(Trim(d)), Some(today), Some(GoalTag(Some(""), 0.0, Some(0.0)))))
  {
    var t := "spent " + n + " on " + d;
    SpentFind(n, d);
    SpentWins(t, today);
  }

  /** When the `spent` expression matches, its captures make the record. */
  lemma SpentWins(text: string, today: string)
    requires Find(SpentPattern, text).Some?
    ensures |Find(SpentPattern, text).value| == 2
    ensures |Find(SpentPattern, text).value[0]| > 0 && AllDigits(Find(SpentPattern, text).value[0])
    ensures ParseTextInput(text, today) == Some(Entry("expense",
      Find(SpentPattern, text).value[0], Find(SpentPattern, text).value[1], today))
  {
    PatternCaptures(SpentPattern, text);
  }

  /** The sentence the parser was written for, in its plain form. */
  lemma DinnerExample(today: string)
    ensures ParseTextInput("spent 600 on Dinner", today) == Some(Transaction(
      Some("expense"), 600.0, Some("INR"), Some("Food"), Some("Dinner"), Some(today),
      Some(GoalTag(Some(""), 0.0, Some(0.0)))))
  {
    assert "spent 600 on Dinner" == "spent " + "600" + " on " + "Dinner";
    DinnerFields();
    DinnerWords();
    SpentSentence("600", "Dinner", today);
  }

  lemma DinnerWords()
    ensures |"600"| > 0 && AllDigits("600")
    ensures |"Dinner"| > 0 && !IsSpace("Dinner"[0]) && forall i :: 0 <= i < |"Dinner"| ==> !IsLineTerminator("Dinner"[i])
  {
  }

  lemma DinnerFields()
    ensures DigitsValue("600") == 600
    ensures GuessCategory("Dinner", "expense") == "Food"
    ensures Trim("Dinner") == "Dinner"
  {
    assert "600"[..2] == "60" && "60"[..1] == "6" && "6"[..0] == "";
    DinnerIsFood();
    TrimPlain("Dinner");
  }

  lemma DinnerIsFood()
    ensures GuessCategory("Dinner", "expense") == "Food"
  {
    assert Lower("Dinner") == "dinner";
    ContainsAt("dinner", "dinner", 0);
    FoodFirst("Dinner", 1);
  }

  lemma SpentFind(n: string, d: string)
    requires |n| > 0 && AllDigits(n)
    requires |d| > 0 && !IsSpace(d[0]) && forall i :: 0 <= i < |d| ==> !IsLineTerminator(d[i])
    ensures Find(SpentPattern, "spent " + n + " on " + d) == Some([n, d])
  {
    var t := "spent " + n + " on " + d;
    var q := 6 + |n|;
    SpentLayout(n, d);
    PlainSentenceMatch(t, "spent", "on", q);
    assert t[6..q] == n;
    assert t[q + 4..] == d;
  }

  lemma SpentLayout(n: string, d: string)
    requires |n| > 0 && AllDigits(n)
    requires |d| > 0 && !IsSpace(d[0]) && forall i :: 0 <= i < |d| ==> !IsLineTerminator(d[i])
    ensures PlainSentence("spent " + n + " on " + d, "spent", "on", 6 + |n|)
  {
    SpentHead(n, d);
    SpentTail(n, d);
  }

  /** `spent`, a space and the digits of the amount. */
  lemma SpentHead(n: string, d: string)
    requires |n| > 0 && AllDigits(n)
    ensures var t := "spent " + n + " on " + d;
      WordAt(t, 0, "spent") && IsSpace(t[5]) && forall i :: 6 <= i < 6 + |n| ==> IsDigit(t[i])
  {
    var t := "spent " + n + " on " + d;
    assert t[..5] == "spent";
    assert Lower("spent") == "spent";
    assert t[0..5] == "spent";
    assert forall i :: 6 <= i < 6 + |n| ==> t[i] == n[i - 6];
  }

  /** A space, `on`, a space and the description. */
  lemma SpentTail(n: string, d: string)
    requires |d| > 0 && !IsSpace(d[0]) && forall i :: 0 <= i < |d| ==> !IsLineTerminator(d[i])
    ensures var t := "spent " + n + " on " + d; var q := 6 + |n|;
      q + 4 < |t| && IsSpace(t[q]) && WordAt(t, q + 1, "on") && IsSpace(t[q + 3]) && !IsSpace(t[q + 4])
      && forall i :: q + 4 <= i < |t| ==> IsAny(t[i])
  {
    var t := "spent " + n + " on " + d;
    var q := 6 + |n|;
    assert t[q + 1..q + 3] == "on";
    assert Lower("on") == "on";
    assert forall i :: q + 4 <= i < |t| ==> t[i] == d[i - q - 4];
  }

  // ---------------------------------------------------------------------------
  // The list filter

  /** `field?.toLowerCase().includes(term.toLowerCase())`: a missing field
      reads as `undefined`, which is falsy. */
  predicate FieldIncludes(field: Option<string>, term: string) {
    field.Some? && Contains(Lower(field.value), Lower(term))
  }

  /** The callback of `filteredTransactions`. */
  predicate Shown(t: Transaction, searchTerm: string, filterType: string, filterCategory: string) {
    (FieldIncludes(t.description, searchTerm) || FieldIncludes(t.category, searchTerm))
    && (filterType == "all" || t.kind == Some(filterType))
    && (filterCategory == "all" || t.category == Some(filterCategory))
  }

  /** `filteredTransactions`: the transactions shown, in their order. */
  function FilteredTransactions(ts: seq<Transaction>, searchTerm: string, filterType: string, filterCategory: string)
    : (r: seq<Transaction>)
    ensures IsSubsequence(r, ts)
    ensures forall t :: t in r <==> t in ts && Shown(t, searchTerm, filterType, filterCategory)
  {
    var keep := t => Shown(t, searchTerm, filterType, filterCategory);
    FilterIsSubsequence(ts, keep);
    Filter(ts, keep)
  }

  predicate HasText(t: Transaction) { t.description.Some? || t.category.Some? }

  /** With no search term and both filters at `'all'` the list shows every
      transaction that has a description or a category, and nothing else. */
  lemma NoFilterShowsAll(ts: seq<Transaction>)
    ensures FilteredTransactions(ts, "", "all", "all")
      == Filter(ts, HasText)
  {
    var r := FilteredTransactions(ts, "", "all", "all");
    var keep := (t: Transaction) => Shown(t, "", "all", "all");
    forall t: Transaction ensures keep(t) == HasText(t) {
      if t.description.Some? { ContainsEmpty(Lower(t.description.value)); }
      if t.category.Some? { ContainsEmpty(Lower(t.category.value)); }
    }
    FilterSame(ts, keep, HasText);
  }

  lemma {:induction false} FilterSame(ts: seq<Transaction>, p: Transaction -> bool, q: Transaction -> bool)
    requires forall t :: p(t) == q(t)
    ensures Filter(ts, p) == Filter(ts, q)
  {
    if ts != [] { FilterSame(ts[..|ts| - 1], p, q); }
  }

  /** ... and so every transaction when each has one of the two. */
  lemma NoFilterIsIdentity(ts: seq<Transaction>)
    requires forall t :: t in ts ==> HasText(t)
    ensures FilteredTransactions(ts, "", "all", "all") == ts
  {
    NoFilterShowsAll(ts);
    FilterAll(ts, HasText);
  }

  // ---------------------------------------------------------------------------
  // The add and edit forms

  /** The form's fields, as the inputs hold them. */
  datatype TransactionForm = TransactionForm(
    kind: string, amount: string, currency: string, category: string,
    description: string, date: string, goal: GoalTag)

  /** `{ ...formData, amount: parseFloat(formData.amount) }`. */
  function Stored(form: TransactionForm): Transaction {
    Transaction(
      Some(form.kind), ParseFloat(form.amount).GetOr(0.0), Some(form.currency), Some(form.category),
      Some(form.description), Some(form.date), Some(form.goal))
  }

  /** `handleAddTransaction`: in manual mode the form is checked for an amount
      and a category; otherwise the text box is parsed. */
  function HandleAddTransaction(manual: bool, form: TransactionForm, textInput: string, today: string)
    : (r: Result<Transaction>)
    ensures manual ==> (r.Rejected? <==> form.amount == "" || form.category == "")
    ensures manual && r.Rejected? ==> r.message == "Please fill in amount and category"
    ensures manual && r.Ok? ==> (r.value.category == Some(form.category) && r.value.kind == Some(form.kind)
      && r.value.description == Some(form.description) && r.value.date == Some(form.date)
      && r.value.currency == Some(form.currency) && r.value.goal == Some(form.goal))
    ensures manual && r.Ok? ==> r.value == Stored(form) && r.value.amount == ParseFloat(form.amount).GetOr(0.0)
    ensures !manual ==> (r.Ok? <==> ParseTextInput(textInput, today).Some?)
    ensures !manual && r.Ok? ==> r.value == ParseTextInput(textInput, today).value
  {
    if manual then
      if form.amount == "" || form.category == "" then Rejected("Please fill in amount and category")
      else Ok(Stored(form))
    else
      match ParseTextInput(textInput, today)
      case Some(t) => Ok(t)
      case None => Rejected("Could not parse the transaction. Please try again or use manual input.")
  }

  /** `handleEditTransaction`: there must be a transaction being edited, an
      amount and a category. */
  function HandleEditTransaction(editing: bool, form: TransactionForm): (r: Result<Transaction>)
    ensures r.Rejected? <==> !editing || form.amount == "" || form.category == ""
    ensures r.Rejected? ==> r.message == "Please fill in required fields"
    ensures r.Ok? ==> r.value == HandleAddTransaction(true, form, "", "").value
    ensures r.Ok? ==> r.value.amount == ParseFloat(form.amount).GetOr(0.0) && r.value.category == Some(form.category)
  {
    if !editing || form.amount == "" || form.category == "" then Rejected("Please fill in required fields")
    else Ok(Stored(form))
  }

  /** The stored amount is the number the amount field spells. */
  lemma StoredAmount(form: TransactionForm, n: nat)
    requires form.amount == NatToString(n) && form.category != ""
    ensures HandleAddTransaction(true, form, "", "") == Ok(Stored(form))
    ensures Stored(form).amount == n as real
  {
    NatToStringRoundTrip(n);
    ParseFloatDigits(NatToString(n));
  }
}
