/** The system prompt built from the caller's optional financial snapshot
    (`_build_system_prompt` in backend/api/views.py). */
module Prompt {
  import opened Basics
  import opened Formatting

  /** A monetary amount in hundredths, so that `:.2f` shows it exactly. */
  type Cents = int

  /** A percentage in tenths, so that `:.1f` shows it exactly. */
  type Tenths = int

  /** A `spent_by_category` or `category_limits` object as its items in
      insertion order; a value is None where the JSON holds null. */
  type Mapping = seq<(string, Option<Cents>)>

  /** One element of `recent_expenses`. */
  datatype Expense = Expense(
    category: Field<string>,
    amount: Field<Cents>,
    date: Field<string>,
    note: Field<string>)

  /** The `user_context` object: the keys the builder reads, and how many
      other keys it has (those make the object non-empty, nothing more). */
  datatype UserContext = UserContext(
    incomeThisMonth: Field<Cents>,
    spentThisMonth: Field<Cents>,
    monthlyBudget: Field<Cents>,
    remainingThisMonth: Field<Cents>,
    spentPercentageOfIncome: Field<Tenths>,
    spentByCategory: Field<Mapping>,
    categoryLimits: Field<Mapping>,
    recentExpenses: Field<seq<Expense>>,
    otherKeys: nat)

  /** `not user_context`: the context is absent, null, or an object without keys. */
  predicate IsFalsy(uc: Option<UserContext>) {
    uc.None? ||
    var c := uc.value;
    c.incomeThisMonth == Missing && c.spentThisMonth == Missing && c.monthlyBudget == Missing &&
    c.remainingThisMonth == Missing && c.spentPercentageOfIncome == Missing &&
    c.spentByCategory == Missing && c.categoryLimits == Missing && c.recentExpenses == Missing &&
    c.otherKeys == 0
  }

  /** `if by_cat:` / `if limits:`: the mapping is present and has items. */
  predicate HasItems(f: Field<Mapping>) {
    Get(f).Some? && Get(f).value != []
  }

  /** `if recent:`: the list is present and non-empty. */
  predicate HasExpenses(f: Field<seq<Expense>>) {
    Get(f).Some? && Get(f).value != []
  }

  // The fixed texts are written as short literals joined with `+`, so that
  // the verifier can look at their characters.
  const Base := "You are a friendly financial coach " + "helping the user manage their money. "
              + "Give practical, personalised advice. " + "Be concise and encouraging."
  const Header := "\n\n**Current user data (use this " + "to personalise your answers):**"
  const Closing := "\nRefer to their numbers when relevant " + "and suggest concrete next steps."

  const IncomePrefix := "- Income this month: "
  const SpentPrefix := "- Spent this month: "
  const BudgetPrefix := "- Monthly budget: "
  const RemainingPrefix := "- Remaining this month: "
  const PercentPrefix := "- Spent as % of income: "
  const ByCategoryPrefix := "- Spending by category: "
  const LimitsPrefix := "- Category limits (budgets): "
  const RecentPrefix := "- Recent expenses:\n"

  /** How many recent expenses the prompt shows at most. */
  const MaxRecent := 5

  function IncomeLine(v: Cents): string { IncomePrefix + Fmt2(v) }
  function SpentLine(v: Cents): string { SpentPrefix + Fmt2(v) }
  function BudgetLine(v: Cents): string { BudgetPrefix + Fmt2(v) }
  function RemainingLine(v: Cents): string { RemainingPrefix + Fmt2(v) }
  function PercentLine(v: Tenths): string { PercentPrefix + Fmt1(v) + "%" }

  /** `f"{k}: {v:.2f}"`; formatting a null value raises. */
  function EntryText(k: string, v: Option<Cents>): Result<string> {
    if v.None? then Raised else Ok(k + ": " + Fmt2(v.value))
  }

  /** The entry texts of a mapping, in item order; raises as soon as one
      entry does. */
  function EntryTexts(m: Mapping): (r: Result<seq<string>>)
    ensures r.Ok? <==> forall i :: 0 <= i < |m| ==> m[i].1.Some?
    ensures r.Ok? ==> |r.value| == |m|
    ensures r.Ok? ==> forall i :: 0 <= i < |m| ==> r.value[i] == m[i].0 + ": " + Fmt2(m[i].1.value)
  {
    if m == [] then Ok([])
    else
      var head := EntryText(m[0].0, m[0].1);
      var tail := EntryTexts(m[1..]);
      if head.Raised? || tail.Raised? then Raised
      else
        assert forall i :: 1 <= i < |m| ==> m[i] == m[1..][i - 1];
        Ok([head.value] + tail.value)
  }

  /** The line of a mapping key: none when the mapping is absent, null or
      empty, otherwise the prefix and the entries joined by ", ". */
  function MappingLine(prefix: string, f: Field<Mapping>): Result<seq<string>> {
    if !HasItems(f) then Ok([])
    else
      match EntryTexts(Get(f).value)
      case Raised => Raised
      case Ok(ts) => Ok([prefix + Join(ts, ", ")])
  }

  /** `r.get('category', '?')` and `r.get('date', '')` as text: a null value
      is printed by Python as "None". */
  function TextOr(f: Field<string>, default: string): string {
    match GetOr(f, default)
    case None => "None"
    case Some(s) => s
  }

  /** `r.get("note")` is truthy. */
  predicate HasNote(e: Expense) {
    TruthyString(Get(e.note))
  }

  /** The text of one recent expense before the optional note. */
  function ExpenseHead(e: Expense, amount: Cents): string {
    "  " + TextOr(e.category, "?") + ": " + Fmt2(amount) + " (" + TextOr(e.date, "") + ")"
  }

  /** One recent-expense line: category (default "?"), amount (default 0),
      date (default empty) and, for a non-empty note, " — " and the note.
      A null amount cannot be formatted and raises. */
  function ExpenseText(e: Expense): Result<string> {
    match GetOr(e.amount, 0)
    case None => Raised
    case Some(a) => Ok(ExpenseHead(e, a) + (if HasNote(e) then " — " + e.note.value else ""))
  }

  /** The lines of a list of expenses, in list order. */
  function ExpenseTexts(es: seq<Expense>): (r: Result<seq<string>>)
    ensures r.Ok? <==> forall i :: 0 <= i < |es| ==> ExpenseText(es[i]).Ok?
    ensures r.Ok? ==> |r.value| == |es|
    ensures r.Ok? ==> forall i :: 0 <= i < |es| ==> r.value[i] == ExpenseText(es[i]).value
  {
    if es == [] then Ok([])
    else
      var head := ExpenseText(es[0]);
      var tail := ExpenseTexts(es[1..]);
      if head.Raised? || tail.Raised? then Raised
      else
        assert forall i :: 1 <= i < |es| ==> es[i] == es[1..][i - 1];
        Ok([head.value] + tail.value)
  }

  /** `recent[:5]`. */
  function FirstRecent(es: seq<Expense>): (r: seq<Expense>)
    ensures |r| == if |es| < MaxRecent then |es| else MaxRecent
    ensures r == es[..|r|]
  {
    if |es| <= MaxRecent then es else es[..MaxRecent]
  }

  /** The recent-expenses block: none for an absent, null or empty list,
      otherwise a heading and one line per shown expense. */
  function RecentBlock(f: Field<seq<Expense>>): Result<seq<string>> {
    if !HasExpenses(f) then Ok([])
    else
      match ExpenseTexts(FirstRecent(Get(f).value))
      case Raised => Raised
      case Ok(ls) => Ok([RecentPrefix + Join(ls, "\n")])
  }

  /** A one-number line for a present value, none for an absent or null one. */
  function OptionalLine(v: Option<int>, line: int -> string): seq<string> {
    if v.None? then [] else [line(v.value)]
  }

  /** The budget as far as the prompt shows it: only a value above zero. */
  function ShownBudget(c: UserContext): Option<Cents> {
    var budget := Get(c.monthlyBudget);
    if budget.Some? && budget.value > 0 then budget else None
  }

  /** The parts of the prompt for a non-empty context, before they are
      joined with newlines: base, header, the five optional one-number lines
      in their fixed order, the two mapping lines, the recent-expenses block
      and the closing sentence. */
  function PromptParts(c: UserContext): Result<seq<string>> {
    match MappingLine(ByCategoryPrefix, c.spentByCategory)
    case Raised => Raised
    case Ok(byCategory) =>
      match MappingLine(LimitsPrefix, c.categoryLimits)
      case Raised => Raised
      case Ok(limits) =>
        match RecentBlock(c.recentExpenses)
        case Raised => Raised
        case Ok(recent) =>
          Ok([Base, Header]
             + OptionalLine(Get(c.incomeThisMonth), IncomeLine)
             + OptionalLine(Get(c.spentThisMonth), SpentLine)
             + OptionalLine(ShownBudget(c), BudgetLine)
             + OptionalLine(Get(c.remainingThisMonth), RemainingLine)
             + OptionalLine(Get(c.spentPercentageOfIncome), PercentLine)
             + byCategory + limits + recent + [Closing])
  }

  /** The system prompt `_build_system_prompt(user_context)` returns, or
      Raised where it raises. */
  function SystemPrompt(uc: Option<UserContext>): Result<string> {
    if IsFalsy(uc) then Ok(Base)
    else
      match PromptParts(uc.value)
      case Raised => Raised
      case Ok(parts) => Ok(Join(parts, "\n"))
  }

  /** Builds one recent-expense line as the source does: the head, then
      `line +=` the note when there is one. */
  method BuildExpenseLine(e: Expense) returns (r: Result<string>)
    ensures r == ExpenseText(e)
  {
    var amount := GetOr(e.amount, 0);
    if amount.None? {
      return Raised;
    }
    var line := ExpenseHead(e, amount.value);
    if HasNote(e) {
      line := line + " — " + e.note.value;
    }
    assert line == ExpenseHead(e, amount.value) + (if HasNote(e) then " — " + e.note.value else "");
    return Ok(line);
  }

  /** `_build_system_prompt`: grows the list of parts step by step and joins
      it with newlines. */
  method BuildSystemPrompt(userContext: Option<UserContext>) returns (r: Result<string>)
    ensures r == SystemPrompt(userContext)
  {
    if IsFalsy(userContext) {
      return Ok(Base);
    }
    var c := userContext.value;
    var parts := BuildScalarParts(c, [Base, Header]);

    var byCategory := MappingLine(ByCategoryPrefix, c.spentByCategory);
    if byCategory.Raised? {
      assert PromptParts(c) == Raised;
      return Raised;
    }
    parts := parts + byCategory.value;
    var limits := MappingLine(LimitsPrefix, c.categoryLimits);
    if limits.Raised? {
      assert PromptParts(c) == Raised;
      return Raised;
    }
    parts := parts + limits.value;
    ghost var upToLimits := parts;

    var recent := Get(c.recentExpenses);
    if recent.Some? && recent.value != [] {
      var lines := BuildRecentLines(recent.value);
      if lines.Raised? {
        assert RecentBlock(c.recentExpenses) == Raised;
        return Raised;
      }
      parts := parts + [RecentPrefix + Join(lines.value, "\n")];
    }
    assert parts == upToLimits + RecentBlock(c.recentExpenses).value;
    parts := parts + [Closing];
    assert PromptParts(c) == Ok(parts);
    return Ok(Join(parts, "\n"));
  }

  /** The one-number lines, each appended to `start` when its value is
      present. */
  method BuildScalarParts(c: UserContext, start: seq<string>) returns (parts: seq<string>)
    ensures parts == start + OptionalLine(Get(c.incomeThisMonth), IncomeLine)
                     + OptionalLine(Get(c.spentThisMonth), SpentLine)
                     + OptionalLine(ShownBudget(c), BudgetLine)
                     + OptionalLine(Get(c.remainingThisMonth), RemainingLine)
                     + OptionalLine(Get(c.spentPercentageOfIncome), PercentLine)
  {
    parts := start;
    var income := Get(c.incomeThisMonth);
    if income.Some? {
      parts := parts + [IncomeLine(income.value)];
    }
    ghost var s2 := parts;
    assert s2 == start + OptionalLine(income, IncomeLine);
    var spent := Get(c.spentThisMonth);
    if spent.Some? {
      parts := parts + [SpentLine(spent.value)];
    }
    ghost var s3 := parts;
    assert s3 == s2 + OptionalLine(spent, SpentLine);
    var budget := Get(c.monthlyBudget);
    if budget.Some? && budget.value > 0 {
      parts := parts + [BudgetLine(budget.value)];
    }
    ghost var s4 := parts;
    assert s4 == s3 + OptionalLine(ShownBudget(c), BudgetLine);
    var remaining := Get(c.remainingThisMonth);
    if remaining.Some? {
      parts := parts + [RemainingLine(remaining.value)];
    }
    ghost var s5 := parts;
    assert s5 == s4 + OptionalLine(remaining, RemainingLine);
    var pct := Get(c.spentPercentageOfIncome);
    if pct.Some? {
      parts := parts + [PercentLine(pct.value)];
    }
    assert parts == s5 + OptionalLine(pct, PercentLine);
  }

  /** The `for r in recent[:5]` loop: one line per shown expense, in order. */
  method BuildRecentLines(recent: seq<Expense>) returns (r: Result<seq<string>>)
    ensures r == ExpenseTexts(FirstRecent(recent))
  {
    var shown := FirstRecent(recent);
    var lines: seq<string> := [];
    for i := 0 to |shown|
      invariant |lines| == i
      invariant forall j :: 0 <= j < i ==> ExpenseText(shown[j]) == Ok(lines[j])
    {
      var line := BuildExpenseLine(shown[i]);
      if line.Raised? {
        assert !ExpenseText(shown[i]).Ok?;
        return Raised;
      }
      lines := lines + [line.value];
    }
    var expected := ExpenseTexts(shown);
    assert expected.Ok? && |expected.value| == |lines|;
    assert forall j :: 0 <= j < |lines| ==> expected.value[j] == lines[j];
    assert expected.value == lines;
    assert FirstRecent(recent) == shown;
    return Ok(lines);
  }
}
