/** Worked instances of the prompt builder's formatting rules. */
module PromptExamples {
  import opened Basics
  import opened Formatting
  import opened Prompt
  import opened PromptProperties

  /** A budget of 150.50 is shown with two decimals. */
  lemma BudgetShown(c: UserContext, ps: seq<string>)
    requires c.monthlyBudget == Given(15050) && PromptParts(c) == Ok(ps)
    ensures "- Monthly budget: 150.50" in ps
  {
    BudgetLineExact(c, ps);
    BudgetLineExample();
  }

  lemma BudgetLineExample()
    ensures BudgetLine(15050) == "- Monthly budget: 150.50"
  {
    assert Fmt2(15050) == "150.50";
  }

  /** A zero budget gives no budget line at all. */
  lemma ZeroBudgetHidden(c: UserContext, ps: seq<string>)
    requires c.monthlyBudget == Given(0) && PromptParts(c) == Ok(ps)
    ensures forall v :: BudgetLine(v) !in ps
  {
    BudgetLineExact(c, ps);
  }

  lemma Zero() ensures Fmt2(0) == "0.00" {}
  lemma Five() ensures Fmt2(500) == "5.00" {}
  lemma TwelveFifty() ensures Fmt2(1250) == "12.50" {}
  lemma EightHundred() ensures Fmt2(80000) == "800.00" {}

  lemma OneEntry(k: string, v: Cents, t: string)
    requires k + ": " + Fmt2(v) == t
    ensures EntryTexts([(k, Some(v))]) == Ok([t])
  {
    assert [(k, Some(v))][1..] == [];
    assert EntryText(k, Some(v)) == Ok(t);
    assert EntryTexts([]) == Ok([]);
    assert [t] + [] == [t];
  }

  lemma TwoEntries()
    ensures EntryTexts([("Food", Some(1250)), ("Rent", Some(80000))])
            == Ok(["Food: 12.50", "Rent: 800.00"])
  {
    var m := [("Food", Some(1250)), ("Rent", Some(80000))];
    TwelveFifty();
    EightHundred();
    assert "Food" + ": " + Fmt2(1250) == "Food: 12.50";
    assert "Rent" + ": " + Fmt2(80000) == "Rent: 800.00";
    assert m[1..] == [("Rent", Some(80000))];
    OneEntry("Rent", 80000, "Rent: 800.00");
    assert EntryText("Food", Some(1250)) == Ok("Food: 12.50");
    assert ["Food: 12.50"] + ["Rent: 800.00"] == ["Food: 12.50", "Rent: 800.00"];
  }

  /** Two categories, in item order, each with two decimals. */
  lemma CategoryLineExample()
    ensures MappingLine(ByCategoryPrefix, Given([("Food", Some(1250)), ("Rent", Some(80000))]))
            == Ok([ByCategoryPrefix + "Food: 12.50, Rent: 800.00"])
  {
    TwoEntries();
    TwoEntriesJoined();
  }

  lemma TwoEntriesJoined()
    ensures Join(["Food: 12.50", "Rent: 800.00"], ", ") == "Food: 12.50, Rent: 800.00"
  {
    var ts := ["Food: 12.50", "Rent: 800.00"];
    assert ts[1..] == ["Rent: 800.00"];
    assert "Food: 12.50" + ", " + "Rent: 800.00" == "Food: 12.50, Rent: 800.00";
  }

  /** A null value in a mapping cannot be formatted. */
  lemma NullCategoryAmountRaises()
    ensures MappingLine(LimitsPrefix, Given([("Food", Some(1250)), ("Rent", None)])) == Raised
  {
  }

  /** An expense without any keys prints the defaults. */
  lemma EmptyExpenseLine()
    ensures ExpenseText(Expense(Missing, Missing, Missing, Missing)) == Ok("  ?: 0.00 ()")
  {
    var e := Expense(Missing, Missing, Missing, Missing);
    Zero();
    assert TextOr(e.category, "?") == "?" && TextOr(e.date, "") == "" && !HasNote(e);
    assert ExpenseHead(e, 0) == "  ?: 0.00 ()";
    assert ExpenseHead(e, 0) + "" == "  ?: 0.00 ()";
  }

  /** Null category and date are printed as "None"; an empty note adds nothing. */
  lemma NullTextsLine()
    ensures ExpenseText(Expense(Null, Given(500), Null, Given(""))) == Ok("  None: 5.00 (None)")
  {
    var e := Expense(Null, Given(500), Null, Given(""));
    Five();
    assert TextOr(e.category, "?") == "None" && TextOr(e.date, "") == "None" && !HasNote(e);
    assert ExpenseHead(e, 500) == "  None: 5.00 (None)";
    assert ExpenseHead(e, 500) + "" == "  None: 5.00 (None)";
  }

  /** A note is appended after a dash. */
  lemma NoteLine()
    ensures ExpenseText(Expense(Given("Food"), Given(1250), Given("2025-01-03"), Given("lunch")))
            == Ok("  Food: 12.50 (2025-01-03) — lunch")
  {
    var e := Expense(Given("Food"), Given(1250), Given("2025-01-03"), Given("lunch"));
    FoodHead(e);
    assert HasNote(e) && e.note.value == "lunch";
    assert ExpenseHead(e, 1250) + (" — " + "lunch") == "  Food: 12.50 (2025-01-03) — lunch";
  }

  lemma FoodHead(e: Expense)
    requires e.category == Given("Food") && e.date == Given("2025-01-03")
    ensures ExpenseHead(e, 1250) == "  Food: 12.50 (2025-01-03)"
  {
    TwelveFifty();
    assert TextOr(e.category, "?") == "Food" && TextOr(e.date, "") == "2025-01-03";
    assert "  " + "Food" + ": " + "12.50" == "  Food: 12.50";
    assert "  Food: 12.50" + " (" + "2025-01-03" + ")" == "  Food: 12.50 (2025-01-03)";
  }

  /** A null amount raises, unlike an absent one. */
  lemma NullAmountRaises()
    ensures ExpenseText(Expense(Given("Food"), Null, Missing, Missing)) == Raised
  {
  }
}
