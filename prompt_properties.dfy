/** What `_build_system_prompt` promises about its result: the base text
    alone for an empty context; otherwise base, header, the present lines in
    a fixed order, and the closing sentence. Lines are told apart by their
    fixed openings (Kind). */
module PromptProperties {
  import opened Basics
  import opened Formatting
  import opened Prompt

  predicate StartsWith(s: string, p: string) {
    |p| <= |s| && s[..|p|] == p
  }

  predicate EndsWith(s: string, p: string) {
    |p| <= |s| && s[|s| - |p|..] == p
  }

  /** Which part of the prompt a text is, by its fixed opening: 0 base,
      1 header, 2 income, 3 spent, 4 budget, 5 remaining, 6 percentage,
      7 spending by category, 8 category limits, 9 recent expenses,
      10 closing, 11 anything else. */
  function Kind(line: string): (k: nat)
    ensures k <= 11
  {
    if line == Base then 0
    else if line == Header then 1
    else if StartsWith(line, IncomePrefix) then 2
    else if StartsWith(line, SpentPrefix) then 3
    else if StartsWith(line, BudgetPrefix) then 4
    else if StartsWith(line, RemainingPrefix) then 5
    else if StartsWith(line, PercentPrefix) then 6
    else if StartsWith(line, ByCategoryPrefix) then 7
    else if StartsWith(line, LimitsPrefix) then 8
    else if StartsWith(line, RecentPrefix) then 9
    else if line == Closing then 10
    else 11
  }

  lemma StartsWithConcat(p: string, s: string)
    ensures StartsWith(p + s, p)
  {
    assert (p + s)[..|p|] == p;
  }

  /** A text that opens with `q` does not open with a `p` that differs from
      `q` at position `i`. */
  lemma NotStartsWith(line: string, q: string, p: string, i: nat)
    requires StartsWith(line, q) && i < |p| && i < |q| && p[i] != q[i]
    ensures !StartsWith(line, p)
  {
    assert line[i] == line[..|q|][i];
  }

  /** Lines opening with a dash are none of the three fixed texts. */
  lemma DashLineNotFixed(line: string)
    requires |line| > 0 && line[0] == '-'
    ensures line != Base && line != Header && line != Closing
  {
    assert Base[0] == 'Y';
    assert Header[0] == '\n';
    assert Closing[0] == '\n';
  }

  lemma DashOpening(line: string, p: string)
    requires StartsWith(line, p) && |p| > 0 && p[0] == '-'
    ensures |line| > 0 && line[0] == '-'
  {
    assert line[0] == line[..|p|][0];
  }

  lemma KindOfFixed()
    ensures Kind(Base) == 0 && Kind(Header) == 1 && Kind(Closing) == 10
  {
    assert Base[0] == 'Y';
    assert Header[0] == '\n' && Header[1] == '\n';
    assert Closing[0] == '\n' && Closing[1] == 'R';
    NotDashOpening(Closing, IncomePrefix);
    NotDashOpening(Closing, SpentPrefix);
    NotDashOpening(Closing, BudgetPrefix);
    NotDashOpening(Closing, RemainingPrefix);
    NotDashOpening(Closing, PercentPrefix);
    NotDashOpening(Closing, ByCategoryPrefix);
    NotDashOpening(Closing, LimitsPrefix);
    NotDashOpening(Closing, RecentPrefix);
  }

  lemma NotDashOpening(line: string, p: string)
    requires |line| > 0 && line[0] != '-' && |p| > 0 && p[0] == '-'
    ensures !StartsWith(line, p)
  {
    if StartsWith(line, p) {
      DashOpening(line, p);
    }
  }

  /** The kind of each optional line is fixed by its opening. */
  lemma KindOfIncomeLine(line: string)
    requires StartsWith(line, IncomePrefix)
    ensures Kind(line) == 2
  {
    DashOpening(line, IncomePrefix);
    DashLineNotFixed(line);
  }

  lemma KindOfSpentLine(line: string)
    requires StartsWith(line, SpentPrefix)
    ensures Kind(line) == 3
  {
    DashOpening(line, SpentPrefix);
    DashLineNotFixed(line);
    NotStartsWith(line, SpentPrefix, IncomePrefix, 2);
  }

  lemma KindOfBudgetLine(line: string)
    requires StartsWith(line, BudgetPrefix)
    ensures Kind(line) == 4
  {
    DashOpening(line, BudgetPrefix);
    DashLineNotFixed(line);
    NotStartsWith(line, BudgetPrefix, IncomePrefix, 2);
    NotStartsWith(line, BudgetPrefix, SpentPrefix, 2);
  }

  lemma KindOfRemainingLine(line: string)
    requires StartsWith(line, RemainingPrefix)
    ensures Kind(line) == 5
  {
    DashOpening(line, RemainingPrefix);
    DashLineNotFixed(line);
    NotStartsWith(line, RemainingPrefix, IncomePrefix, 2);
    NotStartsWith(line, RemainingPrefix, SpentPrefix, 2);
    NotStartsWith(line, RemainingPrefix, BudgetPrefix, 2);
  }

  lemma KindOfPercentLine(line: string)
    requires StartsWith(line, PercentPrefix)
    ensures Kind(line) == 6
  {
    DashOpening(line, PercentPrefix);
    DashLineNotFixed(line);
    NotStartsWith(line, PercentPrefix, IncomePrefix, 2);
    NotStartsWith(line, PercentPrefix, SpentPrefix, 8);
    NotStartsWith(line, PercentPrefix, BudgetPrefix, 2);
    NotStartsWith(line, PercentPrefix, RemainingPrefix, 2);
  }

  lemma KindOfByCategoryLine(line: string)
    requires StartsWith(line, ByCategoryPrefix)
    ensures Kind(line) == 7
  {
    DashOpening(line, ByCategoryPrefix);
    DashLineNotFixed(line);
    NotStartsWith(line, ByCategoryPrefix, IncomePrefix, 2);
    NotStartsWith(line, ByCategoryPrefix, SpentPrefix, 6);
    NotStartsWith(line, ByCategoryPrefix, BudgetPrefix, 2);
    NotStartsWith(line, ByCategoryPrefix, RemainingPrefix, 2);
    NotStartsWith(line, ByCategoryPrefix, PercentPrefix, 6);
  }

  lemma KindOfLimitsLine(line: string)
    requires StartsWith(line, LimitsPrefix)
    ensures Kind(line) == 8
  {
    DashOpening(line, LimitsPrefix);
    DashLineNotFixed(line);
    NotStartsWith(line, LimitsPrefix, IncomePrefix, 2);
    NotStartsWith(line, LimitsPrefix, SpentPrefix, 2);
    NotStartsWith(line, LimitsPrefix, BudgetPrefix, 2);
    NotStartsWith(line, LimitsPrefix, RemainingPrefix, 2);
    NotStartsWith(line, LimitsPrefix, PercentPrefix, 2);
    NotStartsWith(line, LimitsPrefix, ByCategoryPrefix, 2);
  }

  lemma KindOfRecentLine(line: string)
    requires StartsWith(line, RecentPrefix)
    ensures Kind(line) == 9
  {
    DashOpening(line, RecentPrefix);
    DashLineNotFixed(line);
    NotStartsWith(line, RecentPrefix, IncomePrefix, 2);
    NotStartsWith(line, RecentPrefix, SpentPrefix, 2);
    NotStartsWith(line, RecentPrefix, BudgetPrefix, 2);
    NotStartsWith(line, RecentPrefix, RemainingPrefix, 4);
    NotStartsWith(line, RecentPrefix, PercentPrefix, 2);
    NotStartsWith(line, RecentPrefix, ByCategoryPrefix, 2);
    NotStartsWith(line, RecentPrefix, LimitsPrefix, 2);
  }

  /** Every text of `seg` is of kind `k`. */
  predicate AllOfKind(seg: seq<string>, k: nat) {
    forall i :: 0 <= i < |seg| ==> Kind(seg[i]) == k
  }

  /** Kinds strictly increase along `ps` and stay below `bound`. */
  predicate IncreasingBelow(ps: seq<string>, bound: nat) {
    (forall i, j :: 0 <= i < j < |ps| ==> Kind(ps[i]) < Kind(ps[j])) &&
    (forall i :: 0 <= i < |ps| ==> Kind(ps[i]) < bound)
  }

  lemma AppendSegment(ps: seq<string>, seg: seq<string>, k: nat)
    requires IncreasingBelow(ps, k) && |seg| <= 1 && AllOfKind(seg, k)
    ensures IncreasingBelow(ps + seg, k + 1)
  {
    var qs := ps + seg;
    forall i, j | 0 <= i < j < |qs| ensures Kind(qs[i]) < Kind(qs[j]) {
      if j >= |ps| {
        assert qs[j] == seg[j - |ps|];
        assert i < |ps| && qs[i] == ps[i];
      } else {
        assert qs[i] == ps[i] && qs[j] == ps[j];
      }
    }
    forall i | 0 <= i < |qs| ensures Kind(qs[i]) < k + 1 {
      if i >= |ps| {
        assert qs[i] == seg[i - |ps|];
      } else {
        assert qs[i] == ps[i];
      }
    }
  }

  /** What a part of each kind must be, given the context it was built from. */
  predicate IsPartOf(c: UserContext, line: string) {
    var k := Kind(line);
    if k == 2 then Get(c.incomeThisMonth).Some? && line == IncomeLine(Get(c.incomeThisMonth).value)
    else if k == 3 then Get(c.spentThisMonth).Some? && line == SpentLine(Get(c.spentThisMonth).value)
    else if k == 4 then ShownBudget(c).Some? && line == BudgetLine(ShownBudget(c).value)
    else if k == 5 then Get(c.remainingThisMonth).Some? && line == RemainingLine(Get(c.remainingThisMonth).value)
    else if k == 6 then Get(c.spentPercentageOfIncome).Some? && line == PercentLine(Get(c.spentPercentageOfIncome).value)
    else if k == 7 then MappingLine(ByCategoryPrefix, c.spentByCategory) == Ok([line])
    else if k == 8 then MappingLine(LimitsPrefix, c.categoryLimits) == Ok([line])
    else if k == 9 then RecentBlock(c.recentExpenses) == Ok([line])
    else k != 11
  }

  predicate AllPartsOf(c: UserContext, seg: seq<string>) {
    forall i :: 0 <= i < |seg| ==> IsPartOf(c, seg[i])
  }

  lemma AllPartsOfAppend(c: UserContext, a: seq<string>, b: seq<string>)
    requires AllPartsOf(c, a) && AllPartsOf(c, b)
    ensures AllPartsOf(c, a + b)
  {
    forall i | 0 <= i < |a + b| ensures IsPartOf(c, (a + b)[i]) {
      if i < |a| { assert (a + b)[i] == a[i]; } else { assert (a + b)[i] == b[i - |a|]; }
    }
  }

  lemma OptionalSegment(c: UserContext, v: Option<int>, line: int -> string, k: nat)
    requires v.Some? ==> Kind(line(v.value)) == k && IsPartOf(c, line(v.value))
    ensures AllOfKind(OptionalLine(v, line), k) && AllPartsOf(c, OptionalLine(v, line))
  {
  }

  lemma IncomeSegment(c: UserContext)
    ensures AllOfKind(OptionalLine(Get(c.incomeThisMonth), IncomeLine), 2)
    ensures AllPartsOf(c, OptionalLine(Get(c.incomeThisMonth), IncomeLine))
  {
    var v := Get(c.incomeThisMonth);
    if v.Some? {
      StartsWithConcat(IncomePrefix, Fmt2(v.value));
      KindOfIncomeLine(IncomeLine(v.value));
    }
    OptionalSegment(c, v, IncomeLine, 2);
  }

  lemma SpentSegment(c: UserContext)
    ensures AllOfKind(OptionalLine(Get(c.spentThisMonth), SpentLine), 3)
    ensures AllPartsOf(c, OptionalLine(Get(c.spentThisMonth), SpentLine))
  {
    var v := Get(c.spentThisMonth);
    if v.Some? {
      StartsWithConcat(SpentPrefix, Fmt2(v.value));
      KindOfSpentLine(SpentLine(v.value));
    }
    OptionalSegment(c, v, SpentLine, 3);
  }

  lemma BudgetSegment(c: UserContext)
    ensures AllOfKind(OptionalLine(ShownBudget(c), BudgetLine), 4)
    ensures AllPartsOf(c, OptionalLine(ShownBudget(c), BudgetLine))
  {
    var v := ShownBudget(c);
    if v.Some? {
      StartsWithConcat(BudgetPrefix, Fmt2(v.value));
      KindOfBudgetLine(BudgetLine(v.value));
    }
    OptionalSegment(c, v, BudgetLine, 4);
  }

  lemma RemainingSegment(c: UserContext)
    ensures AllOfKind(OptionalLine(Get(c.remainingThisMonth), RemainingLine), 5)
    ensures AllPartsOf(c, OptionalLine(Get(c.remainingThisMonth), RemainingLine))
  {
    var v := Get(c.remainingThisMonth);
    if v.Some? {
      StartsWithConcat(RemainingPrefix, Fmt2(v.value));
      KindOfRemainingLine(RemainingLine(v.value));
    }
    OptionalSegment(c, v, RemainingLine, 5);
  }

  lemma PercentSegment(c: UserContext)
    ensures AllOfKind(OptionalLine(Get(c.spentPercentageOfIncome), PercentLine), 6)
    ensures AllPartsOf(c, OptionalLine(Get(c.spentPercentageOfIncome), PercentLine))
  {
    var v := Get(c.spentPercentageOfIncome);
    if v.Some? {
      var line := PercentLine(v.value);
      assert line == PercentPrefix + (Fmt1(v.value) + "%");
      StartsWithConcat(PercentPrefix, Fmt1(v.value) + "%");
      KindOfPercentLine(line);
    }
    OptionalSegment(c, v, PercentLine, 6);
  }

  lemma MappingSegment(prefix: string, f: Field<Mapping>, seg: seq<string>)
    requires MappingLine(prefix, f) == Ok(seg)
    ensures |seg| <= 1 && forall i :: 0 <= i < |seg| ==> StartsWith(seg[i], prefix)
    ensures |seg| == 1 <==> HasItems(f)
  {
    if HasItems(f) {
      var ts := EntryTexts(Get(f).value).value;
      StartsWithConcat(prefix, Join(ts, ", "));
    }
  }

  lemma ByCategorySegment(c: UserContext, seg: seq<string>)
    requires MappingLine(ByCategoryPrefix, c.spentByCategory) == Ok(seg)
    ensures |seg| <= 1 && AllOfKind(seg, 7) && AllPartsOf(c, seg)
    ensures |seg| == 1 <==> HasItems(c.spentByCategory)
  {
    MappingSegment(ByCategoryPrefix, c.spentByCategory, seg);
    if |seg| == 1 {
      KindOfByCategoryLine(seg[0]);
      assert IsPartOf(c, seg[0]);
    }
  }

  lemma LimitsSegment(c: UserContext, seg: seq<string>)
    requires MappingLine(LimitsPrefix, c.categoryLimits) == Ok(seg)
    ensures |seg| <= 1 && AllOfKind(seg, 8) && AllPartsOf(c, seg)
    ensures |seg| == 1 <==> HasItems(c.categoryLimits)
  {
    MappingSegment(LimitsPrefix, c.categoryLimits, seg);
    if |seg| == 1 {
      KindOfLimitsLine(seg[0]);
      assert IsPartOf(c, seg[0]);
    }
  }

  lemma RecentSegment(c: UserContext, seg: seq<string>)
    requires RecentBlock(c.recentExpenses) == Ok(seg)
    ensures |seg| <= 1 && AllOfKind(seg, 9) && AllPartsOf(c, seg)
    ensures |seg| == 1 <==> HasExpenses(c.recentExpenses)
  {
    if HasExpenses(c.recentExpenses) {
      var ls := ExpenseTexts(FirstRecent(Get(c.recentExpenses).value)).value;
      StartsWithConcat(RecentPrefix, Join(ls, "\n"));
      KindOfRecentLine(seg[0]);
      assert IsPartOf(c, seg[0]);
    }
  }

  /** The scalar segments of PromptParts, by name. */
  function Segments(c: UserContext): seq<seq<string>> {
    [OptionalLine(Get(c.incomeThisMonth), IncomeLine),
     OptionalLine(Get(c.spentThisMonth), SpentLine),
     OptionalLine(ShownBudget(c), BudgetLine),
     OptionalLine(Get(c.remainingThisMonth), RemainingLine),
     OptionalLine(Get(c.spentPercentageOfIncome), PercentLine)]
  }

  lemma PartsShape(c: UserContext, ps: seq<string>)
    requires PromptParts(c) == Ok(ps)
    ensures var sg := Segments(c);
      ps == [Base, Header] + sg[0] + sg[1] + sg[2] + sg[3] + sg[4]
            + MappingLine(ByCategoryPrefix, c.spentByCategory).value
            + MappingLine(LimitsPrefix, c.categoryLimits).value
            + RecentBlock(c.recentExpenses).value + [Closing]
  {
  }

  /** The parts of the prompt: base first, header second, closing last, and in
      between lines whose kinds strictly increase, so that they come in the
      fixed order and each at most once. */
  lemma PartsFrame(c: UserContext, ps: seq<string>)
    requires PromptParts(c) == Ok(ps)
    ensures |ps| >= 3 && ps[0] == Base && ps[1] == Header && ps[|ps| - 1] == Closing
  {
    PartsShape(c, ps);
    var sg := Segments(c);
    FrameOfSegments(ps, Base, Header, Closing, sg[0], sg[1], sg[2], sg[3], sg[4],
                    MappingLine(ByCategoryPrefix, c.spentByCategory).value,
                    MappingLine(LimitsPrefix, c.categoryLimits).value,
                    RecentBlock(c.recentExpenses).value);
  }

  /** Two fixed parts, eight segments and a fixed last part: where the fixed
      parts are, and that every text of a segment is among the parts. */
  lemma FrameOfSegments(ps: seq<string>, first: string, second: string, last: string,
                        s2: seq<string>, s3: seq<string>, s4: seq<string>, s5: seq<string>,
                        s6: seq<string>, s7: seq<string>, s8: seq<string>, s9: seq<string>)
    requires ps == [first, second] + s2 + s3 + s4 + s5 + s6 + s7 + s8 + s9 + [last]
    ensures |ps| >= 3 && ps[0] == first && ps[1] == second && ps[|ps| - 1] == last
    ensures forall x :: x in s2 ==> x in ps
    ensures forall x :: x in s3 ==> x in ps
    ensures forall x :: x in s4 ==> x in ps
    ensures forall x :: x in s5 ==> x in ps
    ensures forall x :: x in s6 ==> x in ps
    ensures forall x :: x in s7 ==> x in ps
    ensures forall x :: x in s8 ==> x in ps
    ensures forall x :: x in s9 ==> x in ps
  {
  }

  /** Every scalar line the context calls for is among the parts. */
  lemma ScalarLinesPresent(c: UserContext, ps: seq<string>)
    requires PromptParts(c) == Ok(ps)
    ensures forall x :: x in OptionalLine(Get(c.incomeThisMonth), IncomeLine) ==> x in ps
    ensures forall x :: x in OptionalLine(Get(c.spentThisMonth), SpentLine) ==> x in ps
    ensures forall x :: x in OptionalLine(ShownBudget(c), BudgetLine) ==> x in ps
    ensures forall x :: x in OptionalLine(Get(c.remainingThisMonth), RemainingLine) ==> x in ps
    ensures forall x :: x in OptionalLine(Get(c.spentPercentageOfIncome), PercentLine) ==> x in ps
  {
    PartsShape(c, ps);
    var sg := Segments(c);
    FrameOfSegments(ps, Base, Header, Closing, sg[0], sg[1], sg[2], sg[3], sg[4],
                    MappingLine(ByCategoryPrefix, c.spentByCategory).value,
                    MappingLine(LimitsPrefix, c.categoryLimits).value,
                    RecentBlock(c.recentExpenses).value);
  }

  lemma PartsInOrder(c: UserContext, ps: seq<string>)
    requires PromptParts(c) == Ok(ps)
    ensures forall i, j :: 0 <= i < j < |ps| ==> Kind(ps[i]) < Kind(ps[j])
  {
    var byCategory := MappingLine(ByCategoryPrefix, c.spentByCategory).value;
    var limits := MappingLine(LimitsPrefix, c.categoryLimits).value;
    var recent := RecentBlock(c.recentExpenses).value;
    var sg := Segments(c);
    PartsShape(c, ps);
    IncomeSegment(c);
    SpentSegment(c);
    BudgetSegment(c);
    RemainingSegment(c);
    PercentSegment(c);
    ByCategorySegment(c, byCategory);
    LimitsSegment(c, limits);
    RecentSegment(c, recent);
    OrderOfSegments(ps, sg[0], sg[1], sg[2], sg[3], sg[4], byCategory, limits, recent);
  }

  lemma OrderOfSegments(ps: seq<string>, s2: seq<string>, s3: seq<string>, s4: seq<string>,
                        s5: seq<string>, s6: seq<string>, s7: seq<string>, s8: seq<string>,
                        s9: seq<string>)
    requires |s2| <= 1 && AllOfKind(s2, 2) && |s3| <= 1 && AllOfKind(s3, 3)
    requires |s4| <= 1 && AllOfKind(s4, 4) && |s5| <= 1 && AllOfKind(s5, 5)
    requires |s6| <= 1 && AllOfKind(s6, 6) && |s7| <= 1 && AllOfKind(s7, 7)
    requires |s8| <= 1 && AllOfKind(s8, 8) && |s9| <= 1 && AllOfKind(s9, 9)
    requires ps == [Base, Header] + s2 + s3 + s4 + s5 + s6 + s7 + s8 + s9 + [Closing]
    ensures forall i, j :: 0 <= i < j < |ps| ==> Kind(ps[i]) < Kind(ps[j])
  {
    KindOfFixed();
    var acc := [Base, Header];
    assert IncreasingBelow(acc, 2);
    AppendSegment(acc, s2, 2); acc := acc + s2;
    AppendSegment(acc, s3, 3); acc := acc + s3;
    AppendSegment(acc, s4, 4); acc := acc + s4;
    AppendSegment(acc, s5, 5); acc := acc + s5;
    AppendSegment(acc, s6, 6); acc := acc + s6;
    AppendSegment(acc, s7, 7); acc := acc + s7;
    AppendSegment(acc, s8, 8); acc := acc + s8;
    AppendSegment(acc, s9, 9); acc := acc + s9;
    AppendSegment(acc, [Closing], 10); acc := acc + [Closing];
    assert acc == ps;
  }

  /** Every part is the line its kind calls for in the given context. */
  lemma PartsMatchContext(c: UserContext, ps: seq<string>)
    requires PromptParts(c) == Ok(ps)
    ensures forall i :: 0 <= i < |ps| ==> IsPartOf(c, ps[i])
  {
    var byCategory := MappingLine(ByCategoryPrefix, c.spentByCategory).value;
    var limits := MappingLine(LimitsPrefix, c.categoryLimits).value;
    var recent := RecentBlock(c.recentExpenses).value;
    var sg := Segments(c);
    PartsShape(c, ps);
    KindOfFixed();
    IncomeSegment(c);
    SpentSegment(c);
    BudgetSegment(c);
    RemainingSegment(c);
    PercentSegment(c);
    ByCategorySegment(c, byCategory);
    LimitsSegment(c, limits);
    RecentSegment(c, recent);
    var parts := [Base, Header];
    assert AllPartsOf(c, parts);
    AllPartsOfAppend(c, parts, sg[0]); parts := parts + sg[0];
    AllPartsOfAppend(c, parts, sg[1]); parts := parts + sg[1];
    AllPartsOfAppend(c, parts, sg[2]); parts := parts + sg[2];
    AllPartsOfAppend(c, parts, sg[3]); parts := parts + sg[3];
    AllPartsOfAppend(c, parts, sg[4]); parts := parts + sg[4];
    AllPartsOfAppend(c, parts, byCategory); parts := parts + byCategory;
    AllPartsOfAppend(c, parts, limits); parts := parts + limits;
    AllPartsOfAppend(c, parts, recent); parts := parts + recent;
    AllPartsOfAppend(c, parts, [Closing]); parts := parts + [Closing];
    assert parts == ps;
  }

  lemma PrefixCancel(p: string, a: string, b: string)
    requires p + a == p + b
    ensures a == b
  {
    assert a == (p + a)[|p|..];
    assert b == (p + b)[|p|..];
  }

  lemma SuffixCancel(a: string, b: string, q: string)
    requires a + q == b + q
    ensures a == b
  {
    assert a == (a + q)[..|a|];
    assert b == (b + q)[..|b|];
  }

  /** The income line is in the prompt exactly when the context holds an
      income, and shows that income. */
  lemma IncomeLineExact(c: UserContext, ps: seq<string>)
    requires PromptParts(c) == Ok(ps)
    ensures forall v :: IncomeLine(v) in ps <==> Get(c.incomeThisMonth) == Some(v)
  {
    ScalarLinesPresent(c, ps);
    PartsMatchContext(c, ps);
    forall v ensures IncomeLine(v) in ps <==> Get(c.incomeThisMonth) == Some(v) {
      if IncomeLine(v) in ps {
        StartsWithConcat(IncomePrefix, Fmt2(v));
        KindOfIncomeLine(IncomeLine(v));
        var i :| 0 <= i < |ps| && ps[i] == IncomeLine(v);
        assert IsPartOf(c, ps[i]);
        var w := Get(c.incomeThisMonth).value;
        PrefixCancel(IncomePrefix, Fmt2(v), Fmt2(w));
        FormatFixedInjective(v, w, 2);
      }
    }
  }

  lemma SpentLineExact(c: UserContext, ps: seq<string>)
    requires PromptParts(c) == Ok(ps)
    ensures forall v :: SpentLine(v) in ps <==> Get(c.spentThisMonth) == Some(v)
  {
    ScalarLinesPresent(c, ps);
    PartsMatchContext(c, ps);
    forall v ensures SpentLine(v) in ps <==> Get(c.spentThisMonth) == Some(v) {
      if SpentLine(v) in ps {
        StartsWithConcat(SpentPrefix, Fmt2(v));
        KindOfSpentLine(SpentLine(v));
        var i :| 0 <= i < |ps| && ps[i] == SpentLine(v);
        assert IsPartOf(c, ps[i]);
        var w := Get(c.spentThisMonth).value;
        PrefixCancel(SpentPrefix, Fmt2(v), Fmt2(w));
        FormatFixedInjective(v, w, 2);
      }
    }
  }

  /** The budget line is in the prompt exactly when the context holds a
      budget above zero, and shows that budget. */
  lemma BudgetLineExact(c: UserContext, ps: seq<string>)
    requires PromptParts(c) == Ok(ps)
    ensures forall v :: BudgetLine(v) in ps <==> Get(c.monthlyBudget) == Some(v) && v > 0
  {
    ScalarLinesPresent(c, ps);
    PartsMatchContext(c, ps);
    forall v ensures BudgetLine(v) in ps <==> Get(c.monthlyBudget) == Some(v) && v > 0 {
      if BudgetLine(v) in ps {
        StartsWithConcat(BudgetPrefix, Fmt2(v));
        KindOfBudgetLine(BudgetLine(v));
        var i :| 0 <= i < |ps| && ps[i] == BudgetLine(v);
        assert IsPartOf(c, ps[i]);
        var w := ShownBudget(c).value;
        PrefixCancel(BudgetPrefix, Fmt2(v), Fmt2(w));
        FormatFixedInjective(v, w, 2);
      }
    }
  }

  lemma RemainingLineExact(c: UserContext, ps: seq<string>)
    requires PromptParts(c) == Ok(ps)
    ensures forall v :: RemainingLine(v) in ps <==> Get(c.remainingThisMonth) == Some(v)
  {
    ScalarLinesPresent(c, ps);
    PartsMatchContext(c, ps);
    forall v ensures RemainingLine(v) in ps <==> Get(c.remainingThisMonth) == Some(v) {
      if RemainingLine(v) in ps {
        StartsWithConcat(RemainingPrefix, Fmt2(v));
        KindOfRemainingLine(RemainingLine(v));
        var i :| 0 <= i < |ps| && ps[i] == RemainingLine(v);
        assert IsPartOf(c, ps[i]);
        var w := Get(c.remainingThisMonth).value;
        PrefixCancel(RemainingPrefix, Fmt2(v), Fmt2(w));
        FormatFixedInjective(v, w, 2);
      }
    }
  }

  lemma PercentLineExact(c: UserContext, ps: seq<string>)
    requires PromptParts(c) == Ok(ps)
    ensures forall v :: PercentLine(v) in ps <==> Get(c.spentPercentageOfIncome) == Some(v)
  {
    ScalarLinesPresent(c, ps);
    PartsMatchContext(c, ps);
    forall v ensures PercentLine(v) in ps <==> Get(c.spentPercentageOfIncome) == Some(v) {
      if PercentLine(v) in ps {
        assert PercentLine(v) == PercentPrefix + (Fmt1(v) + "%");
        StartsWithConcat(PercentPrefix, Fmt1(v) + "%");
        KindOfPercentLine(PercentLine(v));
        var i :| 0 <= i < |ps| && ps[i] == PercentLine(v);
        assert IsPartOf(c, ps[i]);
        PercentLineInjective(v, Get(c.spentPercentageOfIncome).value);
      }
    }
  }

  lemma PercentLineInjective(v: Tenths, w: Tenths)
    requires PercentLine(v) == PercentLine(w)
    ensures v == w
  {
    assert PercentLine(v) == PercentPrefix + (Fmt1(v) + "%");
    assert PercentLine(w) == PercentPrefix + (Fmt1(w) + "%");
    PrefixCancel(PercentPrefix, Fmt1(v) + "%", Fmt1(w) + "%");
    SuffixCancel(Fmt1(v), Fmt1(w), "%");
    FormatFixedInjective(v, w, 1);
  }

  /** The category-spending line is in the prompt exactly when the mapping has
      items, and it is the prefix and every entry "name: amount" in item order,
      joined by ", ". */
  lemma ByCategoryLineExact(c: UserContext, ps: seq<string>)
    requires PromptParts(c) == Ok(ps)
    ensures (exists i :: 0 <= i < |ps| && StartsWith(ps[i], ByCategoryPrefix))
            <==> HasItems(c.spentByCategory)
    ensures forall i :: 0 <= i < |ps| && StartsWith(ps[i], ByCategoryPrefix) ==>
              HasItems(c.spentByCategory) && EntryTexts(Get(c.spentByCategory).value).Ok? &&
              ps[i] == ByCategoryPrefix + Join(EntryTexts(Get(c.spentByCategory).value).value, ", ")
  {
    PartsShape(c, ps);
    PartsMatchContext(c, ps);
    var seg := MappingLine(ByCategoryPrefix, c.spentByCategory).value;
    ByCategorySegment(c, seg);
    if HasItems(c.spentByCategory) {
      MappingSegment(ByCategoryPrefix, c.spentByCategory, seg);
      assert seg[0] in ps;
    }
    forall i | 0 <= i < |ps| && StartsWith(ps[i], ByCategoryPrefix)
      ensures HasItems(c.spentByCategory) && EntryTexts(Get(c.spentByCategory).value).Ok? &&
              ps[i] == ByCategoryPrefix + Join(EntryTexts(Get(c.spentByCategory).value).value, ", ")
    {
      KindOfByCategoryLine(ps[i]);
    }
  }

  /** The category-limits line, in the same way. */
  lemma LimitsLineExact(c: UserContext, ps: seq<string>)
    requires PromptParts(c) == Ok(ps)
    ensures (exists i :: 0 <= i < |ps| && StartsWith(ps[i], LimitsPrefix))
            <==> HasItems(c.categoryLimits)
    ensures forall i :: 0 <= i < |ps| && StartsWith(ps[i], LimitsPrefix) ==>
              HasItems(c.categoryLimits) && EntryTexts(Get(c.categoryLimits).value).Ok? &&
              ps[i] == LimitsPrefix + Join(EntryTexts(Get(c.categoryLimits).value).value, ", ")
  {
    PartsShape(c, ps);
    PartsMatchContext(c, ps);
    var seg := MappingLine(LimitsPrefix, c.categoryLimits).value;
    LimitsSegment(c, seg);
    if HasItems(c.categoryLimits) {
      MappingSegment(LimitsPrefix, c.categoryLimits, seg);
      assert seg[0] in ps;
    }
    forall i | 0 <= i < |ps| && StartsWith(ps[i], LimitsPrefix)
      ensures HasItems(c.categoryLimits) && EntryTexts(Get(c.categoryLimits).value).Ok? &&
              ps[i] == LimitsPrefix + Join(EntryTexts(Get(c.categoryLimits).value).value, ", ")
    {
      LimitsPartIsLine(c, ps[i]);
    }
  }

  /** A part opening with the limits heading is the whole limits line. */
  lemma LimitsPartIsLine(c: UserContext, line: string)
    requires IsPartOf(c, line) && StartsWith(line, LimitsPrefix)
    ensures HasItems(c.categoryLimits) && EntryTexts(Get(c.categoryLimits).value).Ok? &&
            line == LimitsPrefix + Join(EntryTexts(Get(c.categoryLimits).value).value, ", ")
  {
    KindOfLimitsLine(line);
  }

  /** The recent-expenses block is in the prompt exactly when the list is
      non-empty, and it is the heading and the lines of the first five
      expenses (FirstRecent) in list order, joined by newlines. */
  lemma RecentBlockExact(c: UserContext, ps: seq<string>)
    requires PromptParts(c) == Ok(ps)
    ensures (exists i :: 0 <= i < |ps| && StartsWith(ps[i], RecentPrefix))
            <==> HasExpenses(c.recentExpenses)
    ensures forall i :: 0 <= i < |ps| && StartsWith(ps[i], RecentPrefix) ==>
              HasExpenses(c.recentExpenses) &&
              ExpenseTexts(FirstRecent(Get(c.recentExpenses).value)).Ok? &&
              ps[i] == RecentPrefix + Join(ExpenseTexts(FirstRecent(Get(c.recentExpenses).value)).value, "\n")
  {
    PartsShape(c, ps);
    PartsMatchContext(c, ps);
    var seg := RecentBlock(c.recentExpenses).value;
    RecentSegment(c, seg);
    if HasExpenses(c.recentExpenses) {
      var ls := ExpenseTexts(FirstRecent(Get(c.recentExpenses).value)).value;
      StartsWithConcat(RecentPrefix, Join(ls, "\n"));
      assert seg[0] in ps;
    }
    forall i | 0 <= i < |ps| && StartsWith(ps[i], RecentPrefix)
      ensures HasExpenses(c.recentExpenses) &&
              ExpenseTexts(FirstRecent(Get(c.recentExpenses).value)).Ok? &&
              ps[i] == RecentPrefix + Join(ExpenseTexts(FirstRecent(Get(c.recentExpenses).value)).value, "\n")
    {
      RecentPartIsBlock(c, ps[i]);
    }
  }

  /** A part opening with the recent-expenses heading is the whole block. */
  lemma RecentPartIsBlock(c: UserContext, line: string)
    requires IsPartOf(c, line) && StartsWith(line, RecentPrefix)
    ensures HasExpenses(c.recentExpenses) &&
            ExpenseTexts(FirstRecent(Get(c.recentExpenses).value)).Ok? &&
            line == RecentPrefix + Join(ExpenseTexts(FirstRecent(Get(c.recentExpenses).value)).value, "\n")
  {
    KindOfRecentLine(line);
  }

  /** The mapping has an item whose value is null. */
  predicate NullValueIn(f: Field<Mapping>) {
    Get(f).Some? && exists i :: 0 <= i < |Get(f).value| && Get(f).value[i].1.None?
  }

  /** One of the expenses the prompt shows has a null amount. */
  predicate NullAmountShown(f: Field<seq<Expense>>) {
    Get(f).Some? &&
    exists i :: 0 <= i < |FirstRecent(Get(f).value)| && FirstRecent(Get(f).value)[i].amount == Null
  }

  /** An expense line raises exactly when its amount is null; an absent
      amount prints as 0.00 instead. */
  lemma ExpenseTextRaises(e: Expense)
    ensures ExpenseText(e).Raised? <==> e.amount == Null
    ensures e.amount == Missing ==> ExpenseText(e) == ExpenseText(e.(amount := Given(0)))
  {
  }

  /** An absent category prints as "?" and an absent date as empty text. */
  lemma ExpenseTextDefaults(e: Expense)
    ensures e.category == Missing ==> ExpenseText(e) == ExpenseText(e.(category := Given("?")))
    ensures e.date == Missing ==> ExpenseText(e) == ExpenseText(e.(date := Given("")))
  {
  }

  /** A note is appended after " — " exactly when it is a non-empty text; an
      absent, null or empty note leaves the line as it would be without one. */
  lemma ExpenseTextNote(e: Expense)
    ensures ExpenseText(e).Ok? ==>
              ExpenseText(e).value ==
                ExpenseText(e.(note := Missing)).value + (if HasNote(e) then " — " + e.note.value else "")
    ensures HasNote(e) <==> e.note.Given? && e.note.value != ""
  {
  }

  /** A null category or date prints as Python's "None". */
  lemma ExpenseTextNullTexts(e: Expense)
    ensures e.category == Null ==> ExpenseText(e) == ExpenseText(e.(category := Given("None")))
    ensures e.date == Null ==> ExpenseText(e) == ExpenseText(e.(date := Given("None")))
  {
  }

  lemma ExpenseTextsRaise(es: seq<Expense>)
    ensures ExpenseTexts(es).Raised? <==> exists i :: 0 <= i < |es| && es[i].amount == Null
  {
    forall i | 0 <= i < |es| ensures ExpenseText(es[i]).Raised? <==> es[i].amount == Null {
      ExpenseTextRaises(es[i]);
    }
  }

  /** Building the prompt raises exactly when a non-empty mapping holds a null
      value or one of the (at most five) shown expenses has a null amount;
      nulls among the one-number keys only drop their line. */
  lemma PromptRaisesExactly(c: UserContext)
    ensures PromptParts(c).Raised? <==>
              NullValueIn(c.spentByCategory) || NullValueIn(c.categoryLimits) ||
              NullAmountShown(c.recentExpenses)
  {
    MappingRaisesExactly(ByCategoryPrefix, c.spentByCategory);
    MappingRaisesExactly(LimitsPrefix, c.categoryLimits);
    RecentRaisesExactly(c.recentExpenses);
  }

  /** A mapping line raises exactly when the mapping holds a null value. */
  lemma MappingRaisesExactly(prefix: string, f: Field<Mapping>)
    ensures MappingLine(prefix, f).Raised? <==> NullValueIn(f)
  {
  }

  /** The recent block raises exactly when a shown expense has a null amount. */
  lemma RecentRaisesExactly(f: Field<seq<Expense>>)
    ensures RecentBlock(f).Raised? <==> NullAmountShown(f)
  {
    if Get(f).Some? {
      ExpenseTextsRaise(FirstRecent(Get(f).value));
      if Get(f).value == [] {
        assert FirstRecent(Get(f).value) == [];
      }
    }
  }

  /** Joined parts are longer than the first part when there are more parts. */
  lemma JoinLonger(ps: seq<string>)
    requires |ps| >= 2
    ensures |Join(ps, "\n")| > |ps[0]|
  {
    JoinEnds(ps, "\n");
  }

  /** The prompt is the base text alone exactly when there is no context to
      show (absent, null or an empty object); a non-empty context always adds
      at least the header and the closing sentence. */
  lemma BaseOnlyIffFalsy(uc: Option<UserContext>)
    ensures SystemPrompt(uc) == Ok(Base) <==> IsFalsy(uc)
  {
    if !IsFalsy(uc) && PromptParts(uc.value).Ok? {
      var ps := PromptParts(uc.value).value;
      PartsFrame(uc.value, ps);
      JoinLonger(ps);
    }
  }

  /** A prompt built from a non-empty context starts with the base text, a
      newline and the header, and ends with a newline and the closing sentence. */
  lemma PromptFrame(uc: Option<UserContext>, s: string)
    requires !IsFalsy(uc) && SystemPrompt(uc) == Ok(s)
    ensures StartsWith(s, Base + "\n" + Header)
    ensures EndsWith(s, "\n" + Closing)
  {
    var ps := PromptParts(uc.value).value;
    PartsFrame(uc.value, ps);
    JoinFrame(ps, "\n");
  }

  /** Joining three or more parts: the first two parts and the separator
      between them open the text, the separator and the last part close it. */
  lemma JoinFrame(ps: seq<string>, sep: string)
    requires |ps| >= 3
    ensures StartsWith(Join(ps, sep), ps[0] + sep + ps[1])
    ensures EndsWith(Join(ps, sep), sep + ps[|ps| - 1])
  {
    JoinOpening(ps, sep);
    JoinClosing(ps, sep);
  }

  lemma JoinOpening(ps: seq<string>, sep: string)
    requires |ps| >= 3
    ensures StartsWith(Join(ps, sep), ps[0] + sep + ps[1])
  {
    var tail := ps[1..];
    JoinEnds(ps, sep);
    JoinEnds(tail, sep);
    var rest := Join(tail[1..], sep);
    assert Join(ps, sep) == (ps[0] + sep + ps[1]) + (sep + rest);
    StartsWithConcat(ps[0] + sep + ps[1], sep + rest);
  }

  lemma JoinClosing(ps: seq<string>, sep: string)
    requires |ps| >= 2
    ensures EndsWith(Join(ps, sep), sep + ps[|ps| - 1])
  {
    var init, last := ps[..|ps| - 1], ps[|ps| - 1];
    assert init + [last] == ps;
    JoinSnoc(init, sep, last);
    EndsWithConcat(Join(init, sep), sep, last);
  }

  lemma EndsWithConcat(a: string, b: string, c: string)
    ensures EndsWith(a + b + c, b + c)
  {
    assert a + b + c == a + (b + c);
    assert (a + (b + c))[|a|..] == b + c;
  }

  /** Nothing in the context produces a line. */
  predicate NothingToShow(c: UserContext) {
    Get(c.incomeThisMonth).None? && Get(c.spentThisMonth).None? && ShownBudget(c).None? &&
    Get(c.remainingThisMonth).None? && Get(c.spentPercentageOfIncome).None? &&
    !HasItems(c.spentByCategory) && !HasItems(c.categoryLimits) && !HasExpenses(c.recentExpenses)
  }

  /** A context whose keys all yield nothing (null, zero budget, empty
      mappings, other keys only) gives exactly base, header and closing. */
  lemma BareContext(c: UserContext)
    ensures PromptParts(c) == Ok([Base, Header, Closing]) <==> NothingToShow(c)
  {
    if PromptParts(c) == Ok([Base, Header, Closing]) {
      var ps := [Base, Header, Closing];
      PartsShape(c, ps);
      var byCategory := MappingLine(ByCategoryPrefix, c.spentByCategory).value;
      var limits := MappingLine(LimitsPrefix, c.categoryLimits).value;
      var recent := RecentBlock(c.recentExpenses).value;
      ByCategorySegment(c, byCategory);
      LimitsSegment(c, limits);
      RecentSegment(c, recent);
      var s2 := OptionalLine(Get(c.incomeThisMonth), IncomeLine);
      var s3 := OptionalLine(Get(c.spentThisMonth), SpentLine);
      var s4 := OptionalLine(ShownBudget(c), BudgetLine);
      var s5 := OptionalLine(Get(c.remainingThisMonth), RemainingLine);
      var s6 := OptionalLine(Get(c.spentPercentageOfIncome), PercentLine);
      assert |ps| == 3 + |s2| + |s3| + |s4| + |s5| + |s6| + |byCategory| + |limits| + |recent|;
      assert s2 == [] && s3 == [] && s4 == [] && s5 == [] && s6 == [];
    }
    if NothingToShow(c) {
      var ps := [Base, Header] + [] + [] + [] + [] + [] + [] + [] + [] + [Closing];
      assert ps == [Base, Header, Closing];
    }
  }

  /** The whole prompt for a non-empty context with nothing to show. */
  lemma BarePrompt(uc: Option<UserContext>)
    requires !IsFalsy(uc) && NothingToShow(uc.value)
    ensures SystemPrompt(uc) == Ok(Base + "\n" + Header + "\n" + Closing)
  {
    BareContext(uc.value);
    var ps := [Base, Header, Closing];
    JoinEnds(ps, "\n");
    assert ps[1..] == [Header, Closing];
    JoinEnds(ps[1..], "\n");
    assert ps[1..][1..] == [Closing];
  }
}
