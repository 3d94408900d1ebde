/** The budget report service: spending, income, category, trend and
    comparison reports over one user's budgets and transactions in a date
    range. Averages are floor divisions of cent totals; percentages are
    exact ratios here (the service rounds them to two places). */
module BudgetReports {
  import opened Common
  import opened Calendar
  import opened Sorting
  import opened BudgetDb

  /** The first of each day lies in the range, both ends included. */
  predicate InRange(d: Date, start: Date, end: Date)
  {
    DateLe(start, d) && DateLe(d, end)
  }

  /** `total // count if count > 0 else 0`: Python's floor division, which
      for a positive count is also Dafny's. */
  function FloorMean(total: int, count: nat): (r: int)
    ensures count > 0 ==> r * count <= total < r * count + count
    ensures count == 0 ==> r == 0
  {
    if count > 0 then total / count else 0
  }

  /** A part as a percentage of a whole, 0 when the whole is not positive. */
  function Percentage(part: int, whole: int): real
  {
    if whole > 0 then part as real / whole as real * 100.0 else 0.0
  }

  /** The percentage times the whole is a hundred times the part; it is at
      most 100 exactly when the part is at most the whole. */
  lemma PercentageSound(part: int, whole: int)
    ensures whole > 0 ==> Percentage(part, whole) * whole as real == part as real * 100.0
    ensures whole > 0 ==> (Percentage(part, whole) <= 100.0 <==> part <= whole)
    ensures whole <= 0 ==> Percentage(part, whole) == 0.0
  {
    if whole > 0 {
      var r := Percentage(part, whole);
      var w := whole as real;
      assert r * w == part as real * 100.0;
      if r <= 100.0 {
        assert r * w <= 100.0 * w;
      } else {
        assert r * w > 100.0 * w;
      }
    }
  }

  function AmountOf(t: Transaction): int { t.amountCents }
  function IncomeOf(b: Budget): int { b.incomeCents }

  // ---------------------------------------------------------------------
  // Spending report

  /** The request's filters; a missing or empty list and a missing or zero
      amount are no filter, as Python's `if` reads them. */
  datatype ReportFilters = ReportFilters(
    budgetIds: seq<int>, categoryIds: seq<int>, minAmountCents: int, maxAmountCents: int)

  /** The transactions the spending totals are taken over. A split
      transaction has no category, so a category filter drops it. */
  predicate SpendingListed(t: Transaction, userId: int, start: Date, end: Date, filters: Option<ReportFilters>)
  {
    t.userId == userId && InRange(t.date, start, end)
    && (filters.Some? ==>
          var f := filters.value;
          (f.budgetIds == [] || t.budgetId in f.budgetIds)
          && (f.categoryIds == [] || (t.categoryId.Some? && t.categoryId.value in f.categoryIds))
          && (f.minAmountCents == 0 || t.amountCents >= f.minAmountCents)
          && (f.maxAmountCents == 0 || t.amountCents <= f.maxAmountCents))
  }

  function SpendingListedOf(userId: int, start: Date, end: Date, filters: Option<ReportFilters>): Transaction -> bool
  {
    (t: Transaction) => SpendingListed(t, userId, start, end, filters)
  }

  /** The transactions joined to a category for the per-category lines:
      only the budget filter applies here, not the category or amount
      filters. */
  predicate CategoryJoined(t: Transaction, categoryId: int, userId: int, start: Date, end: Date,
                           filters: Option<ReportFilters>)
  {
    t.categoryId == Some(categoryId) && t.userId == userId && InRange(t.date, start, end)
    && (filters.Some? && filters.value.budgetIds != [] ==> t.budgetId in filters.value.budgetIds)
  }

  function CategoryJoinedOf(categoryId: int, userId: int, start: Date, end: Date, filters: Option<ReportFilters>)
    : Transaction -> bool
  {
    (t: Transaction) => CategoryJoined(t, categoryId, userId, start, end, filters)
  }

  datatype CategorySpending = CategorySpending(
    categoryId: int, categoryName: string, totalSpentCents: int, transactionCount: nat, percentage: real)

  /** The per-category line of one category, its share taken of the
      report's total. */
  function SpendingLine(c: BudgetCategory, txs: seq<Transaction>, userId: int, start: Date, end: Date,
                        filters: Option<ReportFilters>, totalSpent: int): (r: CategorySpending)
    ensures r.categoryId == c.id && r.categoryName == c.name
    ensures r.transactionCount == |Filter(txs, CategoryJoinedOf(c.id, userId, start, end, filters))|
  {
    var joined := Filter(txs, CategoryJoinedOf(c.id, userId, start, end, filters));
    var total := SumOf(joined, AmountOf);
    CategorySpending(c.id, c.name, total, |joined|, Percentage(total, totalSpent))
  }

  /** A category has a line when at least one transaction joins it. */
  predicate HasJoined(c: BudgetCategory, txs: seq<Transaction>, userId: int, start: Date, end: Date,
                      filters: Option<ReportFilters>)
  {
    Filter(txs, CategoryJoinedOf(c.id, userId, start, end, filters)) != []
  }

  function HasJoinedOf(txs: seq<Transaction>, userId: int, start: Date, end: Date, filters: Option<ReportFilters>)
    : BudgetCategory -> bool
  {
    (c: BudgetCategory) => HasJoined(c, txs, userId, start, end, filters)
  }

  /** The lines of the given categories. */
  function SpendingLines(cats: seq<BudgetCategory>, txs: seq<Transaction>, userId: int, start: Date, end: Date,
                         filters: Option<ReportFilters>, totalSpent: int): (r: seq<CategorySpending>)
    ensures |r| == |cats|
    ensures forall i :: 0 <= i < |cats| ==> r[i] == SpendingLine(cats[i], txs, userId, start, end, filters, totalSpent)
  {
    if cats == [] then []
    else SpendingLines(cats[..|cats| - 1], txs, userId, start, end, filters, totalSpent)
         + [SpendingLine(cats[|cats| - 1], txs, userId, start, end, filters, totalSpent)]
  }

  datatype SpendingReport = SpendingReport(
    totalSpentCents: int, transactionCount: nat, avgTransactionCents: int, byCategory: seq<CategorySpending>)

  /** generate_spending_report without its trend rows: totals over the
      filtered transactions and one line per category that some
      transaction joins, in table order. */
  function GenerateSpendingReport(categories: seq<BudgetCategory>, txs: seq<Transaction>, userId: int,
                                  start: Date, end: Date, filters: Option<ReportFilters>): (r: SpendingReport)
    ensures r.transactionCount == |Filter(txs, SpendingListedOf(userId, start, end, filters))|
    ensures r.totalSpentCents == SumOf(Filter(txs, SpendingListedOf(userId, start, end, filters)), AmountOf)
    ensures r.avgTransactionCents == FloorMean(r.totalSpentCents, r.transactionCount)
  {
    var listed := Filter(txs, SpendingListedOf(userId, start, end, filters));
    var total := SumOf(listed, AmountOf);
    var count := |listed|;
    SpendingReport(total, count, if count > 0 then total / count else 0,
                   SpendingLines(Filter(categories, HasJoinedOf(txs, userId, start, end, filters)),
                                 txs, userId, start, end, filters, total))
  }

  /** Every line is about a category some transaction joins, with at
      least one transaction, and every such category has its line. */
  lemma SpendingReportLines(categories: seq<BudgetCategory>, txs: seq<Transaction>, userId: int,
                            start: Date, end: Date, filters: Option<ReportFilters>)
    ensures var r := GenerateSpendingReport(categories, txs, userId, start, end, filters);
      (forall x :: x in r.byCategory ==> x.transactionCount >= 1)
      && (forall c :: c in categories && HasJoined(c, txs, userId, start, end, filters) ==>
            SpendingLine(c, txs, userId, start, end, filters, r.totalSpentCents) in r.byCategory)
  {
    var r := GenerateSpendingReport(categories, txs, userId, start, end, filters);
    var cs := Filter(categories, HasJoinedOf(txs, userId, start, end, filters));
    assert r.byCategory == SpendingLines(cs, txs, userId, start, end, filters, r.totalSpentCents);
    JoinedLinesCounted(cs, txs, userId, start, end, filters, r.totalSpentCents);
    JoinedLinesCover(categories, txs, userId, start, end, filters, r.totalSpentCents);
  }

  lemma JoinedLinesCounted(cs: seq<BudgetCategory>, txs: seq<Transaction>, userId: int,
                           start: Date, end: Date, filters: Option<ReportFilters>, total: int)
    requires forall c :: c in cs ==> HasJoined(c, txs, userId, start, end, filters)
    ensures forall x :: x in SpendingLines(cs, txs, userId, start, end, filters, total) ==> x.transactionCount >= 1
  {
    var lines := SpendingLines(cs, txs, userId, start, end, filters, total);
    forall x | x in lines ensures x.transactionCount >= 1 {
      var i :| 0 <= i < |lines| && lines[i] == x;
      assert cs[i] in cs;
    }
  }

  lemma JoinedLinesCover(categories: seq<BudgetCategory>, txs: seq<Transaction>, userId: int,
                         start: Date, end: Date, filters: Option<ReportFilters>, total: int)
    ensures var lines := SpendingLines(Filter(categories, HasJoinedOf(txs, userId, start, end, filters)),
                                       txs, userId, start, end, filters, total);
      forall c :: c in categories && HasJoined(c, txs, userId, start, end, filters) ==>
        SpendingLine(c, txs, userId, start, end, filters, total) in lines
  {
    var cs := Filter(categories, HasJoinedOf(txs, userId, start, end, filters));
    var lines := SpendingLines(cs, txs, userId, start, end, filters, total);
    forall c | c in categories && HasJoined(c, txs, userId, start, end, filters)
      ensures SpendingLine(c, txs, userId, start, end, filters, total) in lines
    {
      FilterKeeps(categories, HasJoinedOf(txs, userId, start, end, filters), c);
      var i :| 0 <= i < |cs| && cs[i] == c;
      assert lines[i] == SpendingLine(c, txs, userId, start, end, filters, total);
    }
  }

  /** The per-category lines ignore the category and amount filters while
      the total does not, so with a minimum amount one category's share
      of the total can pass 100 percent. */
  lemma CategoryShareCanPassWhole()
    ensures var cat := BudgetCategory(1, 1, "Food", 0, 0, None, None, true);
      var txs := [Transaction(2, 7, 1, Some(1), 100, Date(2024, 5, 3), None, false, 0),
                  Transaction(3, 7, 1, Some(1), 50, Date(2024, 5, 4), None, false, 0)];
      var r := GenerateSpendingReport([cat], txs, 7, Date(2024, 5, 1), Date(2024, 5, 31),
                                      Some(ReportFilters([], [], 100, 0)));
      r.totalSpentCents == 100 && r.byCategory == [CategorySpending(1, "Food", 150, 2, 150.0)]
  {
    var cat := BudgetCategory(1, 1, "Food", 0, 0, None, None, true);
    var t1 := Transaction(2, 7, 1, Some(1), 100, Date(2024, 5, 3), None, false, 0);
    var t2 := Transaction(3, 7, 1, Some(1), 50, Date(2024, 5, 4), None, false, 0);
    var txs := [t1, t2];
    var start, end := Date(2024, 5, 1), Date(2024, 5, 31);
    var f := Some(ReportFilters([], [], 100, 0));
    ExampleListed(t1, t2, start, end, f);
    ExampleJoined(t1, t2, start, end, f);
    var line := SpendingLine(cat, txs, 7, start, end, f, 100);
    assert line == CategorySpending(1, "Food", 150, 2, Percentage(150, 100));
    assert Percentage(150, 100) == 150.0;
    assert [cat][..0] == [];
    assert Filter([cat], HasJoinedOf(txs, 7, start, end, f)) == [cat];
    assert SpendingLines([cat], txs, 7, start, end, f, 100) == [line];
  }

  /** In the example, the minimum amount keeps only the first transaction in the total ... */
  lemma ExampleListed(t1: Transaction, t2: Transaction, start: Date, end: Date, f: Option<ReportFilters>)
    requires t1 == Transaction(2, 7, 1, Some(1), 100, Date(2024, 5, 3), None, false, 0)
    requires t2 == Transaction(3, 7, 1, Some(1), 50, Date(2024, 5, 4), None, false, 0)
    requires start == Date(2024, 5, 1) && end == Date(2024, 5, 31) && f == Some(ReportFilters([], [], 100, 0))
    ensures Filter([t1, t2], SpendingListedOf(7, start, end, f)) == [t1]
    ensures SumOf([t1], AmountOf) == 100
  {
    assert [t1, t2][..1] == [t1] && [t1][..0] == [];
    assert InRange(t1.date, start, end) && InRange(t2.date, start, end);
    assert SpendingListed(t1, 7, start, end, f) && !SpendingListed(t2, 7, start, end, f);
    assert Filter([t1], SpendingListedOf(7, start, end, f)) == [t1];
  }

  /** ... while the category's line counts both. */
  lemma ExampleJoined(t1: Transaction, t2: Transaction, start: Date, end: Date, f: Option<ReportFilters>)
    requires t1 == Transaction(2, 7, 1, Some(1), 100, Date(2024, 5, 3), None, false, 0)
    requires t2 == Transaction(3, 7, 1, Some(1), 50, Date(2024, 5, 4), None, false, 0)
    requires start == Date(2024, 5, 1) && end == Date(2024, 5, 31) && f == Some(ReportFilters([], [], 100, 0))
    ensures Filter([t1, t2], CategoryJoinedOf(1, 7, start, end, f)) == [t1, t2]
    ensures SumOf([t1, t2], AmountOf) == 150
  {
    assert [t1, t2][..1] == [t1] && [t1][..0] == [];
    assert InRange(t1.date, start, end) && InRange(t2.date, start, end);
    assert CategoryJoined(t1, 1, 7, start, end, f) && CategoryJoined(t2, 1, 7, start, end, f);
    assert Filter([t1], CategoryJoinedOf(1, 7, start, end, f)) == [t1];
    assert SumOf([t1], AmountOf) == 100;
  }

  // ---------------------------------------------------------------------
  // Budgets in range

  function BudgetOwnedBy(userId: int): Budget -> bool
  {
    (b: Budget) => b.userId == userId
  }

  /** A budget counts when the first day of its month lies in the range. */
  predicate BudgetInRange(b: Budget, start: Date, end: Date)
  {
    InRange(Date(b.year, b.month, 1), start, end)
  }

  function BudgetInRangeOf(start: Date, end: Date): Budget -> bool
  {
    (b: Budget) => BudgetInRange(b, start, end)
  }

  /** `date(b.year, b.month, 1)` exists: Python's `date` takes years
      1..9999 and months 1..12, and raises ValueError otherwise. */
  predicate HasFirstDay(b: Budget)
  {
    1 <= b.year <= 9999 && 1 <= b.month <= 12
  }

  /** Some budget of the user has no first day, so the range loop of a
      report raises before it answers; nothing catches the ValueError. */
  predicate SomeBudgetUndated(budgets: seq<Budget>, userId: int)
  {
    exists b :: b in budgets && b.userId == userId && !HasFirstDay(b)
  }

  /** The error of a report when some budget of the user is undated. */
  const DateError: ApiError := Raised("ValueError")

  /** A loop that found every budget of the user dated has seen them all. */
  lemma AllBudgetsDated(budgets: seq<Budget>, userId: int, mine: seq<Budget>)
    requires mine == Filter(budgets, BudgetOwnedBy(userId))
    requires forall j :: 0 <= j < |mine| ==> HasFirstDay(mine[j])
    ensures !SomeBudgetUndated(budgets, userId)
  {
    forall b | b in budgets && b.userId == userId
      ensures HasFirstDay(b)
    {
      FilterKeeps(budgets, BudgetOwnedBy(userId), b);
      var j :| 0 <= j < |mine| && mine[j] == b;
    }
  }

  /** An undated budget of the user met by the loop is a witness. */
  lemma UndatedBudgetMet(budgets: seq<Budget>, userId: int, mine: seq<Budget>, i: nat)
    requires mine == Filter(budgets, BudgetOwnedBy(userId))
    requires i < |mine| && !HasFirstDay(mine[i])
    ensures SomeBudgetUndated(budgets, userId)
  {
    assert mine[i] in mine;
  }

  /** The user's budgets whose month lies in the range, in table order. */
  function IncludedBudgets(budgets: seq<Budget>, userId: int, start: Date, end: Date): (r: seq<Budget>)
    ensures forall b :: b in r ==> b in budgets && b.userId == userId && BudgetInRange(b, start, end)
  {
    Filter(Filter(budgets, BudgetOwnedBy(userId)), BudgetInRangeOf(start, end))
  }

  /** Every budget of the user in the range is included. */
  lemma IncludedBudgetsComplete(budgets: seq<Budget>, userId: int, start: Date, end: Date, b: Budget)
    requires b in budgets && b.userId == userId && BudgetInRange(b, start, end)
    ensures b in IncludedBudgets(budgets, userId, start, end)
  {
    FilterKeeps(budgets, BudgetOwnedBy(userId), b);
    FilterKeeps(Filter(budgets, BudgetOwnedBy(userId)), BudgetInRangeOf(start, end), b);
  }

  /** The range loop the income, category and comparison reports share:
      each budget of the user, in table order, is turned into the date of
      its first day (raising on an undated budget) and kept when that
      date lies in the range. */
  method DatedBudgetsInRange(budgets: seq<Budget>, userId: int, start: Date, end: Date)
    returns (r: Result<seq<Budget>>)
    ensures r.Err? <==> SomeBudgetUndated(budgets, userId)
    ensures r.Err? ==> r.error == DateError
    ensures r.Ok? ==> r.value == IncludedBudgets(budgets, userId, start, end)
  {
    var mine := Filter(budgets, BudgetOwnedBy(userId));
    var filtered: seq<Budget> := [];
    for i := 0 to |mine|
      invariant filtered == Filter(mine[..i], BudgetInRangeOf(start, end))
      invariant forall j :: 0 <= j < i ==> HasFirstDay(mine[j])
    {
      if !HasFirstDay(mine[i]) {
        UndatedBudgetMet(budgets, userId, mine, i);
        return Err(DateError);
      }
      FilterPrefix(mine, i, BudgetInRangeOf(start, end));
      if BudgetInRange(mine[i], start, end) {
        filtered := filtered + [mine[i]];
      }
    }
    assert mine[..|mine|] == mine;
    AllBudgetsDated(budgets, userId, mine);
    return Ok(filtered);
  }

  // ---------------------------------------------------------------------
  // Income report

  datatype MonthIncome = MonthIncome(month: int, year: int, incomeCents: int, budgetId: int)

  datatype IncomeReport = IncomeReport(
    totalIncomeCents: int, budgetCount: nat, avgMonthlyIncomeCents: int, byMonth: seq<MonthIncome>)

  function IncomeEntry(b: Budget): MonthIncome
  {
    MonthIncome(b.month, b.year, b.incomeCents, b.id)
  }

  /** The by_month entries of the given budgets, in their order. */
  function MonthEntries(bs: seq<Budget>): (r: seq<MonthIncome>)
    ensures |r| == |bs|
    ensures forall i :: 0 <= i < |bs| ==> r[i] == IncomeEntry(bs[i])
  {
    if bs == [] then [] else MonthEntries(bs[..|bs| - 1]) + [IncomeEntry(bs[|bs| - 1])]
  }

  /** The key (year, month) of the in-place sort. */
  function ByYearMonth(): (MonthIncome, MonthIncome) -> bool
  {
    (a: MonthIncome, b: MonthIncome) => a.year < b.year || (a.year == b.year && a.month <= b.month)
  }

  lemma ByYearMonthIsPreorder()
    ensures TotalPreorder(ByYearMonth())
  {
  }

  /** generate_income_report */
  method GenerateIncomeReport(budgets: seq<Budget>, userId: int, start: Date, end: Date)
    returns (r: Result<IncomeReport>)
    ensures r.Err? <==> SomeBudgetUndated(budgets, userId)
    ensures r.Err? ==> r.error == DateError
    ensures r.Ok? ==> r.value.budgetCount == |IncludedBudgets(budgets, userId, start, end)|
    ensures r.Ok? ==> r.value.totalIncomeCents == SumOf(IncludedBudgets(budgets, userId, start, end), IncomeOf)
    ensures r.Ok? ==> r.value.avgMonthlyIncomeCents == FloorMean(r.value.totalIncomeCents, r.value.budgetCount)
    ensures r.Ok? ==> r.value.byMonth == SortBy(MonthEntries(IncludedBudgets(budgets, userId, start, end)), ByYearMonth())
  {
    var inRange := DatedBudgetsInRange(budgets, userId, start, end);
    if inRange.Err? {
      return Err(inRange.error);
    }
    var filtered := inRange.value;
    var total := SumOf(filtered, IncomeOf);
    var count := |filtered|;
    var avg := if count > 0 then total / count else 0;
    var byMonth: seq<MonthIncome> := [];
    for i := 0 to |filtered|
      invariant byMonth == MonthEntries(filtered[..i])
    {
      assert filtered[..i + 1][..i] == filtered[..i];
      byMonth := byMonth + [IncomeEntry(filtered[i])];
    }
    assert filtered[..|filtered|] == filtered;
    byMonth := SortedCopy(byMonth, ByYearMonth());
    return Ok(IncomeReport(total, count, avg, byMonth));
  }

  /** The by_month list has one entry per included budget, ordered by
      year and month. */
  lemma IncomeByMonthSound(budgets: seq<Budget>, userId: int, start: Date, end: Date)
    ensures var inc := IncludedBudgets(budgets, userId, start, end);
      var byMonth := SortBy(MonthEntries(inc), ByYearMonth());
      multiset(byMonth) == multiset(MonthEntries(inc)) && |byMonth| == |inc|
      && SortedBy(byMonth, ByYearMonth())
      && (forall e :: e in byMonth ==> exists b :: b in inc && e == IncomeEntry(b))
  {
    var inc := IncludedBudgets(budgets, userId, start, end);
    var entries := MonthEntries(inc);
    SortByPermutes(entries, ByYearMonth());
    ByYearMonthIsPreorder();
    SortBySorted(entries, ByYearMonth());
    assert |SortBy(entries, ByYearMonth())| == |multiset(entries)| == |entries|;
    forall e | e in SortBy(entries, ByYearMonth()) ensures exists b :: b in inc && e == IncomeEntry(b) {
      assert e in multiset(entries);
      var i :| 0 <= i < |entries| && entries[i] == e;
      assert inc[i] in inc;
    }
  }

  // ---------------------------------------------------------------------
  // Category report

  datatype CategoryReport = CategoryReport(
    categoryId: int, categoryName: string, totalAllocatedCents: int, totalSpentCents: int, budgetCount: nat,
    avgAllocatedCents: int, avgSpentCents: int, utilizationPercentage: real)

  function BudgetIds(bs: seq<Budget>): (r: seq<int>)
    ensures |r| == |bs|
    ensures forall i :: 0 <= i < |bs| ==> r[i] == bs[i].id
  {
    if bs == [] then [] else BudgetIds(bs[..|bs| - 1]) + [bs[|bs| - 1].id]
  }

  /** The transactions of a category in the range, whatever their budget
      or user. */
  function CategorySpentIn(categoryId: int, start: Date, end: Date): Transaction -> bool
  {
    (t: Transaction) => t.categoryId == Some(categoryId) && InRange(t.date, start, end)
  }

  /** The report row of one category. Its id is the table's primary key,
      so its group holds this one row and its budget count is 1. */
  function CategoryReportRow(c: BudgetCategory, txs: seq<Transaction>, start: Date, end: Date): (r: CategoryReport)
    ensures r.categoryId == c.id && r.totalAllocatedCents == c.allocatedCents
    ensures r.budgetCount == 1 && r.avgAllocatedCents == c.allocatedCents && r.avgSpentCents == r.totalSpentCents
  {
    var spent := SumOf(Filter(txs, CategorySpentIn(c.id, start, end)), AmountOf);
    CategoryReport(c.id, c.name, c.allocatedCents, spent, 1, FloorMean(c.allocatedCents, 1), FloorMean(spent, 1),
                   Percentage(spent, c.allocatedCents))
  }

  function CategoryReportRows(cats: seq<BudgetCategory>, txs: seq<Transaction>, start: Date, end: Date)
    : (r: seq<CategoryReport>)
    ensures |r| == |cats|
    ensures forall i :: 0 <= i < |cats| ==> r[i] == CategoryReportRow(cats[i], txs, start, end)
  {
    if cats == [] then [] else CategoryReportRows(cats[..|cats| - 1], txs, start, end)
                               + [CategoryReportRow(cats[|cats| - 1], txs, start, end)]
  }

  function InBudgetsOf(ids: seq<int>): BudgetCategory -> bool
  {
    (c: BudgetCategory) => c.budgetId in ids
  }

  /** The rows of generate_category_report: none without a budget in the
      range, otherwise one per category of an included budget. */
  function CategoryReports(budgets: seq<Budget>, categories: seq<BudgetCategory>, txs: seq<Transaction>,
                           userId: int, start: Date, end: Date): (r: seq<CategoryReport>)
    ensures IncludedBudgets(budgets, userId, start, end) == [] ==> r == []
  {
    var ids := BudgetIds(IncludedBudgets(budgets, userId, start, end));
    if ids == [] then [] else CategoryReportRows(Filter(categories, InBudgetsOf(ids)), txs, start, end)
  }

  /** Every row is a category of one of the user's budgets in the range,
      and every such category has its row. */
  lemma CategoryReportsSound(budgets: seq<Budget>, categories: seq<BudgetCategory>, txs: seq<Transaction>,
                             userId: int, start: Date, end: Date)
    ensures var r := CategoryReports(budgets, categories, txs, userId, start, end);
      var inc := IncludedBudgets(budgets, userId, start, end);
      (forall x :: x in r ==> exists c, b :: c in categories && b in inc && c.budgetId == b.id
                                             && x == CategoryReportRow(c, txs, start, end))
      && (forall c, b :: c in categories && b in inc && c.budgetId == b.id ==>
                         CategoryReportRow(c, txs, start, end) in r)
  {
    var r := CategoryReports(budgets, categories, txs, userId, start, end);
    var inc := IncludedBudgets(budgets, userId, start, end);
    var ids := BudgetIds(inc);
    var cs := Filter(categories, InBudgetsOf(ids));
    forall x | x in r ensures exists c, b :: c in categories && b in inc && c.budgetId == b.id
                                             && x == CategoryReportRow(c, txs, start, end)
    {
      var i :| 0 <= i < |r| && r[i] == x;
      assert cs[i] in cs;
      var j :| 0 <= j < |ids| && ids[j] == cs[i].budgetId;
      assert inc[j] in inc;
    }
    forall c, b | c in categories && b in inc && c.budgetId == b.id
      ensures CategoryReportRow(c, txs, start, end) in r
    {
      var j :| 0 <= j < |inc| && inc[j] == b;
      assert ids[j] == b.id;
      FilterKeeps(categories, InBudgetsOf(ids), c);
      var i :| 0 <= i < |cs| && cs[i] == c;
      assert r[i] == CategoryReportRow(c, txs, start, end);
    }
  }

  /** generate_category_report */
  method GenerateCategoryReport(budgets: seq<Budget>, categories: seq<BudgetCategory>, txs: seq<Transaction>,
                                userId: int, start: Date, end: Date) returns (r: Result<seq<CategoryReport>>)
    ensures r.Err? <==> SomeBudgetUndated(budgets, userId)
    ensures r.Err? ==> r.error == DateError
    ensures r.Ok? ==> r.value == CategoryReports(budgets, categories, txs, userId, start, end)
  {
    var inRange := DatedBudgetsInRange(budgets, userId, start, end);
    if inRange.Err? {
      return Err(inRange.error);
    }
    var ids := BudgetIds(inRange.value);
    if ids == [] {
      return Ok([]);
    }
    var data := Filter(categories, InBudgetsOf(ids));
    var rows: seq<CategoryReport> := [];
    for i := 0 to |data|
      invariant rows == CategoryReportRows(data[..i], txs, start, end)
    {
      assert data[..i + 1][..i] == data[..i];
      rows := rows + [CategoryReportRow(data[i], txs, start, end)];
    }
    assert data[..|data|] == data;
    return Ok(rows);
  }

  // ---------------------------------------------------------------------
  // Trend report

  /** One period row of the trends query. */
  datatype Trend = Trend(period: string, totalCents: int, transactionCount: nat, avgTransactionCents: int)

  datatype ForecastEntry = ForecastEntry(period: string, predictedCents: int)

  datatype TrendReport = TrendReport(
    periodType: string, trends: seq<Trend>, growthRate: real, forecast: Option<seq<ForecastEntry>>)

  /** `int(x)`: a real truncated toward zero. */
  function TruncReal(x: real): (r: int)
    ensures x >= 0.0 ==> r as real <= x < r as real + 1.0
    ensures x < 0.0 ==> r as real - 1.0 < x <= r as real
  {
    if x >= 0.0 then x.Floor else -((-x).Floor)
  }

  lemma TruncRealMonotone(x: real, y: real)
    requires x <= y
    ensures TruncReal(x) <= TruncReal(y)
  {
  }

  /** The sum of the period-to-period changes of the first k rows. */
  function ChangeSum(trends: seq<Trend>, k: nat): int
    requires 1 <= k <= |trends|
  {
    if k == 1 then 0 else ChangeSum(trends, k - 1) + (trends[k - 1].totalCents - trends[k - 2].totalCents)
  }

  /** The changes telescope to the last total minus the first. */
  lemma {:induction false} ChangeSumTelescopes(trends: seq<Trend>, k: nat)
    requires 1 <= k <= |trends|
    ensures ChangeSum(trends, k) == trends[k - 1].totalCents - trends[0].totalCents
  {
    if k > 1 {
      ChangeSumTelescopes(trends, k - 1);
    }
  }

  /** growth_rate before rounding. */
  function GrowthRate(trends: seq<Trend>): real
  {
    if |trends| >= 2 && trends[0].totalCents > 0 then
      (trends[|trends| - 1].totalCents - trends[0].totalCents) as real / trends[0].totalCents as real * 100.0
    else 0.0
  }

  /** The average change, with at least two rows. */
  function AverageChange(trends: seq<Trend>): real
    requires |trends| >= 2
  {
    ChangeSum(trends, |trends|) as real / (|trends| - 1) as real
  }

  /** `int(last + avg_change * i)`. */
  function Predicted(last: int, avgChange: real, i: int): int
  {
    TruncReal(last as real + avgChange * i as real)
  }

  function ForecastAt(trends: seq<Trend>, i: int): ForecastEntry
    requires |trends| >= 2
  {
    ForecastEntry("Forecast +" + IntString(i), Predicted(trends[|trends| - 1].totalCents, AverageChange(trends), i))
  }

  /** The forecast: none with fewer than three rows, otherwise the next
      three periods continuing the average change from the last total. */
  function Forecast(trends: seq<Trend>): (r: Option<seq<ForecastEntry>>)
    ensures |trends| < 3 <==> r.None?
    ensures r.Some? ==> |r.value| == 3
  {
    if |trends| < 3 then None else Some([ForecastAt(trends, 1), ForecastAt(trends, 2), ForecastAt(trends, 3)])
  }

  /** The forecast loop: the average change over the rows, continued from
      the last total for the next three periods. */
  method ForecastNext(trends: seq<Trend>) returns (entries: seq<ForecastEntry>)
    requires |trends| >= 3
    ensures Some(entries) == Forecast(trends)
  {
    var sum := 0;
    for i := 1 to |trends|
      invariant sum == ChangeSum(trends, i)
    {
      sum := sum + (trends[i].totalCents - trends[i - 1].totalCents);
    }
    var avgChange := sum as real / (|trends| - 1) as real;
    assert avgChange == AverageChange(trends);
    var last := trends[|trends| - 1].totalCents;
    entries := [];
    for i := 1 to 4
      invariant |entries| == i - 1
      invariant forall j :: 0 <= j < i - 1 ==> entries[j] == ForecastAt(trends, j + 1)
    {
      var e := ForecastEntry("Forecast +" + IntString(i), Predicted(last, avgChange, i));
      assert e == ForecastAt(trends, i);
      entries := entries + [e];
    }
    assert entries == [ForecastAt(trends, 1), ForecastAt(trends, 2), ForecastAt(trends, 3)];
  }

  /** generate_trend_report on the trend rows of the request; an empty
      grouping is by month. */
  method GenerateTrendReport(trends: seq<Trend>, groupBy: Option<string>) returns (r: TrendReport)
    ensures r == TrendReport(if groupBy.None? || groupBy.value == "" then "month" else groupBy.value,
                             trends, GrowthRate(trends), Forecast(trends))
  {
    var periodType := if groupBy.None? || groupBy.value == "" then "month" else groupBy.value;
    var growth := 0.0;
    if |trends| >= 2 {
      var first := trends[0].totalCents;
      var last := trends[|trends| - 1].totalCents;
      if first > 0 {
        growth := (last - first) as real / first as real * 100.0;
      }
    }
    var forecast: Option<seq<ForecastEntry>> := None;
    if |trends| >= 3 {
      var entries := ForecastNext(trends);
      forecast := Some(entries);
    }
    return TrendReport(periodType, trends, growth, forecast);
  }

  /** The forecast continues the line from the first total to the last:
      entry i is the last total plus i times the average change, which is
      (last - first) / (rows - 1); rising totals give rising forecasts, all
      at least the last total. */
  lemma ForecastSound(trends: seq<Trend>)
    requires |trends| >= 3
    ensures var n := |trends|;
      var first := trends[0].totalCents;
      var last := trends[n - 1].totalCents;
      AverageChange(trends) == (last - first) as real / (n - 1) as real
      && Forecast(trends).value[0].period == "Forecast +1"
      && Forecast(trends).value[2].period == "Forecast +3"
      && (first <= last ==>
            last <= Forecast(trends).value[0].predictedCents <= Forecast(trends).value[1].predictedCents
            <= Forecast(trends).value[2].predictedCents)
  {
    var n := |trends|;
    ChangeSumTelescopes(trends, n);
    var first := trends[0].totalCents;
    var last := trends[n - 1].totalCents;
    var a := AverageChange(trends);
    if first <= last {
      assert a >= 0.0;
      TruncRealMonotone(last as real, last as real + a * 1.0);
      TruncRealMonotone(last as real + a * 1.0, last as real + a * 2.0);
      TruncRealMonotone(last as real + a * 2.0, last as real + a * 3.0);
    }
  }

  /** Growth is 0 unless there are two rows and the first total is
      positive; then it is the change from first to last in percent. */
  lemma GrowthRateSound(trends: seq<Trend>)
    ensures !(|trends| >= 2 && trends[0].totalCents > 0) ==> GrowthRate(trends) == 0.0
    ensures |trends| >= 2 && trends[0].totalCents > 0 ==>
      GrowthRate(trends) == Percentage(trends[|trends| - 1].totalCents - trends[0].totalCents, trends[0].totalCents)
  {
  }

  // ---------------------------------------------------------------------
  // Comparison report

  datatype BudgetComparison = BudgetComparison(
    budgetId: int, month: int, year: int, incomeCents: int, allocatedCents: int, spentCents: int,
    remainingCents: int, utilizationPercentage: real)

  datatype ComparisonReport = ComparisonReport(
    budgets: seq<BudgetComparison>, totalIncomeCents: int, totalSpentCents: int, avgUtilization: real)

  /** The transactions of a budget in the range, whatever their user. */
  function BudgetSpentIn(budgetId: int, start: Date, end: Date): Transaction -> bool
  {
    (t: Transaction) => t.budgetId == budgetId && InRange(t.date, start, end)
  }

  /** What was spent against a budget in the range. */
  function BudgetSpent(b: Budget, txs: seq<Transaction>, start: Date, end: Date): int
  {
    SumOf(Filter(txs, BudgetSpentIn(b.id, start, end)), AmountOf)
  }

  function SpentBy(txs: seq<Transaction>, start: Date, end: Date): Budget -> int
  {
    (b: Budget) => BudgetSpent(b, txs, start, end)
  }

  /** The comparison line of one budget: its categories' allocations, its
      spending in the range and what is left of its income. */
  function CompareBudget(b: Budget, categories: seq<BudgetCategory>, txs: seq<Transaction>, start: Date, end: Date)
    : (r: BudgetComparison)
    ensures r.budgetId == b.id && r.incomeCents == b.incomeCents
    ensures r.remainingCents == r.incomeCents - r.spentCents
  {
    var spent := BudgetSpent(b, txs, start, end);
    BudgetComparison(b.id, b.month, b.year, b.incomeCents, SumOf(CategoriesOf(categories, b.id), AllocatedAmount),
                     spent, b.incomeCents - spent, Percentage(spent, b.incomeCents))
  }

  function Comparisons(bs: seq<Budget>, categories: seq<BudgetCategory>, txs: seq<Transaction>, start: Date, end: Date)
    : (r: seq<BudgetComparison>)
    ensures |r| == |bs|
    ensures forall i :: 0 <= i < |bs| ==> r[i] == CompareBudget(bs[i], categories, txs, start, end)
  {
    if bs == [] then [] else Comparisons(bs[..|bs| - 1], categories, txs, start, end)
                             + [CompareBudget(bs[|bs| - 1], categories, txs, start, end)]
  }

  function SpentOf(c: BudgetComparison): int { c.spentCents }
  function RemainingOf(c: BudgetComparison): int { c.remainingCents }

  /** generate_comparison_report */
  method GenerateComparisonReport(budgets: seq<Budget>, categories: seq<BudgetCategory>, txs: seq<Transaction>,
                                  userId: int, start: Date, end: Date) returns (r: Result<ComparisonReport>)
    ensures r.Err? <==> SomeBudgetUndated(budgets, userId)
    ensures r.Err? ==> r.error == DateError
    ensures r.Ok? ==> r.value.budgets == Comparisons(IncludedBudgets(budgets, userId, start, end), categories, txs, start, end)
    ensures r.Ok? ==> r.value.totalIncomeCents == SumOf(IncludedBudgets(budgets, userId, start, end), IncomeOf)
    ensures r.Ok? ==> r.value.totalSpentCents == SumOf(r.value.budgets, SpentOf)
    ensures r.Ok? ==> r.value.avgUtilization == Percentage(r.value.totalSpentCents, r.value.totalIncomeCents)
  {
    var inRange := DatedBudgetsInRange(budgets, userId, start, end);
    if inRange.Err? {
      return Err(inRange.error);
    }
    var included := inRange.value;
    var comparisons: seq<BudgetComparison> := [];
    var totalIncome := 0;
    var totalSpent := 0;
    for i := 0 to |included|
      invariant comparisons == Comparisons(included[..i], categories, txs, start, end)
      invariant totalIncome == SumOf(included[..i], IncomeOf)
      invariant totalSpent == SumOf(included[..i], SpentBy(txs, start, end))
    {
      var b := included[i];
      var c := CompareBudget(b, categories, txs, start, end);
      assert included[..i + 1] == included[..i] + [b];
      assert (included[..i] + [b])[..i] == included[..i];
      SumOfSnoc(included[..i], b, IncomeOf);
      SumOfSnoc(included[..i], b, SpentBy(txs, start, end));
      comparisons := comparisons + [c];
      totalIncome := totalIncome + b.incomeCents;
      totalSpent := totalSpent + c.spentCents;
    }
    assert included[..|included|] == included;
    SpentAddsUp(included, categories, txs, start, end);
    return Ok(ComparisonReport(comparisons, totalIncome, totalSpent, Percentage(totalSpent, totalIncome)));
  }

  /** The spending over the lines is the spending of their budgets. */
  lemma {:induction false} SpentAddsUp(bs: seq<Budget>, categories: seq<BudgetCategory>, txs: seq<Transaction>,
                                       start: Date, end: Date)
    ensures SumOf(Comparisons(bs, categories, txs, start, end), SpentOf) == SumOf(bs, SpentBy(txs, start, end))
  {
    if bs != [] {
      var init := bs[..|bs| - 1];
      SpentAddsUp(init, categories, txs, start, end);
      var cs := Comparisons(bs, categories, txs, start, end);
      assert cs[..|cs| - 1] == Comparisons(init, categories, txs, start, end);
    }
  }

  /** What is left over the lines adds up to the total income less the
      total spent. */
  lemma {:induction false} RemainingAddsUp(bs: seq<Budget>, categories: seq<BudgetCategory>, txs: seq<Transaction>,
                                           start: Date, end: Date)
    ensures var cs := Comparisons(bs, categories, txs, start, end);
      SumOf(cs, RemainingOf) == SumOf(bs, IncomeOf) - SumOf(cs, SpentOf)
  {
    if bs != [] {
      var init := bs[..|bs| - 1];
      RemainingAddsUp(init, categories, txs, start, end);
      var cs := Comparisons(bs, categories, txs, start, end);
      assert cs[..|cs| - 1] == Comparisons(init, categories, txs, start, end);
    }
  }
}
