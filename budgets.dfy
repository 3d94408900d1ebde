/** The budget API: the allocation summary of a budget, one budget per
    user and period, updates that replace a budget's categories, and
    budgets created from the user's category templates. */
module Budgets {
  import opened Common
  import opened Sorting
  import opened BudgetDb

  /** A category of a request body; create and update copy only these
      three fields. */
  datatype CategoryInput = CategoryInput(name: string, allocatedCents: int, order: int)

  datatype Summary = Summary(totalAllocatedCents: int, remainingCents: int, isBalanced: bool)

  function InputAllocated(c: CategoryInput): int { c.allocatedCents }

  /** calculate_budget_summary over the budget's categories. */
  function BudgetSummary(b: Budget, categories: seq<BudgetCategory>): (r: Summary)
    ensures r.totalAllocatedCents == SumOf(CategoriesOf(categories, b.id), AllocatedAmount)
    ensures r.totalAllocatedCents + r.remainingCents == b.incomeCents
    ensures r.isBalanced <==> r.totalAllocatedCents == b.incomeCents
  {
    var total := SumOf(CategoriesOf(categories, b.id), AllocatedAmount);
    Summary(total, b.incomeCents - total, b.incomeCents - total == 0)
  }

  function DuplicateError(month: int, year: int): ApiError
  {
    BadRequest("Budget for " + IntString(month) + "/" + IntString(year) + " already exists")
  }

  predicate HasPeriod(budgets: seq<Budget>, userId: int, month: int, year: int)
  {
    exists b :: b in budgets && b.userId == userId && b.month == month && b.year == year
  }

  /** No user has two budgets for one month. */
  ghost predicate PeriodsUnique(budgets: seq<Budget>)
  {
    forall i, j :: 0 <= i < j < |budgets| ==>
      !(budgets[i].userId == budgets[j].userId && budgets[i].month == budgets[j].month
        && budgets[i].year == budgets[j].year)
  }

  /** Adding a budget for a period the user has no budget for keeps
      periods unique. */
  lemma AddPeriodKeepsUnique(budgets: seq<Budget>, b: Budget)
    requires PeriodsUnique(budgets) && !HasPeriod(budgets, b.userId, b.month, b.year)
    ensures PeriodsUnique(budgets + [b])
  {
    var s := budgets + [b];
    forall i, j | 0 <= i < j < |s|
      ensures !(s[i].userId == s[j].userId && s[i].month == s[j].month && s[i].year == s[j].year)
    {
      if j == |budgets| {
        assert s[i] in budgets;
      } else {
        assert s[i] == budgets[i] && s[j] == budgets[j];
      }
    }
  }

  /** New category rows of a budget, with ids from firstId on; a category
      created here has no description or group and is active. */
  function CategoryRows(inputs: seq<CategoryInput>, budgetId: int, firstId: int): (r: seq<BudgetCategory>)
    ensures |r| == |inputs|
    ensures forall k :: 0 <= k < |inputs| ==>
      r[k] == BudgetCategory(firstId + k, budgetId, inputs[k].name, inputs[k].allocatedCents, inputs[k].order,
                             None, None, true)
  {
    if inputs == [] then []
    else
      var k := |inputs| - 1;
      CategoryRows(inputs[..k], budgetId, firstId)
      + [BudgetCategory(firstId + k, budgetId, inputs[k].name, inputs[k].allocatedCents, inputs[k].order, None, None, true)]
  }

  /** The rows add up to what the inputs allocate. */
  lemma {:induction false} CategoryRowsTotal(inputs: seq<CategoryInput>, budgetId: int, firstId: int)
    ensures SumOf(CategoryRows(inputs, budgetId, firstId), AllocatedAmount) == SumOf(inputs, InputAllocated)
  {
    if inputs != [] {
      var k := |inputs| - 1;
      CategoryRowsTotal(inputs[..k], budgetId, firstId);
      assert CategoryRows(inputs, budgetId, firstId)[..k] == CategoryRows(inputs[..k], budgetId, firstId);
    }
  }

  function NotOfBudget(budgetId: int): BudgetCategory -> bool
  {
    (c: BudgetCategory) => c.budgetId != budgetId
  }

  /** The categories of every budget but budgetId, then the new rows. */
  function ReplaceCategories(categories: seq<BudgetCategory>, budgetId: int, inputs: seq<CategoryInput>, firstId: int)
    : seq<BudgetCategory>
  {
    Filter(categories, NotOfBudget(budgetId)) + CategoryRows(inputs, budgetId, firstId)
  }

  /** After a replacement the budget's categories are exactly the new
      rows, so its summary is over the new allocations only. */
  lemma ReplaceCategoriesSound(categories: seq<BudgetCategory>, b: Budget, inputs: seq<CategoryInput>, firstId: int)
    ensures CategoriesOf(ReplaceCategories(categories, b.id, inputs, firstId), b.id)
            == CategoryRows(inputs, b.id, firstId)
    ensures BudgetSummary(b, ReplaceCategories(categories, b.id, inputs, firstId)).totalAllocatedCents
            == SumOf(inputs, InputAllocated)
  {
    var kept := Filter(categories, NotOfBudget(b.id));
    var rows := CategoryRows(inputs, b.id, firstId);
    FilterAppend(kept, rows, InBudget(b.id));
    forall x | x in kept ensures !InBudget(b.id)(x) {
      assert NotOfBudget(b.id)(x);
    }
    FilterNone(kept, InBudget(b.id));
    forall x | x in rows ensures InBudget(b.id)(x) {
      var k :| 0 <= k < |rows| && rows[k] == x;
    }
    FilterAll(rows, InBudget(b.id));
    assert CategoriesOf(kept + rows, b.id) == [] + rows;
    assert [] + rows == rows;
    CategoryRowsTotal(inputs, b.id, firstId);
  }

  /** A replacement leaves every other budget's categories as they were. */
  lemma ReplaceKeepsOthers(categories: seq<BudgetCategory>, budgetId: int, inputs: seq<CategoryInput>, firstId: int,
                           other: int)
    requires other != budgetId
    ensures CategoriesOf(ReplaceCategories(categories, budgetId, inputs, firstId), other) == CategoriesOf(categories, other)
  {
    var kept := Filter(categories, NotOfBudget(budgetId));
    var rows := CategoryRows(inputs, budgetId, firstId);
    FilterAppend(kept, rows, InBudget(other));
    FilterNone(rows, InBudget(other));
    FilterOfFilter(categories, NotOfBudget(budgetId), InBudget(other));
    assert Filter(kept, InBudget(other)) + [] == Filter(kept, InBudget(other));
  }

  /** A new budget's categories are the rows created with it: no earlier
      category refers to its id. */
  lemma NewBudgetCategories(categories: seq<BudgetCategory>, all: seq<BudgetCategory>, b: Budget,
                            inputs: seq<CategoryInput>, firstId: int)
    requires forall i :: 0 <= i < |categories| ==> categories[i].budgetId < b.id
    requires all == categories + CategoryRows(inputs, b.id, firstId)
    ensures CategoriesOf(all, b.id) == CategoryRows(inputs, b.id, firstId)
    ensures BudgetSummary(b, all).totalAllocatedCents == SumOf(inputs, InputAllocated)
  {
    var rows := CategoryRows(inputs, b.id, firstId);
    FilterAppend(categories, rows, InBudget(b.id));
    forall c | c in categories ensures !InBudget(b.id)(c) {
      var i :| 0 <= i < |categories| && categories[i] == c;
    }
    FilterNone(categories, InBudget(b.id));
    FilterAll(rows, InBudget(b.id));
    assert CategoriesOf(categories + rows, b.id) == rows;
    CategoryRowsTotal(inputs, b.id, firstId);
  }

  /** Every allocation is zero or more (the schema's bound), so the total
      is too and what remains is at most the income. */
  lemma {:induction false} SummaryBounds(b: Budget, categories: seq<BudgetCategory>)
    requires forall c :: c in categories ==> c.allocatedCents >= 0
    ensures BudgetSummary(b, categories).totalAllocatedCents >= 0
    ensures BudgetSummary(b, categories).remainingCents <= b.incomeCents
  {
    var mine := CategoriesOf(categories, b.id);
    assert forall i :: 0 <= i < |mine| ==> mine[i] in categories;
    SumOfNonNegative(mine, AllocatedAmount);
  }

  /** The body's field constraints: a month of 1 to 12, a year of 2000 to
      2100, an income and every category allocation of zero or more; None
      when they hold, else the first field that fails. */
  function BudgetFieldError(month: Option<int>, year: Option<int>, incomeCents: Option<int>,
                            inputs: seq<CategoryInput>): (r: Option<string>)
    ensures r.None? <==> (month.Some? ==> 1 <= month.value <= 12)
                         && (year.Some? ==> 2000 <= year.value <= 2100)
                         && (incomeCents.Some? ==> incomeCents.value >= 0)
                         && (forall c :: c in inputs ==> c.allocatedCents >= 0)
  {
    if month.Some? && !(1 <= month.value <= 12) then Some("month")
    else if year.Some? && !(2000 <= year.value <= 2100) then Some("year")
    else if incomeCents.Some? && incomeCents.value < 0 then Some("income_cents")
    else if exists c :: c in inputs && c.allocatedCents < 0 then Some("allocated_cents")
    else None
  }

  /** create_budget: the body is validated before the handler runs; a
      valid one is handled by InsertBudget. */
  method CreateBudget(db: Db, userId: int, month: int, year: int, incomeCents: int, inputs: seq<CategoryInput>)
    returns (r: Result<Budget>)
    requires db.Valid() && PeriodsUnique(db.budgets)
    modifies db
    ensures db.Valid() && PeriodsUnique(db.budgets)
    ensures BudgetFieldError(Some(month), Some(year), Some(incomeCents), inputs).Some? ==>
      r == Err(Invalid(BudgetFieldError(Some(month), Some(year), Some(incomeCents), inputs).value))
      && db.budgets == old(db.budgets) && db.categories == old(db.categories) && db.nextId == old(db.nextId)
    ensures BudgetFieldError(Some(month), Some(year), Some(incomeCents), inputs).None?
            && HasPeriod(old(db.budgets), userId, month, year) ==>
      r == Err(DuplicateError(month, year)) && db.budgets == old(db.budgets) && db.categories == old(db.categories)
    ensures BudgetFieldError(Some(month), Some(year), Some(incomeCents), inputs).None?
            && !HasPeriod(old(db.budgets), userId, month, year) ==>
      var b := Budget(old(db.nextId), userId, month, year, incomeCents);
      r == Ok(b) && db.budgets == old(db.budgets) + [b]
      && db.categories == old(db.categories) + CategoryRows(inputs, b.id, old(db.nextId) + 1)
      && db.nextId == old(db.nextId) + 1 + |inputs|
      && CategoriesOf(db.categories, b.id) == CategoryRows(inputs, b.id, old(db.nextId) + 1)
      && BudgetSummary(b, db.categories).totalAllocatedCents == SumOf(inputs, InputAllocated)
    ensures db.transactions == old(db.transactions) && db.splits == old(db.splits) && db.templates == old(db.templates)
  {
    var error := BudgetFieldError(Some(month), Some(year), Some(incomeCents), inputs);
    if error.Some? {
      return Err(Invalid(error.value));
    }
    r := InsertBudget(db, userId, month, year, incomeCents, inputs);
  }

  /** The body of create_budget once the request is accepted: refused for
      a period the user already has a budget for, else the budget row and
      one category row per input. */
  method InsertBudget(db: Db, userId: int, month: int, year: int, incomeCents: int, inputs: seq<CategoryInput>)
    returns (r: Result<Budget>)
    requires db.Valid() && PeriodsUnique(db.budgets)
    modifies db
    ensures db.Valid() && PeriodsUnique(db.budgets)
    ensures HasPeriod(old(db.budgets), userId, month, year) ==>
      r == Err(DuplicateError(month, year)) && db.budgets == old(db.budgets) && db.categories == old(db.categories)
    ensures !HasPeriod(old(db.budgets), userId, month, year) ==>
      var b := Budget(old(db.nextId), userId, month, year, incomeCents);
      r == Ok(b) && db.budgets == old(db.budgets) + [b]
      && db.categories == old(db.categories) + CategoryRows(inputs, b.id, old(db.nextId) + 1)
      && db.nextId == old(db.nextId) + 1 + |inputs|
      && CategoriesOf(db.categories, b.id) == CategoryRows(inputs, b.id, old(db.nextId) + 1)
      && BudgetSummary(b, db.categories).totalAllocatedCents == SumOf(inputs, InputAllocated)
    ensures db.transactions == old(db.transactions) && db.splits == old(db.splits) && db.templates == old(db.templates)
  {
    if HasPeriod(db.budgets, userId, month, year) {
      return Err(DuplicateError(month, year));
    }
    ghost var cats0, id0 := db.categories, db.nextId;
    var b := AddBudgetRow(db, userId, month, year, incomeCents);
    assert db.categories == cats0 && db.nextId == id0 + 1;
    AddCategoryRows(db, inputs, b.id);
    assert db.categories == cats0 + CategoryRows(inputs, b.id, id0 + 1);
    NewBudgetCategories(cats0, db.categories, b, inputs, id0 + 1);
    return Ok(b);
  }

  /** The budget row itself, with the next id. */
  method AddBudgetRow(db: Db, userId: int, month: int, year: int, incomeCents: int) returns (b: Budget)
    requires db.Valid() && PeriodsUnique(db.budgets) && !HasPeriod(db.budgets, userId, month, year)
    modifies db
    ensures db.Valid() && PeriodsUnique(db.budgets)
    ensures b == Budget(old(db.nextId), userId, month, year, incomeCents) && b.id < db.nextId
    ensures db.budgets == old(db.budgets) + [b] && db.nextId == old(db.nextId) + 1
    ensures db.categories == old(db.categories) && db.transactions == old(db.transactions)
    ensures db.splits == old(db.splits) && db.templates == old(db.templates)
  {
    b := Budget(db.nextId, userId, month, year, incomeCents);
    AddPeriodKeepsUnique(db.budgets, b);
    db.budgets := db.budgets + [b];
    db.nextId := db.nextId + 1;
  }

  /** The loop adding one category row per input. */
  method AddCategoryRows(db: Db, inputs: seq<CategoryInput>, budgetId: int)
    requires db.Valid() && budgetId < db.nextId
    modifies db
    ensures db.Valid()
    ensures db.categories == old(db.categories) + CategoryRows(inputs, budgetId, old(db.nextId))
    ensures db.nextId == old(db.nextId) + |inputs|
    ensures db.budgets == old(db.budgets) && db.transactions == old(db.transactions)
    ensures db.splits == old(db.splits) && db.templates == old(db.templates)
  {
    ghost var start := db.categories;
    var firstId := db.nextId;
    for k := 0 to |inputs|
      invariant db.Valid()
      invariant db.categories == start + CategoryRows(inputs[..k], budgetId, firstId)
      invariant db.nextId == firstId + k
      invariant db.budgets == old(db.budgets) && db.transactions == old(db.transactions)
      invariant db.splits == old(db.splits) && db.templates == old(db.templates)
    {
      assert inputs[..k + 1][..k] == inputs[..k];
      db.categories := db.categories + [BudgetCategory(db.nextId, budgetId, inputs[k].name, inputs[k].allocatedCents,
                                                       inputs[k].order, None, None, true)];
      db.nextId := db.nextId + 1;
    }
    assert inputs[..|inputs|] == inputs;
  }

  /** The categories of an update body, none when it has no list. */
  function InputsOrNone(inputs: Option<seq<CategoryInput>>): seq<CategoryInput>
  {
    if inputs.Some? then inputs.value else []
  }

  /** update_budget: income changes only when given, and given categories
      replace all of the budget's categories. */
  method UpdateBudget(db: Db, userId: int, budgetId: int, incomeCents: Option<int>, inputs: Option<seq<CategoryInput>>)
    returns (r: Result<Budget>)
    requires db.Valid()
    modifies db
    ensures db.Valid()
    ensures BudgetFieldError(None, None, incomeCents, InputsOrNone(inputs)).Some? ==>
      r == Err(Invalid(BudgetFieldError(None, None, incomeCents, InputsOrNone(inputs)).value))
      && db.budgets == old(db.budgets) && db.categories == old(db.categories) && db.nextId == old(db.nextId)
    ensures BudgetFieldError(None, None, incomeCents, InputsOrNone(inputs)).None?
            && OwnedBudget(old(db.budgets), budgetId, userId).None? ==>
      r == Err(NotFound("Budget")) && db.budgets == old(db.budgets) && db.categories == old(db.categories)
    ensures BudgetFieldError(None, None, incomeCents, InputsOrNone(inputs)).None?
            && OwnedBudget(old(db.budgets), budgetId, userId).Some? ==>
      var i := BudgetIndex(old(db.budgets), budgetId, userId).value;
      var b := old(db.budgets)[i].(incomeCents := if incomeCents.Some? then incomeCents.value else old(db.budgets)[i].incomeCents);
      r == Ok(b) && db.budgets == old(db.budgets)[i := b]
      && (inputs.None? ==> db.categories == old(db.categories))
      && (inputs.Some? ==> db.categories == ReplaceCategories(old(db.categories), budgetId, inputs.value, old(db.nextId)))
    ensures db.transactions == old(db.transactions) && db.splits == old(db.splits) && db.templates == old(db.templates)
  {
    var error := BudgetFieldError(None, None, incomeCents, InputsOrNone(inputs));
    if error.Some? {
      return Err(Invalid(error.value));
    }
    var found := BudgetIndex(db.budgets, budgetId, userId);
    if found.None? {
      return Err(NotFound("Budget"));
    }
    var i := found.value;
    var b := db.budgets[i];
    if incomeCents.Some? {
      b := b.(incomeCents := incomeCents.value);
    }
    db.budgets := db.budgets[i := b];
    if inputs.Some? {
      var kept := Filter(db.categories, NotOfBudget(budgetId));
      forall k | 0 <= k < |kept| ensures kept[k].id < db.nextId && kept[k].budgetId < db.nextId {
        assert kept[k] in db.categories;
      }
      assert db.budgets[i].id == budgetId;
      db.categories := kept;
      AddCategoryRows(db, inputs.value, budgetId);
    }
    return Ok(b);
  }

  /** The position of the user's budget with that id: the same row
      OwnedBudget finds. */
  function BudgetIndex(budgets: seq<Budget>, budgetId: int, userId: int): (r: Option<nat>)
    ensures r.Some? <==> OwnedBudget(budgets, budgetId, userId).Some?
    ensures r.Some? ==> r.value < |budgets| && budgets[r.value] == OwnedBudget(budgets, budgetId, userId).value
  {
    if budgets == [] then None
    else if budgets[0].id == budgetId && budgets[0].userId == userId then Some(0)
    else match BudgetIndex(budgets[1..], budgetId, userId)
         case None => None
         case Some(i) => Some(i + 1)
  }

  // ---------------------------------------------------------------------
  // create_budget_from_templates

  function ChosenTemplate(userId: int, ids: seq<int>): CategoryTemplate -> bool
  {
    (t: CategoryTemplate) => t.id in ids && t.userId == userId && t.isActive
  }

  function ActiveTemplateOf(userId: int): CategoryTemplate -> bool
  {
    (t: CategoryTemplate) => t.userId == userId && t.isActive
  }

  /** The templates a new budget is built from: the user's active ones
      among the given ids in table order, or, with no ids, all of the
      user's active ones by order and name. */
  function SelectedTemplates(templates: seq<CategoryTemplate>, userId: int, ids: seq<int>): seq<CategoryTemplate>
  {
    if ids != [] then Filter(templates, ChosenTemplate(userId, ids))
    else SortBy(Filter(templates, ActiveTemplateOf(userId)), ByOrderName())
  }

  /** A template exactly when it is chosen: with ids, a template of the
      user, active and among them; without, every active template of the
      user, each once, sorted by order and name. */
  lemma SelectedTemplatesSound(templates: seq<CategoryTemplate>, userId: int, ids: seq<int>)
    ensures ids != [] ==> forall t :: t in SelectedTemplates(templates, userId, ids) <==>
      t in templates && t.id in ids && t.userId == userId && t.isActive
    ensures ids == [] ==>
      multiset(SelectedTemplates(templates, userId, ids)) == multiset(Filter(templates, ActiveTemplateOf(userId)))
      && SortedBy(SelectedTemplates(templates, userId, ids), ByOrderName())
  {
    if ids != [] {
      forall t | t in templates && t.id in ids && t.userId == userId && t.isActive
        ensures t in SelectedTemplates(templates, userId, ids)
      {
        FilterKeeps(templates, ChosenTemplate(userId, ids), t);
      }
    } else {
      SortByPermutes(Filter(templates, ActiveTemplateOf(userId)), ByOrderName());
      ByOrderNameIsPreorder();
      SortBySorted(Filter(templates, ActiveTemplateOf(userId)), ByOrderName());
    }
  }

  /** A category per template with its name, default allocation and order. */
  function TemplateInputs(ts: seq<CategoryTemplate>): (r: seq<CategoryInput>)
    ensures |r| == |ts|
    ensures forall k :: 0 <= k < |ts| ==> r[k] == CategoryInput(ts[k].name, ts[k].defaultAllocationCents, ts[k].order)
  {
    if ts == [] then []
    else
      var k := |ts| - 1;
      TemplateInputs(ts[..k]) + [CategoryInput(ts[k].name, ts[k].defaultAllocationCents, ts[k].order)]
  }

  /** create_budget_from_templates: refused like create_budget for a
      period the user already has a budget for; the categories come from
      the selected templates. */
  method CreateBudgetFromTemplates(db: Db, userId: int, month: int, year: int, incomeCents: int, ids: seq<int>)
    returns (r: Result<Budget>)
    requires db.Valid() && PeriodsUnique(db.budgets)
    modifies db
    ensures db.Valid() && PeriodsUnique(db.budgets)
    ensures HasPeriod(old(db.budgets), userId, month, year) ==>
      r == Err(DuplicateError(month, year)) && db.budgets == old(db.budgets) && db.categories == old(db.categories)
    ensures !HasPeriod(old(db.budgets), userId, month, year) ==>
      var b := Budget(old(db.nextId), userId, month, year, incomeCents);
      r == Ok(b) && db.budgets == old(db.budgets) + [b]
      && db.categories == old(db.categories)
           + CategoryRows(TemplateInputs(SelectedTemplates(old(db.templates), userId, ids)), b.id, old(db.nextId) + 1)
    ensures db.transactions == old(db.transactions) && db.splits == old(db.splits) && db.templates == old(db.templates)
  {
    var inputs := TemplateInputs(SelectedTemplates(db.templates, userId, ids));
    r := InsertBudget(db, userId, month, year, incomeCents, inputs);
  }
}
