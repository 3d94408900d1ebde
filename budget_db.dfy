/** The budgeting tables (budgets, their categories, transactions and
    their splits, category templates) as rows in sequences, in table
    order, and the lookups the API handlers run against them. Each table
    gets its ids from one counter, as an autoincrement key does. */
module BudgetDb {
  import opened Common
  import opened Calendar
  import opened Sorting

  datatype Budget = Budget(id: int, userId: int, month: int, year: int, incomeCents: int)

  datatype BudgetCategory = BudgetCategory(
    id: int, budgetId: int, name: string, allocatedCents: int, order: int,
    description: Option<string>, group: Option<string>, isActive: bool)

  /** A transaction; split transactions carry no category of their own. */
  datatype Transaction = Transaction(
    id: int, userId: int, budgetId: int, categoryId: Option<int>, amountCents: int,
    date: Date, notes: Option<string>, isSplit: bool, createdAt: int)

  datatype TransactionSplit = TransactionSplit(
    id: int, transactionId: int, categoryId: int, amountCents: int, notes: Option<string>)

  datatype CategoryTemplate = CategoryTemplate(
    id: int, userId: int, name: string, categoryType: string,
    icon: Option<string>, color: Option<string>, defaultAllocationCents: int, isActive: bool, order: int)

  class Db {
    var budgets: seq<Budget>
    var categories: seq<BudgetCategory>
    var transactions: seq<Transaction>
    var splits: seq<TransactionSplit>
    var templates: seq<CategoryTemplate>
    var nextId: int

    /** Every id handed out so far is below the counter, and so is every
        budget a category refers to and every transaction a split belongs
        to. */
    ghost predicate Valid()
      reads this
    {
      nextId >= 1
      && (forall i :: 0 <= i < |budgets| ==> budgets[i].id < nextId)
      && (forall i :: 0 <= i < |categories| ==> categories[i].id < nextId && categories[i].budgetId < nextId)
      && (forall i :: 0 <= i < |transactions| ==> transactions[i].id < nextId)
      && (forall i :: 0 <= i < |splits| ==> splits[i].id < nextId && splits[i].transactionId < nextId)
      && (forall i :: 0 <= i < |templates| ==> templates[i].id < nextId)
    }

    constructor ()
      ensures Valid()
      ensures budgets == [] && categories == [] && transactions == [] && splits == [] && templates == []
    {
      budgets, categories, transactions, splits, templates := [], [], [], [], [];
      nextId := 1;
    }
  }

  /** The budget with this id if it belongs to the user (the ownership
      check of every budget handler). */
  function OwnedBudget(budgets: seq<Budget>, budgetId: int, userId: int): (r: Option<Budget>)
    ensures r.Some? ==> r.value in budgets && r.value.id == budgetId && r.value.userId == userId
    ensures r.None? ==> forall b :: b in budgets ==> !(b.id == budgetId && b.userId == userId)
  {
    if budgets == [] then None
    else if budgets[0].id == budgetId && budgets[0].userId == userId then Some(budgets[0])
    else OwnedBudget(budgets[1..], budgetId, userId)
  }

  /** The category with this id if it belongs to the budget. */
  function CategoryInBudget(categories: seq<BudgetCategory>, categoryId: int, budgetId: int): (r: Option<BudgetCategory>)
    ensures r.Some? ==> r.value in categories && r.value.id == categoryId && r.value.budgetId == budgetId
    ensures r.None? ==> forall c :: c in categories ==> !(c.id == categoryId && c.budgetId == budgetId)
  {
    if categories == [] then None
    else if categories[0].id == categoryId && categories[0].budgetId == budgetId then Some(categories[0])
    else CategoryInBudget(categories[1..], categoryId, budgetId)
  }

  /** The categories of one budget, in table order. */
  function CategoriesOf(categories: seq<BudgetCategory>, budgetId: int): seq<BudgetCategory>
  {
    Filter(categories, InBudget(budgetId))
  }

  function InBudget(budgetId: int): BudgetCategory -> bool
  {
    (c: BudgetCategory) => c.budgetId == budgetId
  }

  function AllocatedAmount(c: BudgetCategory): int { c.allocatedCents }

  /** SQL's ORDER BY order, name: by order, then by name in code-point order. */
  function ByOrderName(): (CategoryTemplate, CategoryTemplate) -> bool
  {
    (a: CategoryTemplate, b: CategoryTemplate) =>
      a.order < b.order || (a.order == b.order && (a.name == b.name || LexLess(a.name, b.name)))
  }

  lemma ByOrderNameIsPreorder()
    ensures TotalPreorder(ByOrderName())
  {
    var le := ByOrderName();
    forall a: CategoryTemplate, b: CategoryTemplate ensures le(a, b) || le(b, a) {
      LexLessTotal(a.name, b.name);
    }
    forall a: CategoryTemplate, b: CategoryTemplate, c: CategoryTemplate | le(a, b) && le(b, c) ensures le(a, c) {
      if a.order == b.order == c.order && a.name != b.name && b.name != c.name {
        LexLessTransitive(a.name, b.name, c.name);
      }
    }
  }
}
