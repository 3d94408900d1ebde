/** The client-side helpers for budget categories: the total allocated,
    grouping by category group, sorting a copy, searching, and the form
    check run before a category is sent to the server. */
module CategoryUtils {
  import opened Common
  import opened Sorting
  import opened Grouping

  /** A budget category as the client receives it; the time stamps are not
      read by these helpers. */
  datatype Category = Category(
    id: int,
    budgetId: int,
    name: string,
    allocatedCents: int,
    order: int,
    description: Option<string>,
    group: Option<string>,
    isActive: int)

  function AllocatedOf(c: Category): int { c.allocatedCents }

  // ---------------------------------------------------------------------
  // Total

  /** calculateTotal: the sum of the allocated amounts. */
  function CalculateTotal(cats: seq<Category>): (r: int)
    ensures cats == [] ==> r == 0
  {
    SumOf(cats, AllocatedOf)
  }

  /** The total of two lists put together is the sum of their totals. */
  lemma CalculateTotalAppend(a: seq<Category>, b: seq<Category>)
    ensures CalculateTotal(a + b) == CalculateTotal(a) + CalculateTotal(b)
  {
    SumOfAppend(a, b, AllocatedOf);
  }

  /** With no negative allocation the total is not negative either. */
  lemma CalculateTotalNonNegative(cats: seq<Category>)
    requires forall c :: c in cats ==> c.allocatedCents >= 0
    ensures CalculateTotal(cats) >= 0
  {
    SumOfNonNegative(cats, AllocatedOf);
  }

  // ---------------------------------------------------------------------
  // Grouping

  const Ungrouped := "Ungrouped"

  /** `category.category_group || 'Ungrouped'`: an absent or empty group
      name falls back to 'Ungrouped', so no group is unnamed. */
  function GroupName(c: Category): (r: string)
    ensures r != ""
    ensures c.group.Some? && c.group.value != "" ==> r == c.group.value
  {
    if c.group.None? || c.group.value == "" then Ungrouped else c.group.value
  }

  /** groupCategories: each category is pushed onto the list of its group,
      a list being created the first time its group is seen. `keys` is the
      object's key order. */
  method GroupCategories(cats: seq<Category>) returns (groups: map<string, seq<Category>>, keys: seq<string>)
    ensures GroupedAs(groups, keys, cats, GroupName)
  {
    groups, keys := map[], [];
    for i := 0 to |cats|
      invariant GroupedAs(groups, keys, cats[..i], GroupName)
    {
      GroupPrefixStep(groups, keys, cats, i, GroupName);
      groups, keys := Push(groups, keys, GroupName(cats[i]), cats[i]);
    }
    assert cats[..|cats|] == cats;
  }

  /** Every category lands in the group of its own name and in no other;
      no group is empty; each group keeps the input order; and the groups
      laid end to end hold exactly the input and the same total. */
  lemma GroupCategoriesSound(cats: seq<Category>)
    ensures forall c :: c in cats ==>
      GroupName(c) in GroupKeys(cats, GroupName) && c in Members(cats, GroupName, GroupName(c))
    ensures forall k, c :: c in Members(cats, GroupName, k) ==> GroupName(c) == k
    ensures forall k :: k in GroupKeys(cats, GroupName) ==>
      Members(cats, GroupName, k) != [] && OrderKept(cats, Members(cats, GroupName, k))
    ensures multiset(Sections(cats, GroupName, GroupKeys(cats, GroupName))) == multiset(cats)
    ensures CalculateTotal(Sections(cats, GroupName, GroupKeys(cats, GroupName))) == CalculateTotal(cats)
  {
    forall c | c in cats
      ensures GroupName(c) in GroupKeys(cats, GroupName) && c in Members(cats, GroupName, GroupName(c))
    {
      GroupKeysCover(cats, GroupName, c);
      FilterKeeps(cats, KeyIs(GroupName, GroupName(c)), c);
    }
    forall k | k in GroupKeys(cats, GroupName)
      ensures Members(cats, GroupName, k) != [] && OrderKept(cats, Members(cats, GroupName, k))
    {
      GroupKeysNonEmpty(cats, GroupName, k);
      FilterKeepsOrder(cats, KeyIs(GroupName, k));
    }
    GroupsPartition(cats, GroupName, AllocatedOf);
  }

  // ---------------------------------------------------------------------
  // Sorting

  datatype CategorySortKey = ByName | ByAllocated | ByOrder

  function NameKey(c: Category): string { Lower(c.name) }
  function AllocatedKey(c: Category): int { c.allocatedCents }
  function OrderKey(c: Category): int { c.order }

  /** The comparator sortCategories hands to Array.prototype.sort. */
  function CategoryLe(sortBy: CategorySortKey, descending: bool): (Category, Category) -> bool
  {
    match sortBy
    case ByName => KeyLe(NameKey, LexLess, descending)
    case ByAllocated => KeyLe(AllocatedKey, IntLess, descending)
    case ByOrder => KeyLe(OrderKey, IntLess, descending)
  }

  /** sortCategories: a sorted copy; the input stays as it was. */
  method SortCategories(cats: seq<Category>, sortBy: CategorySortKey, descending: bool) returns (r: seq<Category>)
    ensures r == SortBy(cats, CategoryLe(sortBy, descending))
  {
    r := SortedCopy(cats, CategoryLe(sortBy, descending));
  }

  /** The comparator is a total preorder on categories. */
  lemma CategoryLeIsPreorder(sortBy: CategorySortKey, descending: bool)
    ensures TotalPreorder(CategoryLe(sortBy, descending))
  {
    match sortBy {
      case ByName =>
        LexLessIsStrictTotal();
        KeyLeIsPreorder(NameKey, LexLess, descending);
      case ByAllocated =>
        KeyLeIsPreorder(AllocatedKey, IntLess, descending);
      case ByOrder =>
        KeyLeIsPreorder(OrderKey, IntLess, descending);
    }
  }

  /** The copy holds the same categories, ordered by the chosen key,
      ascending, or descending when flagged. */
  lemma SortCategoriesSound(cats: seq<Category>, sortBy: CategorySortKey, descending: bool)
    ensures var r := SortBy(cats, CategoryLe(sortBy, descending));
      multiset(r) == multiset(cats) && SortedBy(r, CategoryLe(sortBy, descending))
  {
    var le := CategoryLe(sortBy, descending);
    SortByPermutes(cats, le);
    CategoryLeIsPreorder(sortBy, descending);
    SortBySorted(cats, le);
  }

  /** Sorting by amount puts the amounts in order. */
  lemma SortByAllocatedOrdered(cats: seq<Category>, descending: bool)
    ensures var r := SortBy(cats, CategoryLe(ByAllocated, descending));
      forall i, j :: 0 <= i < j < |r| ==>
        if descending then r[i].allocatedCents >= r[j].allocatedCents
        else r[i].allocatedCents <= r[j].allocatedCents
  {
    var le := CategoryLe(ByAllocated, descending);
    SortCategoriesSound(cats, ByAllocated, descending);
    KeyLeIsPreorder(AllocatedKey, IntLess, descending);
  }

  // ---------------------------------------------------------------------
  // Search

  /** `field?.toLowerCase().includes(term)`: an absent field never matches. */
  predicate FieldHas(field: Option<string>, term: string)
  {
    field.Some? && Contains(Lower(field.value), term)
  }

  predicate MatchesTerm(c: Category, term: string)
  {
    Contains(Lower(c.name), term) || FieldHas(c.description, term) || FieldHas(c.group, term)
  }

  function TermMatch(term: string): Category -> bool
  {
    (c: Category) => MatchesTerm(c, term)
  }

  /** filterCategories: an empty term hands back the list itself. */
  function FilterCategories(cats: seq<Category>, searchTerm: string): (r: seq<Category>)
    ensures searchTerm == "" ==> r == cats
    ensures forall c :: c in r ==> c in cats
  {
    if searchTerm == "" then cats else Filter(cats, TermMatch(Lower(searchTerm)))
  }

  /** A non-empty term keeps exactly the categories whose name, description
      or group contains it, ignoring case, in their input order. */
  lemma FilterCategoriesSound(cats: seq<Category>, searchTerm: string)
    requires searchTerm != ""
    ensures forall c :: c in FilterCategories(cats, searchTerm) <==> c in cats && MatchesTerm(c, Lower(searchTerm))
    ensures OrderKept(cats, FilterCategories(cats, searchTerm))
  {
    var p := TermMatch(Lower(searchTerm));
    forall c | c in cats && MatchesTerm(c, Lower(searchTerm)) ensures c in Filter(cats, p) {
      FilterKeeps(cats, p, c);
    }
    FilterKeepsOrder(cats, p);
  }

  // ---------------------------------------------------------------------
  // Form check

  /** The fields of a partial category the check reads; an absent field is None. */
  datatype CategoryDraft = CategoryDraft(name: Option<string>, allocatedCents: Option<int>, order: Option<int>)

  /** The checks, in the order they run. */
  datatype CategoryCheck = NameRequired | NameTooLong | AllocatedNegative | OrderNegative

  const MaxNameLength := 255

  function Rank(c: CategoryCheck): nat
  {
    match c
    case NameRequired => 0
    case NameTooLong => 1
    case AllocatedNegative => 2
    case OrderNegative => 3
  }

  function CategoryMessage(c: CategoryCheck): string
  {
    match c
    case NameRequired => "Category name is required"
    case NameTooLong => "Category name must be less than 255 characters"
    case AllocatedNegative => "Allocated amount cannot be negative"
    case OrderNegative => "Order cannot be negative"
  }

  function CategoryMessages(cs: seq<CategoryCheck>): (r: seq<string>)
    ensures |r| == |cs|
    ensures forall i :: 0 <= i < |cs| ==> r[i] == CategoryMessage(cs[i])
  {
    if cs == [] then [] else CategoryMessages(cs[..|cs| - 1]) + [CategoryMessage(cs[|cs| - 1])]
  }

  /** A missing or empty name is falsy; one of white space trims to nothing. */
  predicate NameMissing(name: Option<string>)
  {
    name.None? || JsBlank(name.value)
  }

  /** The check fails on the draft; an absent amount or order is not checked. */
  predicate Fails(cat: CategoryDraft, c: CategoryCheck)
  {
    match c
    case NameRequired => NameMissing(cat.name)
    case NameTooLong => cat.name.Some? && |cat.name.value| > MaxNameLength
    case AllocatedNegative => cat.allocatedCents.Some? && cat.allocatedCents.value < 0
    case OrderNegative => cat.order.Some? && cat.order.value < 0
  }

  /** A draft every check passes. */
  predicate CategoryValid(cat: CategoryDraft)
  {
    cat.name.Some? && !JsBlank(cat.name.value) && |cat.name.value| <= MaxNameLength
    && (cat.allocatedCents.None? || cat.allocatedCents.value >= 0)
    && (cat.order.None? || cat.order.value >= 0)
  }

  function IfFails(cat: CategoryDraft, c: CategoryCheck): seq<CategoryCheck>
  {
    if Fails(cat, c) then [c] else []
  }

  /** The checks that fail, in the order they run. */
  function FailedChecks(cat: CategoryDraft): (r: seq<CategoryCheck>)
    ensures forall c :: c in r <==> Fails(cat, c)
  {
    IfFails(cat, NameRequired) + IfFails(cat, NameTooLong)
    + IfFails(cat, AllocatedNegative) + IfFails(cat, OrderNegative)
  }

  function MessageIfFails(cat: CategoryDraft, c: CategoryCheck): seq<string>
  {
    if Fails(cat, c) then [CategoryMessage(c)] else []
  }

  /** validateCategory: each failed check pushes its message. */
  method ValidateCategory(cat: CategoryDraft) returns (errors: seq<string>)
    ensures errors == CategoryMessages(FailedChecks(cat))
  {
    errors := [];
    if cat.name.None? || cat.name.value == "" || JsBlank(cat.name.value) {
      errors := errors + [CategoryMessage(NameRequired)];
    }
    ghost var e1 := errors;
    assert e1 == MessageIfFails(cat, NameRequired);
    if cat.name.Some? && cat.name.value != "" && |cat.name.value| > 255 {
      errors := errors + [CategoryMessage(NameTooLong)];
    }
    ghost var e2 := errors;
    assert e2 == e1 + MessageIfFails(cat, NameTooLong);
    if cat.allocatedCents.Some? && cat.allocatedCents.value < 0 {
      errors := errors + [CategoryMessage(AllocatedNegative)];
    }
    ghost var e3 := errors;
    assert e3 == e2 + MessageIfFails(cat, AllocatedNegative);
    if cat.order.Some? && cat.order.value < 0 {
      errors := errors + [CategoryMessage(OrderNegative)];
    }
    assert errors == e3 + MessageIfFails(cat, OrderNegative);
    CategoryMessagesOfFailed(cat);
  }

  lemma {:induction false} CategoryMessagesAppend(a: seq<CategoryCheck>, b: seq<CategoryCheck>)
    ensures CategoryMessages(a + b) == CategoryMessages(a) + CategoryMessages(b)
  {
    if b != [] {
      var init, c := b[..|b| - 1], b[|b| - 1];
      assert b == init + [c];
      assert a + b == (a + init) + [c];
      CategoryMessagesAppend(a, init);
    } else {
      assert a + b == a;
    }
  }

  lemma MessagesOfIfFails(cat: CategoryDraft, c: CategoryCheck)
    ensures CategoryMessages(IfFails(cat, c)) == MessageIfFails(cat, c)
  {
    if Fails(cat, c) {
      assert IfFails(cat, c)[..0] == [];
    }
  }

  /** The messages of the failed checks, check by check. */
  lemma CategoryMessagesOfFailed(cat: CategoryDraft)
    ensures CategoryMessages(FailedChecks(cat))
            == MessageIfFails(cat, NameRequired) + MessageIfFails(cat, NameTooLong)
               + MessageIfFails(cat, AllocatedNegative) + MessageIfFails(cat, OrderNegative)
  {
    var a, b, c, d := IfFails(cat, NameRequired), IfFails(cat, NameTooLong),
                      IfFails(cat, AllocatedNegative), IfFails(cat, OrderNegative);
    CategoryMessagesAppend(a + b + c, d);
    CategoryMessagesAppend(a + b, c);
    CategoryMessagesAppend(a, b);
    MessagesOfIfFails(cat, NameRequired);
    MessagesOfIfFails(cat, NameTooLong);
    MessagesOfIfFails(cat, AllocatedNegative);
    MessagesOfIfFails(cat, OrderNegative);
  }

  /** No message exactly when the draft is valid, and the failed checks
      report in the order they run. */
  lemma FailedChecksSound(cat: CategoryDraft)
    ensures FailedChecks(cat) == [] <==> CategoryValid(cat)
    ensures forall i, j :: 0 <= i < j < |FailedChecks(cat)| ==> Rank(FailedChecks(cat)[i]) < Rank(FailedChecks(cat)[j])
  {
    NoneFailedValid(cat);
    FailedChecksRanked(cat);
  }

  lemma NoneFailedValid(cat: CategoryDraft)
    ensures FailedChecks(cat) == [] <==> CategoryValid(cat)
  {
    if FailedChecks(cat) == [] {
      assert !Fails(cat, NameRequired) && !Fails(cat, NameTooLong);
    }
  }

  lemma FailedChecksRanked(cat: CategoryDraft)
    ensures Ranked(FailedChecks(cat))
  {
    var f1, f2, f3, f4 := Fails(cat, NameRequired), Fails(cat, NameTooLong),
                          Fails(cat, AllocatedNegative), Fails(cat, OrderNegative);
    assert FailedChecks(cat) == Flagged(f1, f2, f3, f4);
    FlaggedRanked(f1, f2, f3, f4);
  }

  /** The checks whose flags are set, in run order. */
  function Flagged(f1: bool, f2: bool, f3: bool, f4: bool): seq<CategoryCheck>
  {
    (if f1 then [NameRequired] else []) + (if f2 then [NameTooLong] else [])
    + (if f3 then [AllocatedNegative] else []) + (if f4 then [OrderNegative] else [])
  }

  lemma FlaggedRanked(f1: bool, f2: bool, f3: bool, f4: bool)
    ensures Ranked(Flagged(f1, f2, f3, f4))
  {
    var a := if f1 then [NameRequired] else [];
    RankedSnocIf(a, NameTooLong, f2);
    var b := a + (if f2 then [NameTooLong] else []);
    RankedSnocIf(b, AllocatedNegative, f3);
    var c := b + (if f3 then [AllocatedNegative] else []);
    RankedSnocIf(c, OrderNegative, f4);
  }

  /** Checks listed in strictly increasing run order. */
  ghost predicate Ranked(r: seq<CategoryCheck>)
  {
    forall i, j :: 0 <= i < j < |r| ==> Rank(r[i]) < Rank(r[j])
  }

  ghost predicate RanksBelow(r: seq<CategoryCheck>, n: nat)
  {
    forall i :: 0 <= i < |r| ==> Rank(r[i]) < n
  }

  lemma RankedSnocIf(r: seq<CategoryCheck>, c: CategoryCheck, f: bool)
    requires Ranked(r) && RanksBelow(r, Rank(c))
    ensures var t := r + (if f then [c] else []); Ranked(t) && RanksBelow(t, Rank(c) + 1)
  {
  }

  /** A draft carrying only a name passes when the name is neither blank
      nor too long: an absent amount or order is not checked. */
  lemma NameOnlyDraft(name: string)
    requires !JsBlank(name) && |name| <= MaxNameLength
    ensures FailedChecks(CategoryDraft(Some(name), None, None)) == []
  {
    FailedChecksSound(CategoryDraft(Some(name), None, None));
  }
}
