/** The list of budget categories on the budget page: which categories are
    shown and in what order, the rows handed to the list (group headers
    followed by their categories, or the categories alone), and the set of
    collapsed groups the headers toggle. */
module CategoryList {
  import opened Common
  import opened Sorting
  import opened Grouping
  import CategoryUtils

  /** A category as the list receives it. */
  datatype ListCategory = ListCategory(
    id: Option<int>,
    name: string,
    allocatedCents: int,
    spentCents: Option<int>,
    order: int,
    description: Option<string>,
    group: Option<string>,
    isActive: int)

  function AllocatedOf(c: ListCategory): int { c.allocatedCents }

  /** The sum of the allocated amounts of some categories. */
  function TotalAllocated(cats: seq<ListCategory>): int
  {
    SumOf(cats, AllocatedOf)
  }

  // ---------------------------------------------------------------------
  // Filter and sort

  /** Active, and (for a non-empty search term) named with the term in it,
      ignoring case. */
  predicate Shown(c: ListCategory, searchTerm: string)
  {
    c.isActive == 1 && (searchTerm == "" || Contains(Lower(c.name), Lower(searchTerm)))
  }

  function ShownBy(searchTerm: string): ListCategory -> bool
  {
    (c: ListCategory) => Shown(c, searchTerm)
  }

  function NameKey(c: ListCategory): string { Lower(c.name) }
  function AllocatedKey(c: ListCategory): int { c.allocatedCents }
  function OrderKey(c: ListCategory): int { c.order }

  /** The comparator handed to `filtered.sort`. */
  function ListLe(sortBy: CategoryUtils.CategorySortKey, sortDesc: bool): (ListCategory, ListCategory) -> bool
  {
    match sortBy
    case ByName => KeyLe(NameKey, LexLess, sortDesc)
    case ByAllocated => KeyLe(AllocatedKey, IntLess, sortDesc)
    case ByOrder => KeyLe(OrderKey, IntLess, sortDesc)
  }

  /** The categories shown, in the order shown. */
  function Visible(cats: seq<ListCategory>, searchTerm: string, sortBy: CategoryUtils.CategorySortKey, sortDesc: bool): seq<ListCategory>
  {
    SortBy(Filter(cats, ShownBy(searchTerm)), ListLe(sortBy, sortDesc))
  }

  /** filteredCategories: the categories that pass the filter, copied and
      then sorted in place. */
  method FilteredCategories(cats: seq<ListCategory>, searchTerm: string, sortBy: CategoryUtils.CategorySortKey, sortDesc: bool)
    returns (r: seq<ListCategory>)
    ensures r == Visible(cats, searchTerm, sortBy, sortDesc)
  {
    var filtered := Filter(cats, ShownBy(searchTerm));
    if |filtered| == 0 {
      return [];
    }
    var a := new ListCategory[|filtered|](i requires 0 <= i < |filtered| => filtered[i]);
    assert a[..] == filtered;
    SortInPlace(a, ListLe(sortBy, sortDesc));
    r := a[..];
  }

  lemma ListLeIsPreorder(sortBy: CategoryUtils.CategorySortKey, sortDesc: bool)
    ensures TotalPreorder(ListLe(sortBy, sortDesc))
  {
    match sortBy {
      case ByName =>
        LexLessIsStrictTotal();
        KeyLeIsPreorder(NameKey, LexLess, sortDesc);
      case ByAllocated =>
        KeyLeIsPreorder(AllocatedKey, IntLess, sortDesc);
      case ByOrder =>
        KeyLeIsPreorder(OrderKey, IntLess, sortDesc);
    }
  }

  /** Exactly the active categories that match the term are shown, each as
      often as it is given, ordered by the chosen key. */
  lemma VisibleSound(cats: seq<ListCategory>, searchTerm: string, sortBy: CategoryUtils.CategorySortKey, sortDesc: bool)
    ensures var r := Visible(cats, searchTerm, sortBy, sortDesc);
      multiset(r) == multiset(Filter(cats, ShownBy(searchTerm)))
      && (forall c :: c in r <==> c in cats && Shown(c, searchTerm))
      && SortedBy(r, ListLe(sortBy, sortDesc))
  {
    var p, le := ShownBy(searchTerm), ListLe(sortBy, sortDesc);
    var f := Filter(cats, p);
    SortByPermutes(f, le);
    ListLeIsPreorder(sortBy, sortDesc);
    SortBySorted(f, le);
    var r := SortBy(f, le);
    forall c ensures c in r <==> c in cats && Shown(c, searchTerm) {
      assert c in r <==> c in multiset(r);
      assert c in f <==> c in multiset(f);
      if c in cats && Shown(c, searchTerm) {
        FilterKeeps(cats, p, c);
      }
    }
  }

  /** With no search term every active category is shown, and no other. */
  lemma NoTermShowsActive(cats: seq<ListCategory>, sortBy: CategoryUtils.CategorySortKey, sortDesc: bool)
    ensures forall c :: c in Visible(cats, "", sortBy, sortDesc) <==> c in cats && c.isActive == 1
  {
    VisibleSound(cats, "", sortBy, sortDesc);
  }

  // ---------------------------------------------------------------------
  // Display rows

  datatype GroupBy = NoGrouping | ByCategoryGroup

  /** One row of the list: a category, or a group header. */
  datatype Item =
    | CategoryItem(category: ListCategory)
    | GroupItem(name: string, categories: seq<ListCategory>, totalAllocated: int, collapsed: bool)

  const Ungrouped := "Ungrouped"

  /** `cat.category_group || 'Ungrouped'` */
  function GroupKey(c: ListCategory): string
  {
    if c.group.None? || c.group.value == "" then Ungrouped else c.group.value
  }

  predicate InNamedGroup(c: ListCategory) { GroupKey(c) != Ungrouped }

  /** The categories that go into named groups, and those that go last. */
  function NamedRows(filtered: seq<ListCategory>): seq<ListCategory> { Filter(filtered, InNamedGroup) }
  function UngroupedRows(filtered: seq<ListCategory>): seq<ListCategory> { Members(filtered, GroupKey, Ungrouped) }

  function Wrap(cats: seq<ListCategory>): (r: seq<Item>)
    ensures |r| == |cats|
    ensures forall i :: 0 <= i < |cats| ==> r[i] == CategoryItem(cats[i])
  {
    if cats == [] then [] else Wrap(cats[..|cats| - 1]) + [CategoryItem(cats[|cats| - 1])]
  }

  /** A header, then its categories unless the group is collapsed. */
  function Block(name: string, cats: seq<ListCategory>, collapsedGroups: set<string>): seq<Item>
  {
    [GroupItem(name, cats, TotalAllocated(cats), name in collapsedGroups)]
    + (if name in collapsedGroups then [] else Wrap(cats))
  }

  /** The blocks of the named groups ks, in that order. */
  function Blocks(rows: seq<ListCategory>, ks: seq<string>, collapsedGroups: set<string>): seq<Item>
  {
    if ks == [] then []
    else Blocks(rows, ks[..|ks| - 1], collapsedGroups) + Block(ks[|ks| - 1], Members(rows, GroupKey, ks[|ks| - 1]), collapsedGroups)
  }

  /** The rows of the list: the categories themselves when not grouping;
      otherwise a block per named group, in the order the groups first
      appear, and last the 'Ungrouped' block when it has categories. */
  function Display(filtered: seq<ListCategory>, groupBy: GroupBy, collapsedGroups: set<string>): seq<Item>
  {
    if groupBy == NoGrouping then Wrap(filtered)
    else
      var named, rest := NamedRows(filtered), UngroupedRows(filtered);
      Blocks(named, GroupKeys(named, GroupKey), collapsedGroups)
      + (if rest == [] then [] else Block(Ungrouped, rest, collapsedGroups))
  }

  /** The grouping loop's step: a category joins the ungrouped list or the
      group of its key. */
  lemma DisplayGroupStep(groups: map<string, seq<ListCategory>>, keys: seq<string>, ungrouped: seq<ListCategory>,
                         filtered: seq<ListCategory>, i: nat)
    requires i < |filtered|
    requires GroupedAs(groups, keys, NamedRows(filtered[..i]), GroupKey)
    requires ungrouped == UngroupedRows(filtered[..i])
    ensures var c := filtered[i]; var g := GroupKey(c);
      if g == Ungrouped then
        GroupedAs(groups, keys, NamedRows(filtered[..i + 1]), GroupKey)
        && ungrouped + [c] == UngroupedRows(filtered[..i + 1])
      else
        GroupedAs(groups[g := (if g in groups then groups[g] else []) + [c]],
                  if g in groups then keys else keys + [g], NamedRows(filtered[..i + 1]), GroupKey)
        && ungrouped == UngroupedRows(filtered[..i + 1])
  {
    var c := filtered[i];
    FilterPrefix(filtered, i, InNamedGroup);
    FilterPrefix(filtered, i, KeyIs(GroupKey, Ungrouped));
    if GroupKey(c) != Ungrouped {
      GroupStep(groups, keys, NamedRows(filtered[..i]), c, GroupKey);
    } else {
      assert NamedRows(filtered[..i + 1]) == NamedRows(filtered[..i]);
    }
  }

  /** The header loop's step. */
  lemma BlocksPrefix(rows: seq<ListCategory>, ks: seq<string>, j: nat, collapsedGroups: set<string>)
    requires j < |ks|
    ensures Blocks(rows, ks[..j + 1], collapsedGroups)
            == Blocks(rows, ks[..j], collapsedGroups) + Block(ks[j], Members(rows, GroupKey, ks[j]), collapsedGroups)
  {
    assert ks[..j + 1][..j] == ks[..j];
  }

  /** The `forEach` that sorts the shown categories into the named groups
      and the ungrouped list. */
  method SplitByGroup(filtered: seq<ListCategory>)
    returns (groups: map<string, seq<ListCategory>>, keys: seq<string>, ungrouped: seq<ListCategory>)
    ensures GroupedAs(groups, keys, NamedRows(filtered), GroupKey)
    ensures ungrouped == UngroupedRows(filtered)
  {
    groups, keys, ungrouped := map[], [], [];
    for i := 0 to |filtered|
      invariant GroupedAs(groups, keys, NamedRows(filtered[..i]), GroupKey)
      invariant ungrouped == UngroupedRows(filtered[..i])
    {
      var c := filtered[i];
      DisplayGroupStep(groups, keys, ungrouped, filtered, i);
      var groupKey := GroupKey(c);
      if groupKey == Ungrouped {
        ungrouped := ungrouped + [c];
      } else {
        groups, keys := Push(groups, keys, groupKey, c);
      }
    }
    assert filtered[..|filtered|] == filtered;
  }

  /** The `Object.entries(groups).forEach`: a header per group, followed by
      its categories unless the group is collapsed. */
  method EmitGroups(named: seq<ListCategory>, groups: map<string, seq<ListCategory>>, keys: seq<string>,
                    collapsedGroups: set<string>) returns (items: seq<Item>)
    requires GroupedAs(groups, keys, named, GroupKey)
    ensures items == Blocks(named, keys, collapsedGroups)
  {
    items := [];
    for j := 0 to |keys|
      invariant items == Blocks(named, keys[..j], collapsedGroups)
    {
      var groupName := keys[j];
      var groupCategories := groups[groupName];
      BlocksPrefix(named, keys, j, collapsedGroups);
      assert groupCategories == Members(named, GroupKey, groupName);
      ghost var before := items;
      var group := GroupItem(groupName, groupCategories, TotalAllocated(groupCategories), groupName in collapsedGroups);
      items := items + [group];
      if !group.collapsed {
        items := items + Wrap(groupCategories);
      }
      assert items == before + Block(groupName, groupCategories, collapsedGroups);
    }
    assert keys[..|keys|] == keys;
  }

  /** displayItems: the categories as they are when not grouping; otherwise
      the named groups' blocks and then, if any, the ungrouped block. */
  method DisplayItems(filtered: seq<ListCategory>, groupBy: GroupBy, collapsedGroups: set<string>) returns (items: seq<Item>)
    ensures items == Display(filtered, groupBy, collapsedGroups)
  {
    if groupBy == NoGrouping {
      return Wrap(filtered);
    }
    var groups, keys, ungrouped := SplitByGroup(filtered);
    assert keys == GroupKeys(NamedRows(filtered), GroupKey);
    var named := EmitGroups(NamedRows(filtered), groups, keys, collapsedGroups);
    var rest := EmitUngrouped(ungrouped, collapsedGroups);
    items := named + rest;
  }

  /** The 'Ungrouped' header and its categories, pushed only when there
      are any. */
  method EmitUngrouped(ungrouped: seq<ListCategory>, collapsedGroups: set<string>) returns (items: seq<Item>)
    ensures items == if ungrouped == [] then [] else Block(Ungrouped, ungrouped, collapsedGroups)
  {
    items := [];
    if |ungrouped| > 0 {
      var ungroupedGroup := GroupItem(Ungrouped, ungrouped, TotalAllocated(ungrouped), Ungrouped in collapsedGroups);
      items := items + [ungroupedGroup];
      if !ungroupedGroup.collapsed {
        items := items + Wrap(ungrouped);
      }
    }
  }

  // ---------------------------------------------------------------------
  // What the rows hold

  /** The names of the headers among the rows, in order. */
  function HeaderNames(items: seq<Item>): seq<string>
  {
    if items == [] then []
    else HeaderNames(items[..|items| - 1]) + (if items[|items| - 1].GroupItem? then [items[|items| - 1].name] else [])
  }

  /** The categories among the rows, in order. */
  function CategoriesOf(items: seq<Item>): seq<ListCategory>
  {
    if items == [] then []
    else CategoriesOf(items[..|items| - 1]) + (if items[|items| - 1].CategoryItem? then [items[|items| - 1].category] else [])
  }

  lemma {:induction false} HeaderNamesAppend(a: seq<Item>, b: seq<Item>)
    ensures HeaderNames(a + b) == HeaderNames(a) + HeaderNames(b)
  {
    if b == [] {
      assert a + b == a;
    } else {
      assert (a + b)[..|a + b| - 1] == a + b[..|b| - 1];
      HeaderNamesAppend(a, b[..|b| - 1]);
    }
  }

  lemma {:induction false} CategoriesOfAppend(a: seq<Item>, b: seq<Item>)
    ensures CategoriesOf(a + b) == CategoriesOf(a) + CategoriesOf(b)
  {
    if b == [] {
      assert a + b == a;
    } else {
      assert (a + b)[..|a + b| - 1] == a + b[..|b| - 1];
      CategoriesOfAppend(a, b[..|b| - 1]);
    }
  }

  /** Category rows hold no header and give back the categories. */
  lemma {:induction false} WrapContents(cats: seq<ListCategory>)
    ensures HeaderNames(Wrap(cats)) == []
    ensures CategoriesOf(Wrap(cats)) == cats
  {
    if cats != [] {
      var init := cats[..|cats| - 1];
      WrapContents(init);
      assert Wrap(cats)[..|cats| - 1] == Wrap(init);
      assert cats == init + [cats[|cats| - 1]];
    }
  }

  /** A block holds one header, its own, and its categories unless collapsed. */
  lemma BlockContents(name: string, cats: seq<ListCategory>, collapsedGroups: set<string>)
    ensures HeaderNames(Block(name, cats, collapsedGroups)) == [name]
    ensures CategoriesOf(Block(name, cats, collapsedGroups)) == if name in collapsedGroups then [] else cats
  {
    var h := [GroupItem(name, cats, TotalAllocated(cats), name in collapsedGroups)];
    var tail := if name in collapsedGroups then [] else Wrap(cats);
    HeaderNamesAppend(h, tail);
    CategoriesOfAppend(h, tail);
    WrapContents(cats);
    assert h[..0] == [];
  }

  /** The blocks of ks carry the headers ks, in that order ... */
  lemma {:induction false} BlocksHeaderNames(rows: seq<ListCategory>, ks: seq<string>, collapsedGroups: set<string>)
    ensures HeaderNames(Blocks(rows, ks, collapsedGroups)) == ks
  {
    if ks != [] {
      var init, k := ks[..|ks| - 1], ks[|ks| - 1];
      BlocksHeaderNames(rows, init, collapsedGroups);
      HeaderNamesBlockSnoc(Blocks(rows, init, collapsedGroups), k, Members(rows, GroupKey, k), collapsedGroups);
      assert init + [k] == ks;
    }
  }

  lemma HeaderNamesBlockSnoc(prev: seq<Item>, k: string, cats: seq<ListCategory>, collapsedGroups: set<string>)
    ensures HeaderNames(prev + Block(k, cats, collapsedGroups)) == HeaderNames(prev) + [k]
  {
    HeaderNamesAppend(prev, Block(k, cats, collapsedGroups));
    BlockContents(k, cats, collapsedGroups);
  }

  /** ... and, with nothing collapsed, the sections of ks. */
  lemma {:induction false} BlocksCategories(rows: seq<ListCategory>, ks: seq<string>)
    ensures CategoriesOf(Blocks(rows, ks, {})) == Sections(rows, GroupKey, ks)
  {
    if ks != [] {
      var init, k := ks[..|ks| - 1], ks[|ks| - 1];
      BlocksCategories(rows, init);
      var b := Block(k, Members(rows, GroupKey, k), {});
      CategoriesOfAppend(Blocks(rows, init, {}), b);
      BlockContents(k, Members(rows, GroupKey, k), {});
    }
  }

  /** Every header of the blocks of ks names one of ks, lists exactly the
      rows of that group, totals them, and is collapsed exactly when its
      name is in the collapsed set. */
  lemma {:induction false} BlocksHeaders(rows: seq<ListCategory>, ks: seq<string>, collapsedGroups: set<string>)
    ensures forall it :: it in Blocks(rows, ks, collapsedGroups) && it.GroupItem? ==>
      it.name in ks && it.categories == Members(rows, GroupKey, it.name)
      && it.totalAllocated == TotalAllocated(it.categories) && it.collapsed == (it.name in collapsedGroups)
  {
    if ks != [] {
      var init, k := ks[..|ks| - 1], ks[|ks| - 1];
      BlocksHeaders(rows, init, collapsedGroups);
      var cats := Members(rows, GroupKey, k);
      forall it | it in Wrap(cats) ensures it.CategoryItem? {
        var i :| 0 <= i < |cats| && Wrap(cats)[i] == it;
      }
      forall it | it in Blocks(rows, init, collapsedGroups) ensures it in Blocks(rows, ks, collapsedGroups) {
      }
      assert forall x :: x in init ==> x in ks;
    }
  }

  /** A key of the named rows is never 'Ungrouped'. */
  lemma NamedKeysNotUngrouped(filtered: seq<ListCategory>)
    ensures Ungrouped !in GroupKeys(NamedRows(filtered), GroupKey)
  {
    var named := NamedRows(filtered);
    FilterNone(named, KeyIs(GroupKey, Ungrouped));
    GroupKeysExactly(named, GroupKey, Ungrouped);
  }

  /** Grouping by a named key among the named rows is grouping by it among
      all rows. */
  lemma NamedMembers(filtered: seq<ListCategory>, k: string)
    requires k != Ungrouped
    ensures Members(NamedRows(filtered), GroupKey, k) == Members(filtered, GroupKey, k)
  {
    FilterOfFilter(filtered, InNamedGroup, KeyIs(GroupKey, k));
  }

  /** Not grouping: one row per shown category, in the same order. */
  lemma DisplayUngroupedList(filtered: seq<ListCategory>, collapsedGroups: set<string>)
    ensures Display(filtered, NoGrouping, collapsedGroups) == Wrap(filtered)
    ensures CategoriesOf(Display(filtered, NoGrouping, collapsedGroups)) == filtered
  {
    WrapContents(filtered);
  }

  /** Grouping: each group has one header; the named groups come in the
      order they first appear and the 'Ungrouped' header, present exactly
      when some category has no group, comes last. */
  lemma DisplayHeaderOrder(filtered: seq<ListCategory>, collapsedGroups: set<string>)
    ensures var named := NamedRows(filtered);
      HeaderNames(Display(filtered, ByCategoryGroup, collapsedGroups))
      == GroupKeys(named, GroupKey) + (if UngroupedRows(filtered) == [] then [] else [Ungrouped])
    ensures Distinct(HeaderNames(Display(filtered, ByCategoryGroup, collapsedGroups)))
  {
    var named, rest := NamedRows(filtered), UngroupedRows(filtered);
    var ks := GroupKeys(named, GroupKey);
    var tail := if rest == [] then [] else Block(Ungrouped, rest, collapsedGroups);
    var hs := if rest == [] then [] else [Ungrouped];
    assert Display(filtered, ByCategoryGroup, collapsedGroups) == Blocks(named, ks, collapsedGroups) + tail;
    BlocksHeaderNames(named, ks, collapsedGroups);
    HeaderNamesAppend(Blocks(named, ks, collapsedGroups), tail);
    UngroupedHeader(rest, collapsedGroups);
    NamedKeysNotUngrouped(filtered);
    DistinctSnocAbsent(ks, hs);
  }

  lemma UngroupedHeader(rest: seq<ListCategory>, collapsedGroups: set<string>)
    ensures HeaderNames(if rest == [] then [] else Block(Ungrouped, rest, collapsedGroups))
            == if rest == [] then [] else [Ungrouped]
  {
    if rest != [] {
      BlockContents(Ungrouped, rest, collapsedGroups);
    }
  }

  /** Grouping: every header lists exactly the shown categories of its
      group, totals their allocations and is collapsed exactly when its
      name is in the collapsed set. */
  lemma DisplayHeaderContents(filtered: seq<ListCategory>, collapsedGroups: set<string>)
    ensures forall it :: it in Display(filtered, ByCategoryGroup, collapsedGroups) && it.GroupItem? ==>
      it.categories == Members(filtered, GroupKey, it.name)
      && it.totalAllocated == TotalAllocated(it.categories) && it.collapsed == (it.name in collapsedGroups)
  {
    var named, rest := NamedRows(filtered), UngroupedRows(filtered);
    var blocks := Blocks(named, GroupKeys(named, GroupKey), collapsedGroups);
    var tail := if rest == [] then [] else Block(Ungrouped, rest, collapsedGroups);
    assert Display(filtered, ByCategoryGroup, collapsedGroups) == blocks + tail;
    NamedHeadersFaithful(filtered, collapsedGroups);
    UngroupedHeaderFaithful(filtered, collapsedGroups);
  }

  /** Every header lists exactly the rows of its group, totals them, and
      is collapsed exactly when its name is in the collapsed set. */
  ghost predicate HeadersFaithful(items: seq<Item>, rows: seq<ListCategory>, collapsedGroups: set<string>)
  {
    forall it :: it in items && it.GroupItem? ==>
      it.categories == Members(rows, GroupKey, it.name)
      && it.totalAllocated == TotalAllocated(it.categories) && it.collapsed == (it.name in collapsedGroups)
  }

  lemma NamedHeadersFaithful(filtered: seq<ListCategory>, collapsedGroups: set<string>)
    ensures HeadersFaithful(Blocks(NamedRows(filtered), GroupKeys(NamedRows(filtered), GroupKey), collapsedGroups),
                            filtered, collapsedGroups)
  {
    var named := NamedRows(filtered);
    var ks := GroupKeys(named, GroupKey);
    BlocksHeaders(named, ks, collapsedGroups);
    NamedKeysNotUngrouped(filtered);
    forall k | k in ks ensures Members(named, GroupKey, k) == Members(filtered, GroupKey, k) {
      NamedMembers(filtered, k);
    }
  }

  lemma UngroupedHeaderFaithful(filtered: seq<ListCategory>, collapsedGroups: set<string>)
    ensures var rest := UngroupedRows(filtered);
      HeadersFaithful(if rest == [] then [] else Block(Ungrouped, rest, collapsedGroups), filtered, collapsedGroups)
  {
    var rest := UngroupedRows(filtered);
    if rest != [] {
      var b := Block(Ungrouped, rest, collapsedGroups);
      forall it | it in Wrap(rest) ensures it.CategoryItem? {
        var i :| 0 <= i < |rest| && Wrap(rest)[i] == it;
      }
      assert forall it :: it in b ==> it == b[0] || it in Wrap(rest);
    }
  }

  /** Grouping with no group collapsed: every shown category appears among
      the rows exactly as often as it is shown. */
  lemma DisplayAllShown(filtered: seq<ListCategory>)
    ensures multiset(CategoriesOf(Display(filtered, ByCategoryGroup, {}))) == multiset(filtered)
  {
    var named, rest := NamedRows(filtered), UngroupedRows(filtered);
    var ks := GroupKeys(named, GroupKey);
    DisplayCategories(filtered);
    GroupsPartition(named, GroupKey, AllocatedOf);
    FilterComplement(filtered, InNamedGroup, KeyIs(GroupKey, Ungrouped));
    assert multiset(Sections(named, GroupKey, ks) + rest) == multiset(named) + multiset(rest);
  }

  /** With nothing collapsed, the categories among the rows are the named
      groups' sections followed by the ungrouped ones. */
  lemma DisplayCategories(filtered: seq<ListCategory>)
    ensures CategoriesOf(Display(filtered, ByCategoryGroup, {}))
            == Sections(NamedRows(filtered), GroupKey, GroupKeys(NamedRows(filtered), GroupKey)) + UngroupedRows(filtered)
  {
    var named, rest := NamedRows(filtered), UngroupedRows(filtered);
    var ks := GroupKeys(named, GroupKey);
    var blocks := Blocks(named, ks, {});
    var tail := if rest == [] then [] else Block(Ungrouped, rest, {});
    assert Display(filtered, ByCategoryGroup, {}) == blocks + tail;
    BlocksCategories(named, ks);
    CategoriesOfAppend(blocks, tail);
    if rest != [] {
      BlockContents(Ungrouped, rest, {});
    } else {
      assert CategoriesOf(tail) == [] by { assert tail == []; }
    }
  }

  // ---------------------------------------------------------------------
  // Collapsed groups

  /** The set with the name added when absent and removed when present. */
  function Toggled(s: set<string>, name: string): (r: set<string>)
    ensures name in r <==> name !in s
    ensures forall x :: x != name ==> (x in r <==> x in s)
  {
    if name in s then s - {name} else s + {name}
  }

  /** Toggling the same name twice gives back the set. */
  lemma ToggleTwice(s: set<string>, name: string)
    ensures Toggled(Toggled(s, name), name) == s
  {
  }

  /** The collapsed groups of one list. */
  class CollapsedGroups {
    var collapsed: set<string>

    /** No group starts collapsed. */
    constructor ()
      ensures collapsed == {}
    {
      collapsed := {};
    }

    /** handleGroupToggle: a copy of the set with the name added or deleted. */
    method HandleGroupToggle(groupName: string)
      modifies this
      ensures collapsed == Toggled(old(collapsed), groupName)
    {
      var newSet := collapsed;
      if groupName in newSet {
        newSet := newSet - {groupName};
      } else {
        newSet := newSet + {groupName};
      }
      collapsed := newSet;
    }
  }
}
