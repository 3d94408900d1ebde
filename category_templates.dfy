/** The category template API: templates a user keeps to start budgets
    from, with one active template per name, listing with filters and
    pages, field updates, and a soft delete that renames the budget
    categories made from the template. */
module CategoryTemplates {
  import opened Common
  import opened Sorting
  import opened BudgetDb

  /** A creation body; a created template is active. */
  datatype TemplateCreate = TemplateCreate(
    name: string, categoryType: string, icon: Option<string>, color: Option<string>,
    defaultAllocationCents: int, order: int)

  const MaxListLimit := 500

  function DuplicateTemplate(name: string): ApiError
  {
    BadRequest("Category template '" + name + "' already exists")
  }

  /** The user has an active template of that name, other than `except`. */
  predicate HasActiveNamed(templates: seq<CategoryTemplate>, userId: int, name: string, except: Option<int>)
  {
    exists t :: t in templates && t.userId == userId && t.name == name && t.isActive && except != Some(t.id)
  }

  /** No user has two active templates of one name. */
  ghost predicate ActiveNamesUnique(templates: seq<CategoryTemplate>)
  {
    forall i, j :: 0 <= i < j < |templates| && templates[i].isActive && templates[j].isActive
                   && templates[i].userId == templates[j].userId ==>
      templates[i].name != templates[j].name
  }

  /** The position of the user's template with that id. */
  function TemplateIndex(templates: seq<CategoryTemplate>, templateId: int, userId: int): (r: Option<nat>)
    ensures r.Some? ==>
      r.value < |templates| && templates[r.value].id == templateId && templates[r.value].userId == userId
    ensures r.None? ==> forall i :: 0 <= i < |templates| ==> !(templates[i].id == templateId && templates[i].userId == userId)
  {
    if templates == [] then None
    else if templates[0].id == templateId && templates[0].userId == userId then Some(0)
    else match TemplateIndex(templates[1..], templateId, userId)
         case None => None
         case Some(i) => Some(i + 1)
  }

  /** get_category_template */
  function GetTemplate(templates: seq<CategoryTemplate>, userId: int, templateId: int): (r: Result<CategoryTemplate>)
    ensures r.Ok? ==> r.value in templates && r.value.id == templateId && r.value.userId == userId
    ensures r.Err? ==> r == Err(NotFound("Category template"))
                       && forall t :: t in templates ==> !(t.id == templateId && t.userId == userId)
  {
    match TemplateIndex(templates, templateId, userId)
    case None => Err(NotFound("Category template"))
    case Some(i) => Ok(templates[i])
  }

  // ---------------------------------------------------------------------
  // Creating

  /** Adding an active template whose name the user has no active template
      of keeps names unique, and so does adding an inactive one. */
  lemma AddKeepsUnique(templates: seq<CategoryTemplate>, t: CategoryTemplate)
    requires ActiveNamesUnique(templates)
    requires t.isActive ==> !HasActiveNamed(templates, t.userId, t.name, None)
    ensures ActiveNamesUnique(templates + [t])
  {
    var s := templates + [t];
    forall i, j | 0 <= i < j < |s| && s[i].isActive && s[j].isActive && s[i].userId == s[j].userId
      ensures s[i].name != s[j].name
    {
      if j == |templates| {
        assert s[i] in templates;
      } else {
        assert s[i] == templates[i] && s[j] == templates[j];
      }
    }
  }

  /** The colour pattern ^#[0-9A-Fa-f]{6}$. */
  predicate IsHexColor(s: string)
  {
    |s| == 7 && s[0] == '#'
    && forall i :: 1 <= i < 7 ==> ('0' <= s[i] <= '9' || 'a' <= s[i] <= 'f' || 'A' <= s[i] <= 'F')
  }

  /** The field constraints of a template body, each checked when the field
      is given; the first field that breaks one, or None when all hold. */
  function TemplateFieldError(name: Option<string>, categoryType: Option<string>, icon: Option<string>,
                              color: Option<string>, defaultAllocationCents: Option<int>, order: Option<int>)
    : (r: Option<string>)
    ensures r.None? <==> (name.Some? ==> 1 <= |name.value| <= 100)
                         && (categoryType.Some? ==> categoryType.value in {"income", "expense", "savings"})
                         && (icon.Some? ==> |icon.value| <= 50)
                         && (color.Some? ==> IsHexColor(color.value))
                         && (defaultAllocationCents.Some? ==> defaultAllocationCents.value >= 0)
                         && (order.Some? ==> order.value >= 0)
  {
    if name.Some? && !(1 <= |name.value| <= 100) then Some("name")
    else if categoryType.Some? && categoryType.value !in {"income", "expense", "savings"} then Some("category_type")
    else if icon.Some? && |icon.value| > 50 then Some("icon")
    else if color.Some? && !IsHexColor(color.value) then Some("color")
    else if defaultAllocationCents.Some? && defaultAllocationCents.value < 0 then Some("default_allocation_cents")
    else if order.Some? && order.value < 0 then Some("order")
    else None
  }

  /** The constraints of a creation body, where every field but the icon
      and colour is given. */
  function CreateFieldError(req: TemplateCreate): (r: Option<string>)
    ensures r.None? <==> 1 <= |req.name| <= 100 && req.categoryType in {"income", "expense", "savings"}
                         && (req.icon.Some? ==> |req.icon.value| <= 50)
                         && (req.color.Some? ==> IsHexColor(req.color.value))
                         && req.defaultAllocationCents >= 0 && req.order >= 0
  {
    TemplateFieldError(Some(req.name), Some(req.categoryType), req.icon, req.color,
                       Some(req.defaultAllocationCents), Some(req.order))
  }

  /** create_category_template: the body is validated before the handler
      runs. */
  method CreateTemplate(db: Db, userId: int, req: TemplateCreate) returns (r: Result<CategoryTemplate>)
    requires db.Valid()
    modifies db
    ensures db.Valid()
    ensures CreateFieldError(req).Some? ==>
      r == Err(Invalid(CreateFieldError(req).value)) && db.templates == old(db.templates) && db.nextId == old(db.nextId)
    ensures CreateFieldError(req).None? && HasActiveNamed(old(db.templates), userId, req.name, None) ==>
      r == Err(DuplicateTemplate(req.name)) && db.templates == old(db.templates) && db.nextId == old(db.nextId)
    ensures CreateFieldError(req).None? && !HasActiveNamed(old(db.templates), userId, req.name, None) ==>
      var t := CategoryTemplate(old(db.nextId), userId, req.name, req.categoryType, req.icon, req.color,
                                req.defaultAllocationCents, true, req.order);
      r == Ok(t) && db.templates == old(db.templates) + [t] && db.nextId == old(db.nextId) + 1
    ensures ActiveNamesUnique(old(db.templates)) ==> ActiveNamesUnique(db.templates)
    ensures db.budgets == old(db.budgets) && db.categories == old(db.categories)
    ensures db.transactions == old(db.transactions) && db.splits == old(db.splits)
  {
    var error := CreateFieldError(req);
    if error.Some? {
      return Err(Invalid(error.value));
    }
    if HasActiveNamed(db.templates, userId, req.name, None) {
      return Err(DuplicateTemplate(req.name));
    }
    var t := CategoryTemplate(db.nextId, userId, req.name, req.categoryType, req.icon, req.color,
                              req.defaultAllocationCents, true, req.order);
    if ActiveNamesUnique(db.templates) {
      AddKeepsUnique(db.templates, t);
    }
    db.templates := db.templates + [t];
    db.nextId := db.nextId + 1;
    return Ok(t);
  }

  // ---------------------------------------------------------------------
  // Listing

  /** The list response: one page and the count of every match. The
      handler also passes limit, offset and has_more, which the
      CategoryTemplateList response model does not declare and drops. */
  datatype TemplatePage = TemplatePage(templates: seq<CategoryTemplate>, total: nat)

  /** The list filters; an empty type or search is no filter, as Python's
      `if` reads it, and the search ignores ASCII case. */
  predicate TemplateListed(t: CategoryTemplate, userId: int, activeOnly: bool, categoryType: Option<string>,
                           search: Option<string>)
  {
    t.userId == userId
    && (activeOnly ==> t.isActive)
    && (categoryType.None? || categoryType.value == "" || t.categoryType == categoryType.value)
    && (search.None? || search.value == "" || Contains(Lower(t.name), Lower(search.value)))
  }

  function TemplateListedOf(userId: int, activeOnly: bool, categoryType: Option<string>, search: Option<string>)
    : CategoryTemplate -> bool
  {
    (t: CategoryTemplate) => TemplateListed(t, userId, activeOnly, categoryType, search)
  }

  /** A group filter that Python's `if` lets through: the template table
      has no category_group column, so building that filter raises
      AttributeError. */
  predicate GroupFiltered(categoryGroup: Option<string>)
  {
    categoryGroup.Some? && categoryGroup.value != ""
  }

  /** list_category_templates: the limit is at most 500 and the offset
      not negative; a group filter raises; the page is taken after
      sorting by order and name. */
  function ListTemplates(templates: seq<CategoryTemplate>, userId: int, activeOnly: bool, categoryType: Option<string>,
                         categoryGroup: Option<string>, search: Option<string>, limit: int, offset: int)
    : (r: Result<TemplatePage>)
    ensures r.Err? <==> limit > MaxListLimit || offset < 0 || GroupFiltered(categoryGroup)
    ensures limit > MaxListLimit ==> r == Err(Invalid("limit"))
    ensures limit <= MaxListLimit && offset < 0 ==> r == Err(Invalid("offset"))
    ensures limit <= MaxListLimit && offset >= 0 && GroupFiltered(categoryGroup) ==> r == Err(Raised("AttributeError"))
    ensures r.Ok? ==>
      r.value.total == |Filter(templates, TemplateListedOf(userId, activeOnly, categoryType, search))|
  {
    if limit > MaxListLimit then Err(Invalid("limit"))
    else if offset < 0 then Err(Invalid("offset"))
    else if GroupFiltered(categoryGroup) then Err(Raised("AttributeError"))
    else
      var matching := Filter(templates, TemplateListedOf(userId, activeOnly, categoryType, search));
      Ok(TemplatePage(Page(SortBy(matching, ByOrderName()), offset, limit), |matching|))
  }

  /** The page holds matching templates in (order, name) order: the run of
      the sorted matches that starts at the offset, cut to the limit when
      the limit is not negative, none past the end, and every match when
      the offset is 0 and the limit does not bind. */
  lemma ListTemplatesSound(templates: seq<CategoryTemplate>, userId: int, activeOnly: bool, categoryType: Option<string>,
                           categoryGroup: Option<string>, search: Option<string>, limit: int, offset: int)
    requires limit <= MaxListLimit && offset >= 0 && !GroupFiltered(categoryGroup)
    ensures var matching := Filter(templates, TemplateListedOf(userId, activeOnly, categoryType, search));
      var p := ListTemplates(templates, userId, activeOnly, categoryType, categoryGroup, search, limit, offset).value;
      (forall t :: t in p.templates ==> t in templates && TemplateListed(t, userId, activeOnly, categoryType, search))
      && SortedBy(p.templates, ByOrderName())
      && (limit >= 0 && offset <= p.total ==> |p.templates| == Min(limit, p.total - offset))
      && (limit < 0 && offset <= p.total ==> |p.templates| == p.total - offset)
      && (offset >= p.total ==> p.templates == [])
      && (offset <= p.total ==> p.templates == SortBy(matching, ByOrderName())[offset..offset + |p.templates|])
      && (offset == 0 && (limit < 0 || limit >= p.total) ==> multiset(p.templates) == multiset(matching))
  {
    var matching := Filter(templates, TemplateListedOf(userId, activeOnly, categoryType, search));
    var sorted := SortBy(matching, ByOrderName());
    var page := Page(sorted, offset, limit);
    assert ListTemplates(templates, userId, activeOnly, categoryType, categoryGroup, search, limit, offset)
      == Ok(TemplatePage(page, |matching|));
    assert multiset(sorted) == multiset(matching) by { SortByPermutes(matching, ByOrderName()); }
    assert |sorted| == |matching| by { assert |sorted| == |multiset(sorted)|; }
    assert SortedBy(sorted, ByOrderName()) by {
      ByOrderNameIsPreorder();
      SortBySorted(matching, ByOrderName());
    }
    SortedPage(sorted, offset, limit, ByOrderName());
    forall t | t in page ensures t in matching {
      assert t in multiset(sorted);
    }
  }

  // ---------------------------------------------------------------------
  // Updating

  /** The fields of an update request that are set; the icon and colour
      may also be set to null: Some(None). */
  datatype TemplateUpdate = TemplateUpdate(
    name: Option<string>, categoryType: Option<string>, icon: Option<Option<string>>, color: Option<Option<string>>,
    defaultAllocationCents: Option<int>, isActive: Option<bool>, order: Option<int>)

  /** One entry of the set fields, each assigned with setattr. */
  datatype TemplateField =
    | SetName(name: string) | SetType(categoryType: string) | SetIcon(icon: Option<string>)
    | SetColor(color: Option<string>) | SetDefault(cents: int) | SetActive(active: bool) | SetOrder(order: int)

  /** setattr of one field. */
  function SetField(t: CategoryTemplate, v: TemplateField): CategoryTemplate
  {
    match v
    case SetName(name) => CategoryTemplate(t.id, t.userId, name, t.categoryType, t.icon, t.color,
                                           t.defaultAllocationCents, t.isActive, t.order)
    case SetType(categoryType) => CategoryTemplate(t.id, t.userId, t.name, categoryType, t.icon, t.color,
                                                   t.defaultAllocationCents, t.isActive, t.order)
    case SetIcon(icon) => CategoryTemplate(t.id, t.userId, t.name, t.categoryType, icon, t.color,
                                           t.defaultAllocationCents, t.isActive, t.order)
    case SetColor(color) => CategoryTemplate(t.id, t.userId, t.name, t.categoryType, t.icon, color,
                                             t.defaultAllocationCents, t.isActive, t.order)
    case SetDefault(cents) => CategoryTemplate(t.id, t.userId, t.name, t.categoryType, t.icon, t.color,
                                               cents, t.isActive, t.order)
    case SetActive(active) => CategoryTemplate(t.id, t.userId, t.name, t.categoryType, t.icon, t.color,
                                               t.defaultAllocationCents, active, t.order)
    case SetOrder(order) => CategoryTemplate(t.id, t.userId, t.name, t.categoryType, t.icon, t.color,
                                             t.defaultAllocationCents, t.isActive, order)
  }

  /** The entry of field k (in declaration order) when the request sets it. */
  function FieldEntry(u: TemplateUpdate, k: nat): (r: seq<TemplateField>)
    ensures |r| <= 1
  {
    if k == 0 then (if u.name.Some? then [SetName(u.name.value)] else [])
    else if k == 1 then (if u.categoryType.Some? then [SetType(u.categoryType.value)] else [])
    else if k == 2 then (if u.icon.Some? then [SetIcon(u.icon.value)] else [])
    else if k == 3 then (if u.color.Some? then [SetColor(u.color.value)] else [])
    else if k == 4 then (if u.defaultAllocationCents.Some? then [SetDefault(u.defaultAllocationCents.value)] else [])
    else if k == 5 then (if u.isActive.Some? then [SetActive(u.isActive.value)] else [])
    else if k == 6 then (if u.order.Some? then [SetOrder(u.order.value)] else [])
    else []
  }

  /** The entries of the first k fields. */
  function DumpUpTo(u: TemplateUpdate, k: nat): (r: seq<TemplateField>)
    ensures |r| <= k
  {
    if k == 0 then [] else DumpUpTo(u, k - 1) + FieldEntry(u, k - 1)
  }

  /** dict(exclude_unset=True): the set fields in declaration order. */
  function SetFields(u: TemplateUpdate): (r: seq<TemplateField>)
    ensures |r| <= 7
  {
    DumpUpTo(u, 7)
  }

  /** The setattr loop as a fold. */
  function ApplyFields(t: CategoryTemplate, vs: seq<TemplateField>): CategoryTemplate
  {
    if vs == [] then t else SetField(ApplyFields(t, vs[..|vs| - 1]), vs[|vs| - 1])
  }

  /** The template with every set field replaced and every other one kept. */
  function UpdatedTemplate(t: CategoryTemplate, u: TemplateUpdate): CategoryTemplate
  {
    UpdatedUpTo(t, u, 7)
  }

  /** The template once the first k fields of the request are applied. */
  function UpdatedUpTo(t: CategoryTemplate, u: TemplateUpdate, k: nat): CategoryTemplate
  {
    CategoryTemplate(t.id, t.userId,
                     if k > 0 && u.name.Some? then u.name.value else t.name,
                     if k > 1 && u.categoryType.Some? then u.categoryType.value else t.categoryType,
                     if k > 2 && u.icon.Some? then u.icon.value else t.icon,
                     if k > 3 && u.color.Some? then u.color.value else t.color,
                     if k > 4 && u.defaultAllocationCents.Some? then u.defaultAllocationCents.value
                     else t.defaultAllocationCents,
                     if k > 5 && u.isActive.Some? then u.isActive.value else t.isActive,
                     if k > 6 && u.order.Some? then u.order.value else t.order)
  }

  lemma {:induction false} ApplyFieldsAppend(t: CategoryTemplate, vs: seq<TemplateField>, ws: seq<TemplateField>)
    ensures ApplyFields(t, vs + ws) == ApplyFields(ApplyFields(t, vs), ws)
  {
    if ws != [] {
      var m := |ws| - 1;
      assert (vs + ws)[..|vs + ws| - 1] == vs + ws[..m];
      assert (vs + ws)[|vs + ws| - 1] == ws[m];
      ApplyFieldsAppend(t, vs, ws[..m]);
    } else {
      assert vs + ws == vs;
    }
  }

  /** Applying at most one set field. */
  lemma ApplyOne(t: CategoryTemplate, vs: seq<TemplateField>)
    requires |vs| <= 1
    ensures vs == [] ==> ApplyFields(t, vs) == t
    ensures vs != [] ==> ApplyFields(t, vs) == SetField(t, vs[0])
  {
    if vs != [] {
      assert vs[..0] == [];
    }
  }

  lemma {:induction false} ApplyUpTo(t: CategoryTemplate, u: TemplateUpdate, k: nat)
    requires k <= 7
    ensures ApplyFields(t, DumpUpTo(u, k)) == UpdatedUpTo(t, u, k)
  {
    if k > 0 {
      ApplyUpTo(t, u, k - 1);
      ApplyFieldsAppend(t, DumpUpTo(u, k - 1), FieldEntry(u, k - 1));
      UpToStep(t, u, k);
    }
  }

  /** The k-th field applied to the template with the first k - 1 applied. */
  lemma UpToStep(t: CategoryTemplate, u: TemplateUpdate, k: nat)
    requires 0 < k <= 7
    ensures ApplyFields(UpdatedUpTo(t, u, k - 1), FieldEntry(u, k - 1)) == UpdatedUpTo(t, u, k)
  {
    ApplyOne(UpdatedUpTo(t, u, k - 1), FieldEntry(u, k - 1));
    if k == 1 {
    } else if k == 2 {
    } else if k == 3 {
    } else if k == 4 {
    } else if k == 5 {
    } else if k == 6 {
    }
  }

  /** Setting the dumped fields one by one changes exactly the fields the
      request set; the id and owner never change. */
  lemma UpdateSetsOnlyGivenFields(t: CategoryTemplate, u: TemplateUpdate)
    ensures ApplyFields(t, SetFields(u)) == UpdatedTemplate(t, u)
    ensures UpdatedTemplate(t, u).id == t.id && UpdatedTemplate(t, u).userId == t.userId
    ensures u == TemplateUpdate(None, None, None, None, None, None, None) ==> UpdatedTemplate(t, u) == t
  {
    ApplyUpTo(t, u, 7);
  }

  /** The name check of an update: only a new, non-empty name is checked,
      against the user's other active templates. */
  predicate RenameConflict(templates: seq<CategoryTemplate>, t: CategoryTemplate, u: TemplateUpdate)
  {
    u.name.Some? && u.name.value != "" && u.name.value != t.name
    && HasActiveNamed(templates, t.userId, u.name.value, Some(t.id))
  }

  /** An update that passed the name check keeps active names unique,
      unless it reactivates an inactive template (a name is never empty,
      by the request schema's minimum length). */
  lemma UpdateKeepsUnique(templates: seq<CategoryTemplate>, i: nat, u: TemplateUpdate)
    requires i < |templates| && ActiveNamesUnique(templates)
    requires forall j :: 0 <= j < |templates| && j != i ==> templates[j].id != templates[i].id
    requires u.name != Some("") && !RenameConflict(templates, templates[i], u)
    requires u.isActive == Some(true) ==> templates[i].isActive
    ensures ActiveNamesUnique(templates[i := UpdatedTemplate(templates[i], u)])
  {
    var t := templates[i];
    var n := UpdatedTemplate(t, u);
    var s := templates[i := n];
    forall a, b | 0 <= a < b < |s| && s[a].isActive && s[b].isActive && s[a].userId == s[b].userId
      ensures s[a].name != s[b].name
    {
      if a == i || b == i {
        var o := if a == i then b else a;
        assert s[o] == templates[o] && s[o] in templates && templates[o].id != t.id;
        if n.name == t.name {
          assert t.isActive;
          assert templates[a].name != templates[b].name;
        } else {
          assert u.name.Some? && u.name.value == n.name;
          assert !HasActiveNamed(templates, t.userId, n.name, Some(t.id));
        }
      } else {
        assert s[a] == templates[a] && s[b] == templates[b];
      }
    }
  }

  /** Reactivating a template skips the name check, so two active
      templates of one user can end up with the same name. */
  lemma ReactivationCanDuplicate()
    ensures var ts := [CategoryTemplate(1, 7, "Rent", "expense", None, None, 0, true, 0),
                       CategoryTemplate(2, 7, "Rent", "expense", None, None, 0, false, 0)];
      var u := TemplateUpdate(None, None, None, None, None, Some(true), None);
      ActiveNamesUnique(ts) && !RenameConflict(ts, ts[1], u) && !ActiveNamesUnique(ts[1 := UpdatedTemplate(ts[1], u)])
  {
    var ts := [CategoryTemplate(1, 7, "Rent", "expense", None, None, 0, true, 0),
               CategoryTemplate(2, 7, "Rent", "expense", None, None, 0, false, 0)];
    var u := TemplateUpdate(None, None, None, None, None, Some(true), None);
    var s := ts[1 := UpdatedTemplate(ts[1], u)];
    assert s[0].isActive && s[1].isActive && s[0].name == s[1].name;
  }

  /** The constraints of an update body; an icon or colour set to null
      passes. */
  function UpdateFieldError(u: TemplateUpdate): (r: Option<string>)
    ensures r.None? <==> (u.name.Some? ==> 1 <= |u.name.value| <= 100)
                         && (u.categoryType.Some? ==> u.categoryType.value in {"income", "expense", "savings"})
                         && (u.icon.Some? && u.icon.value.Some? ==> |u.icon.value.value| <= 50)
                         && (u.color.Some? && u.color.value.Some? ==> IsHexColor(u.color.value.value))
                         && (u.defaultAllocationCents.Some? ==> u.defaultAllocationCents.value >= 0)
                         && (u.order.Some? ==> u.order.value >= 0)
  {
    TemplateFieldError(u.name, u.categoryType, if u.icon.Some? then u.icon.value else None,
                       if u.color.Some? then u.color.value else None, u.defaultAllocationCents, u.order)
  }

  /** update_category_template: the body is validated before the handler
      runs. */
  method UpdateTemplate(db: Db, userId: int, templateId: int, u: TemplateUpdate) returns (r: Result<CategoryTemplate>)
    requires db.Valid()
    modifies db
    ensures db.Valid()
    ensures db.budgets == old(db.budgets) && db.categories == old(db.categories) && db.nextId == old(db.nextId)
    ensures db.transactions == old(db.transactions) && db.splits == old(db.splits)
    ensures UpdateFieldError(u).Some? ==>
      r == Err(Invalid(UpdateFieldError(u).value)) && db.templates == old(db.templates)
    ensures UpdateFieldError(u).None? && TemplateIndex(old(db.templates), templateId, userId).None? ==>
      r == Err(NotFound("Category template")) && db.templates == old(db.templates)
    ensures UpdateFieldError(u).None? && TemplateIndex(old(db.templates), templateId, userId).Some? ==>
      var i := TemplateIndex(old(db.templates), templateId, userId).value;
      var t := old(db.templates)[i];
      (RenameConflict(old(db.templates), t, u) ==>
         r == Err(DuplicateTemplate(u.name.value)) && db.templates == old(db.templates))
      && (!RenameConflict(old(db.templates), t, u) ==>
            r == Ok(UpdatedTemplate(t, u)) && db.templates == old(db.templates)[i := UpdatedTemplate(t, u)])
  {
    var error := UpdateFieldError(u);
    if error.Some? {
      return Err(Invalid(error.value));
    }
    var found := TemplateIndex(db.templates, templateId, userId);
    if found.None? {
      return Err(NotFound("Category template"));
    }
    var i := found.value;
    var t := db.templates[i];
    if u.name.Some? && u.name.value != "" && u.name.value != t.name
       && HasActiveNamed(db.templates, userId, u.name.value, Some(templateId)) {
      return Err(DuplicateTemplate(u.name.value));
    }
    var fields := SetFields(u);
    for k := 0 to |fields|
      invariant t == ApplyFields(db.templates[i], fields[..k])
    {
      assert fields[..k + 1][..k] == fields[..k];
      t := SetField(t, fields[k]);
    }
    assert fields[..|fields|] == fields;
    UpdateSetsOnlyGivenFields(db.templates[i], u);
    db.templates := db.templates[i := t];
    return Ok(t);
  }

  // ---------------------------------------------------------------------
  // Deleting

  /** What delete_category_template answers: a refusal naming how many
      categories use the template, or how many were renamed and to which
      replacement. */
  datatype DeleteOutcome =
    | RequiresForce(usedInBudgets: nat)
    | Deleted(updatedCategories: nat, replacementUsed: Option<string>)

  const ReplacementMissing := BadRequest("Replacement template not found or inactive")

  function NamedAs(name: string): BudgetCategory -> bool
  {
    (c: BudgetCategory) => c.name == name
  }

  /** The user's active template with that id. */
  function ActiveTemplate(templates: seq<CategoryTemplate>, templateId: int, userId: int): (r: Option<CategoryTemplate>)
    ensures r.Some? ==> r.value in templates && r.value.id == templateId && r.value.userId == userId && r.value.isActive
    ensures r.None? ==> forall t :: t in templates ==> !(t.id == templateId && t.userId == userId && t.isActive)
  {
    if templates == [] then None
    else if templates[0].id == templateId && templates[0].userId == userId && templates[0].isActive then Some(templates[0])
    else ActiveTemplate(templates[1..], templateId, userId)
  }

  /** The category with the template's name renamed, any other kept. */
  function RenamedCategory(c: BudgetCategory, from: string, to: string): BudgetCategory
  {
    if c.name == from then BudgetCategory(c.id, c.budgetId, to, c.allocatedCents, c.order, c.description, c.group, c.isActive)
    else c
  }

  /** Every category with the template's name renamed. */
  function RenamedCategories(cats: seq<BudgetCategory>, from: string, to: string): (r: seq<BudgetCategory>)
    ensures |r| == |cats|
    ensures forall k :: 0 <= k < |cats| ==> r[k] == RenamedCategory(cats[k], from, to)
  {
    if cats == [] then []
    else RenamedCategories(cats[..|cats| - 1], from, to) + [RenamedCategory(cats[|cats| - 1], from, to)]
  }

  /** The name the categories get: the replacement's, or the old name
      marked as deleted. */
  function NewCategoryName(name: string, replacement: Option<CategoryTemplate>): string
  {
    if replacement.Some? then replacement.value.name else "Deleted: " + name
  }

  /** Renaming never touches ids, budgets or amounts, and when the new name
      differs no category keeps the template's name. */
  lemma {:induction false} RenameClears(cats: seq<BudgetCategory>, from: string, to: string)
    requires to != from
    ensures CountOf(RenamedCategories(cats, from, to), NamedAs(from)) == 0
    ensures CountOf(RenamedCategories(cats, from, to), NamedAs(to)) == CountOf(cats, NamedAs(from)) + CountOf(cats, NamedAs(to))
  {
    if cats != [] {
      var k := |cats| - 1;
      RenameClears(cats[..k], from, to);
      assert RenamedCategories(cats, from, to)[..k] == RenamedCategories(cats[..k], from, to);
    }
  }

  /** The marked name always differs from the template's name. */
  lemma DeletedNameDiffers(name: string)
    ensures NewCategoryName(name, None) != name
  {
    assert |NewCategoryName(name, None)| > |name|;
  }

  /** delete_category_template: refused without `force` while categories
      use the name; a replacement id (0 is none) must name an active
      template of the user; then the categories are renamed and the
      template is deactivated, never removed. */
  method DeleteTemplate(db: Db, userId: int, templateId: int, force: bool, replacementId: Option<int>)
    returns (r: Result<DeleteOutcome>)
    requires db.Valid()
    modifies db
    ensures db.Valid()
    ensures db.budgets == old(db.budgets) && db.nextId == old(db.nextId)
    ensures db.transactions == old(db.transactions) && db.splits == old(db.splits)
    ensures TemplateIndex(old(db.templates), templateId, userId).None? ==>
      r == Err(NotFound("Category template")) && db.templates == old(db.templates) && db.categories == old(db.categories)
    ensures TemplateIndex(old(db.templates), templateId, userId).Some? ==>
      var i := TemplateIndex(old(db.templates), templateId, userId).value;
      var t := old(db.templates)[i];
      var used := CountOf(old(db.categories), NamedAs(t.name));
      var wantsReplacement := replacementId.Some? && replacementId.value != 0;
      var replacement := if wantsReplacement then ActiveTemplate(old(db.templates), replacementId.value, userId) else None;
      (used > 0 && !force ==>
         r == Ok(RequiresForce(used)) && db.templates == old(db.templates) && db.categories == old(db.categories))
      && ((used == 0 || force) && wantsReplacement && replacement.None? ==>
            r == Err(ReplacementMissing) && db.templates == old(db.templates) && db.categories == old(db.categories))
      && ((used == 0 || force) && (wantsReplacement ==> replacement.Some?) ==>
            r == Ok(Deleted(used, if replacement.Some? then Some(replacement.value.name) else None))
            && db.categories == RenamedCategories(old(db.categories), t.name, NewCategoryName(t.name, replacement))
            && db.templates == old(db.templates)[i := SetField(t, SetActive(false))])
  {
    var found := TemplateIndex(db.templates, templateId, userId);
    if found.None? {
      return Err(NotFound("Category template"));
    }
    var i := found.value;
    var t := db.templates[i];
    var used := CountOf(db.categories, NamedAs(t.name));
    if used > 0 && !force {
      return Ok(RequiresForce(used));
    }
    var replacement: Option<CategoryTemplate> := None;
    if replacementId.Some? && replacementId.value != 0 {
      replacement := ActiveTemplate(db.templates, replacementId.value, userId);
      if replacement.None? {
        return Err(ReplacementMissing);
      }
    }
    var newName := NewCategoryName(t.name, replacement);
    RenameUsed(db, t.name, newName);
    db.templates := db.templates[i := SetField(t, SetActive(false))];
    return Ok(Deleted(used, if replacement.Some? then Some(replacement.value.name) else None));
  }

  /** The renaming loop over the categories that carry the name. */
  method RenameUsed(db: Db, from: string, to: string)
    requires db.Valid()
    modifies db
    ensures db.Valid()
    ensures db.categories == RenamedCategories(old(db.categories), from, to)
    ensures db.budgets == old(db.budgets) && db.templates == old(db.templates) && db.nextId == old(db.nextId)
    ensures db.transactions == old(db.transactions) && db.splits == old(db.splits)
  {
    ghost var start := db.categories;
    for k := 0 to |db.categories|
      invariant |db.categories| == |start|
      invariant forall j :: 0 <= j < k ==> db.categories[j] == RenamedCategory(start[j], from, to)
      invariant forall j :: k <= j < |start| ==> db.categories[j] == start[j]
      invariant db.Valid()
      invariant db.budgets == old(db.budgets) && db.templates == old(db.templates) && db.nextId == old(db.nextId)
      invariant db.transactions == old(db.transactions) && db.splits == old(db.splits)
    {
      var c := db.categories[k];
      if c.name == from {
        db.categories := db.categories[k := RenamedCategory(c, from, to)];
      }
    }
    assert db.categories == RenamedCategories(start, from, to);
  }

  /** Deactivating a template keeps active names unique. */
  lemma DeactivateKeepsUnique(templates: seq<CategoryTemplate>, i: nat)
    requires i < |templates| && ActiveNamesUnique(templates)
    ensures ActiveNamesUnique(templates[i := SetField(templates[i], SetActive(false))])
  {
    var s := templates[i := SetField(templates[i], SetActive(false))];
    forall a, b | 0 <= a < b < |s| && s[a].isActive && s[b].isActive && s[a].userId == s[b].userId
      ensures s[a].name != s[b].name
    {
      assert s[a] == templates[a] && s[b] == templates[b];
    }
  }
}
