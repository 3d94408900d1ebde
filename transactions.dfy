/** The transaction API: recording spending against a budget's categories,
    directly or split over several, reading it back with the split lines,
    listing it newest first, and the per-category spending summary of a
    budget. */
module Transactions {
  import opened Common
  import opened Calendar
  import opened Sorting
  import opened BudgetDb

  datatype SplitInput = SplitInput(categoryId: int, amountCents: int, notes: Option<string>)

  /** A creation body; a split transaction names its categories in
      `splits` rather than in `categoryId`. */
  datatype TransactionCreate = TransactionCreate(
    budgetId: int, categoryId: Option<int>, amountCents: int, date: Date, notes: Option<string>,
    isSplit: bool, splits: seq<SplitInput>)

  /** A split with the name of its category. */
  datatype SplitLine = SplitLine(split: TransactionSplit, categoryName: string)

  /** A transaction as the API returns it. */
  datatype Detail = Detail(transaction: Transaction, splits: seq<SplitLine>)

  const CategoryRequired := BadRequest("category_id is required for non-split transactions")
  const MaxListLimit := 200

  // ---------------------------------------------------------------------
  // Reading a transaction with its splits

  /** The name of the category with that id, in any budget. */
  function CategoryName(cats: seq<BudgetCategory>, id: int): (r: Option<string>)
    ensures r.Some? ==> exists c :: c in cats && c.id == id && c.name == r.value
    ensures r.None? ==> forall c :: c in cats ==> c.id != id
  {
    if cats == [] then None
    else if cats[0].id == id then Some(cats[0].name)
    else CategoryName(cats[1..], id)
  }

  /** The transaction's splits joined with their categories, in table
      order; a split whose category is gone drops out of the join. */
  function SplitLines(splits: seq<TransactionSplit>, cats: seq<BudgetCategory>, transactionId: int): (r: seq<SplitLine>)
    ensures forall l :: l in r ==>
      l.split in splits && l.split.transactionId == transactionId
      && CategoryName(cats, l.split.categoryId) == Some(l.categoryName)
  {
    if splits == [] then []
    else
      var s := splits[|splits| - 1];
      var name := CategoryName(cats, s.categoryId);
      SplitLines(splits[..|splits| - 1], cats, transactionId)
      + (if s.transactionId == transactionId && name.Some? then [SplitLine(s, name.value)] else [])
  }

  /** Every split of the transaction whose category exists has its line. */
  lemma {:induction false} SplitLinesComplete(splits: seq<TransactionSplit>, cats: seq<BudgetCategory>, transactionId: int,
                                              s: TransactionSplit)
    requires s in splits && s.transactionId == transactionId && CategoryName(cats, s.categoryId).Some?
    ensures SplitLine(s, CategoryName(cats, s.categoryId).value) in SplitLines(splits, cats, transactionId)
  {
    var init := splits[..|splits| - 1];
    if s != splits[|splits| - 1] {
      assert s in init by {
        var k :| 0 <= k < |splits| && splits[k] == s;
        assert k < |splits| - 1;
        assert init[k] == s;
      }
      SplitLinesComplete(init, cats, transactionId, s);
    }
  }

  lemma {:induction false} SplitLinesAppend(a: seq<TransactionSplit>, b: seq<TransactionSplit>, cats: seq<BudgetCategory>,
                                            transactionId: int)
    ensures SplitLines(a + b, cats, transactionId) == SplitLines(a, cats, transactionId) + SplitLines(b, cats, transactionId)
  {
    if b == [] {
      assert a + b == a;
    } else {
      assert (a + b)[..|a + b| - 1] == a + b[..|b| - 1];
      SplitLinesAppend(a, b[..|b| - 1], cats, transactionId);
    }
  }

  /** The position of the user's transaction with that id. */
  function TransactionIndex(txs: seq<Transaction>, transactionId: int, userId: int): (r: Option<nat>)
    ensures r.Some? ==>
      r.value < |txs| && txs[r.value].id == transactionId && txs[r.value].userId == userId
      && forall k :: 0 <= k < r.value ==> !(txs[k].id == transactionId && txs[k].userId == userId)
    ensures r.None? ==> forall i :: 0 <= i < |txs| ==> !(txs[i].id == transactionId && txs[i].userId == userId)
  {
    if txs == [] then None
    else if txs[0].id == transactionId && txs[0].userId == userId then Some(0)
    else match TransactionIndex(txs[1..], transactionId, userId)
         case None => None
         case Some(i) => Some(i + 1)
  }

  /** _get_transaction_with_splits: the split lines only for a split
      transaction, none otherwise. */
  function TransactionDetail(txs: seq<Transaction>, splits: seq<TransactionSplit>, cats: seq<BudgetCategory>,
                             transactionId: int, userId: int): (r: Option<Detail>)
    ensures r.None? <==> TransactionIndex(txs, transactionId, userId).None?
    ensures r.Some? ==>
      r.value.transaction == txs[TransactionIndex(txs, transactionId, userId).value]
      && (!r.value.transaction.isSplit ==> r.value.splits == [])
      && (r.value.transaction.isSplit ==> r.value.splits == SplitLines(splits, cats, transactionId))
  {
    match TransactionIndex(txs, transactionId, userId)
    case None => None
    case Some(i) => Some(Detail(txs[i], if txs[i].isSplit then SplitLines(splits, cats, transactionId) else []))
  }

  // ---------------------------------------------------------------------
  // Creating a transaction

  /** The first split whose category is not in the budget. */
  function MissingSplitCategory(inputs: seq<SplitInput>, cats: seq<BudgetCategory>, budgetId: int): (r: Option<nat>)
    ensures r.None? <==> forall k :: 0 <= k < |inputs| ==> CategoryInBudget(cats, inputs[k].categoryId, budgetId).Some?
    ensures r.Some? ==>
      r.value < |inputs| && CategoryInBudget(cats, inputs[r.value].categoryId, budgetId).None?
      && forall k :: 0 <= k < r.value ==> CategoryInBudget(cats, inputs[k].categoryId, budgetId).Some?
  {
    if inputs == [] then None
    else if CategoryInBudget(cats, inputs[0].categoryId, budgetId).None? then Some(0)
    else match MissingSplitCategory(inputs[1..], cats, budgetId)
         case None => None
         case Some(k) => Some(k + 1)
  }

  /** The split rows of a new transaction, with ids from firstId on. */
  function SplitRows(inputs: seq<SplitInput>, transactionId: int, firstId: int): (r: seq<TransactionSplit>)
    ensures |r| == |inputs|
    ensures forall k :: 0 <= k < |inputs| ==>
      r[k] == TransactionSplit(firstId + k, transactionId, inputs[k].categoryId, inputs[k].amountCents, inputs[k].notes)
  {
    if inputs == [] then []
    else
      var k := |inputs| - 1;
      SplitRows(inputs[..k], transactionId, firstId)
      + [TransactionSplit(firstId + k, transactionId, inputs[k].categoryId, inputs[k].amountCents, inputs[k].notes)]
  }

  /** The lines of every split row whose category exists, in order. */
  function RowLines(rows: seq<TransactionSplit>, cats: seq<BudgetCategory>): seq<SplitLine>
    requires forall k :: 0 <= k < |rows| ==> CategoryName(cats, rows[k].categoryId).Some?
  {
    if rows == [] then []
    else
      var s := rows[|rows| - 1];
      RowLines(rows[..|rows| - 1], cats) + [SplitLine(s, CategoryName(cats, s.categoryId).value)]
  }

  /** A new split transaction reads back with one line per split it was
      created with, in order: earlier splits belong to older transactions
      and every split category was checked to exist. */
  lemma {:induction false} NewSplitLines(old_splits: seq<TransactionSplit>, rows: seq<TransactionSplit>,
                                         cats: seq<BudgetCategory>, transactionId: int)
    requires forall i :: 0 <= i < |old_splits| ==> old_splits[i].transactionId < transactionId
    requires forall k :: 0 <= k < |rows| ==> rows[k].transactionId == transactionId
    requires forall k :: 0 <= k < |rows| ==> CategoryName(cats, rows[k].categoryId).Some?
    ensures SplitLines(old_splits + rows, cats, transactionId) == RowLines(rows, cats)
  {
    SplitLinesAppend(old_splits, rows, cats, transactionId);
    NoLinesOfOthers(old_splits, cats, transactionId);
    RowLinesAll(rows, cats, transactionId);
  }

  lemma {:induction false} NoLinesOfOthers(splits: seq<TransactionSplit>, cats: seq<BudgetCategory>, transactionId: int)
    requires forall i :: 0 <= i < |splits| ==> splits[i].transactionId < transactionId
    ensures SplitLines(splits, cats, transactionId) == []
  {
    if splits != [] {
      NoLinesOfOthers(splits[..|splits| - 1], cats, transactionId);
    }
  }

  lemma {:induction false} RowLinesAll(rows: seq<TransactionSplit>, cats: seq<BudgetCategory>, transactionId: int)
    requires forall k :: 0 <= k < |rows| ==> rows[k].transactionId == transactionId
    requires forall k :: 0 <= k < |rows| ==> CategoryName(cats, rows[k].categoryId).Some?
    ensures SplitLines(rows, cats, transactionId) == RowLines(rows, cats)
  {
    if rows != [] {
      RowLinesAll(rows[..|rows| - 1], cats, transactionId);
    }
  }

  /** A category found in a budget has a name. */
  lemma InBudgetHasName(cats: seq<BudgetCategory>, id: int, budgetId: int)
    requires CategoryInBudget(cats, id, budgetId).Some?
    ensures CategoryName(cats, id).Some?
  {
    var c := CategoryInBudget(cats, id, budgetId).value;
    assert c in cats && c.id == id;
  }

  /** Why create_transaction refuses a request, checked in the handler's
      order: the budget, then the category of a plain transaction, then
      the category of each split. */
  function CreateError(budgets: seq<Budget>, cats: seq<BudgetCategory>, userId: int, req: TransactionCreate)
    : (r: Option<ApiError>)
    ensures OwnedBudget(budgets, req.budgetId, userId).None? ==> r == Some(NotFound("Budget"))
    ensures OwnedBudget(budgets, req.budgetId, userId).Some? && !req.isSplit && req.categoryId.None? ==>
      r == Some(CategoryRequired)
    ensures OwnedBudget(budgets, req.budgetId, userId).Some? && !req.isSplit && req.categoryId.Some?
            && CategoryInBudget(cats, req.categoryId.value, req.budgetId).None? ==>
      r == Some(NotFound("Category"))
    ensures OwnedBudget(budgets, req.budgetId, userId).Some? && req.isSplit
            && MissingSplitCategory(req.splits, cats, req.budgetId).Some? ==>
      r == Some(NotFound("Category " + IntString(req.splits[MissingSplitCategory(req.splits, cats, req.budgetId).value].categoryId)))
    ensures r.None? <==>
      OwnedBudget(budgets, req.budgetId, userId).Some?
      && (!req.isSplit ==> req.categoryId.Some? && CategoryInBudget(cats, req.categoryId.value, req.budgetId).Some?)
      && (req.isSplit ==> forall k :: 0 <= k < |req.splits| ==> CategoryInBudget(cats, req.splits[k].categoryId, req.budgetId).Some?)
  {
    if OwnedBudget(budgets, req.budgetId, userId).None? then Some(NotFound("Budget"))
    else if !req.isSplit && req.categoryId.None? then Some(CategoryRequired)
    else if !req.isSplit && CategoryInBudget(cats, req.categoryId.value, req.budgetId).None? then Some(NotFound("Category"))
    else if req.isSplit && MissingSplitCategory(req.splits, cats, req.budgetId).Some? then
      Some(NotFound("Category " + IntString(req.splits[MissingSplitCategory(req.splits, cats, req.budgetId).value].categoryId)))
    else None
  }

  /** The split loop stops at the first split whose category is not in
      the budget. */
  lemma {:induction false} FirstMissingIs(inputs: seq<SplitInput>, cats: seq<BudgetCategory>, budgetId: int, k: nat)
    requires k < |inputs| && CategoryInBudget(cats, inputs[k].categoryId, budgetId).None?
    requires forall j :: 0 <= j < k ==> CategoryInBudget(cats, inputs[j].categoryId, budgetId).Some?
    ensures MissingSplitCategory(inputs, cats, budgetId) == Some(k)
  {
    if k > 0 {
      FirstMissingIs(inputs[1..], cats, budgetId, k - 1);
    }
  }

  /** A new transaction reads back as itself with one line per split row
      it was created with: older splits belong to older transactions, and
      every split category exists. */
  lemma NewTransactionDetail(txs: seq<Transaction>, splits: seq<TransactionSplit>, cats: seq<BudgetCategory>,
                             t: Transaction, rows: seq<TransactionSplit>, allTxs: seq<Transaction>,
                             allSplits: seq<TransactionSplit>)
    requires forall i :: 0 <= i < |txs| ==> txs[i].id < t.id
    requires forall i :: 0 <= i < |splits| ==> splits[i].transactionId < t.id
    requires forall k :: 0 <= k < |rows| ==> rows[k].transactionId == t.id
    requires forall k :: 0 <= k < |rows| ==> CategoryName(cats, rows[k].categoryId).Some?
    requires allTxs == txs + [t] && allSplits == splits + rows
    ensures TransactionDetail(allTxs, allSplits, cats, t.id, t.userId)
            == Some(Detail(t, if t.isSplit then RowLines(rows, cats) else []))
  {
    NewTransactionIndex(txs, t, t.userId);
    NewSplitLines(splits, rows, cats, t.id);
  }

  /** The split rows create_transaction adds for a request, after the
      transaction's own id. */
  function NewSplitRows(req: TransactionCreate, transactionId: int, firstId: int): (r: seq<TransactionSplit>)
    ensures !req.isSplit ==> r == []
    ensures req.isSplit ==> r == SplitRows(req.splits, transactionId, firstId)
  {
    if req.isSplit then SplitRows(req.splits, transactionId, firstId) else []
  }

  /** The body's field constraint: an amount given must be positive; None
      when it holds. */
  function AmountFieldError(amountCents: Option<int>): (r: Option<string>)
    ensures r.None? <==> (amountCents.Some? ==> amountCents.value > 0)
  {
    if amountCents.Some? && amountCents.value <= 0 then Some("amount_cents") else None
  }

  /** create_transaction: the body is validated before the handler runs. */
  method CreateTransaction(db: Db, userId: int, req: TransactionCreate, now: int) returns (r: Result<Detail>)
    requires db.Valid()
    modifies db
    ensures db.Valid()
    ensures db.budgets == old(db.budgets) && db.categories == old(db.categories) && db.templates == old(db.templates)
    ensures AmountFieldError(Some(req.amountCents)).Some? ==>
      r == Err(Invalid(AmountFieldError(Some(req.amountCents)).value))
      && db.transactions == old(db.transactions) && db.splits == old(db.splits) && db.nextId == old(db.nextId)
    ensures AmountFieldError(Some(req.amountCents)).None? && CreateError(old(db.budgets), old(db.categories), userId, req).Some? ==>
      r == Err(CreateError(old(db.budgets), old(db.categories), userId, req).value)
      && db.transactions == old(db.transactions) && db.splits == old(db.splits) && db.nextId == old(db.nextId)
    ensures AmountFieldError(Some(req.amountCents)).None? && CreateError(old(db.budgets), old(db.categories), userId, req).None? ==>
      var t := Transaction(old(db.nextId), userId, req.budgetId, req.categoryId, req.amountCents, req.date, req.notes,
                           req.isSplit, now);
      var rows := NewSplitRows(req, old(db.nextId), old(db.nextId) + 1);
      r.Ok? && db.transactions == old(db.transactions) + [t] && db.splits == old(db.splits) + rows
      && db.nextId == old(db.nextId) + 1 + |rows|
      && Some(r.value) == TransactionDetail(db.transactions, db.splits, db.categories, old(db.nextId), userId)
      && r.value == Detail(t, if req.isSplit then RowLines(rows, db.categories) else [])
  {
    var error := AmountFieldError(Some(req.amountCents));
    if error.Some? {
      return Err(Invalid(error.value));
    }
    r := RecordTransaction(db, userId, req, now);
  }

  /** The handler proper: the budget and category checks, then the rows. */
  method RecordTransaction(db: Db, userId: int, req: TransactionCreate, now: int) returns (r: Result<Detail>)
    requires db.Valid()
    modifies db
    ensures db.Valid()
    ensures db.budgets == old(db.budgets) && db.categories == old(db.categories) && db.templates == old(db.templates)
    ensures CreateError(old(db.budgets), old(db.categories), userId, req).Some? ==>
      r == Err(CreateError(old(db.budgets), old(db.categories), userId, req).value)
      && db.transactions == old(db.transactions) && db.splits == old(db.splits) && db.nextId == old(db.nextId)
    ensures CreateError(old(db.budgets), old(db.categories), userId, req).None? ==>
      var t := Transaction(old(db.nextId), userId, req.budgetId, req.categoryId, req.amountCents, req.date, req.notes,
                           req.isSplit, now);
      var rows := NewSplitRows(req, old(db.nextId), old(db.nextId) + 1);
      r.Ok? && db.transactions == old(db.transactions) + [t] && db.splits == old(db.splits) + rows
      && db.nextId == old(db.nextId) + 1 + |rows|
      && Some(r.value) == TransactionDetail(db.transactions, db.splits, db.categories, old(db.nextId), userId)
      && r.value == Detail(t, if req.isSplit then RowLines(rows, db.categories) else [])
  {
    if OwnedBudget(db.budgets, req.budgetId, userId).None? {
      return Err(NotFound("Budget"));
    }
    if !req.isSplit {
      if req.categoryId.None? {
        return Err(CategoryRequired);
      }
      if CategoryInBudget(db.categories, req.categoryId.value, req.budgetId).None? {
        return Err(NotFound("Category"));
      }
    }
    if req.isSplit {
      for k := 0 to |req.splits|
        invariant forall j :: 0 <= j < k ==> CategoryInBudget(db.categories, req.splits[j].categoryId, req.budgetId).Some?
      {
        if CategoryInBudget(db.categories, req.splits[k].categoryId, req.budgetId).None? {
          FirstMissingIs(req.splits, db.categories, req.budgetId, k);
          return Err(NotFound("Category " + IntString(req.splits[k].categoryId)));
        }
      }
    }
    ghost var id := db.nextId;
    ghost var rows := NewSplitRows(req, id, id + 1);
    ghost var oldTxs := db.transactions;
    ghost var oldSplits := db.splits;
    var t := InsertTransaction(db, userId, req, now);
    forall k | 0 <= k < |rows| ensures CategoryName(db.categories, rows[k].categoryId).Some? {
      InBudgetHasName(db.categories, req.splits[k].categoryId, req.budgetId);
    }
    NewTransactionDetail(oldTxs, oldSplits, db.categories, t, rows, db.transactions, db.splits);
    var d := TransactionDetail(db.transactions, db.splits, db.categories, t.id, userId);
    return Ok(d.value);
  }

  /** The transaction row, then its split rows when it is split. */
  method InsertTransaction(db: Db, userId: int, req: TransactionCreate, now: int) returns (t: Transaction)
    requires db.Valid()
    modifies db
    ensures db.Valid()
    ensures t == Transaction(old(db.nextId), userId, req.budgetId, req.categoryId, req.amountCents, req.date, req.notes,
                             req.isSplit, now)
    ensures forall i :: 0 <= i < |old(db.transactions)| ==> old(db.transactions)[i].id < t.id
    ensures forall i :: 0 <= i < |old(db.splits)| ==> old(db.splits)[i].transactionId < t.id
    ensures db.transactions == old(db.transactions) + [t]
    ensures db.splits == old(db.splits) + NewSplitRows(req, old(db.nextId), old(db.nextId) + 1)
    ensures db.nextId == old(db.nextId) + 1 + |NewSplitRows(req, old(db.nextId), old(db.nextId) + 1)|
    ensures db.budgets == old(db.budgets) && db.categories == old(db.categories) && db.templates == old(db.templates)
  {
    t := Transaction(db.nextId, userId, req.budgetId, req.categoryId, req.amountCents, req.date, req.notes,
                     req.isSplit, now);
    db.transactions := db.transactions + [t];
    db.nextId := db.nextId + 1;
    if req.isSplit {
      AddSplitRows(db, req.splits, t.id);
    }
  }

  /** A new transaction, with an id above all earlier ones, is found at the end. */
  lemma NewTransactionIndex(txs: seq<Transaction>, t: Transaction, userId: int)
    requires forall i :: 0 <= i < |txs| ==> txs[i].id < t.id
    requires t.userId == userId
    ensures TransactionIndex(txs + [t], t.id, userId) == Some(|txs|)
  {
    var s := txs + [t];
    assert s[|txs|] == t;
    assert forall k :: 0 <= k < |txs| ==> s[k] == txs[k];
  }

  /** The loop adding one split row per input. */
  method AddSplitRows(db: Db, inputs: seq<SplitInput>, transactionId: int)
    requires db.Valid() && transactionId < db.nextId
    modifies db
    ensures db.Valid()
    ensures db.splits == old(db.splits) + SplitRows(inputs, transactionId, old(db.nextId))
    ensures db.nextId == old(db.nextId) + |inputs|
    ensures db.budgets == old(db.budgets) && db.categories == old(db.categories)
    ensures db.transactions == old(db.transactions) && db.templates == old(db.templates)
  {
    ghost var start := db.splits;
    var firstId := db.nextId;
    for k := 0 to |inputs|
      invariant db.Valid()
      invariant db.splits == start + SplitRows(inputs[..k], transactionId, firstId)
      invariant db.nextId == firstId + k
      invariant db.budgets == old(db.budgets) && db.categories == old(db.categories)
      invariant db.transactions == old(db.transactions) && db.templates == old(db.templates)
    {
      assert inputs[..k + 1][..k] == inputs[..k];
      db.splits := db.splits + [TransactionSplit(db.nextId, transactionId, inputs[k].categoryId, inputs[k].amountCents,
                                                 inputs[k].notes)];
      db.nextId := db.nextId + 1;
    }
    assert inputs[..|inputs|] == inputs;
  }

  // ---------------------------------------------------------------------
  // Listing

  /** Some split of the transaction is on the category. */
  predicate HasSplitOn(splits: seq<TransactionSplit>, transactionId: int, categoryId: int)
  {
    exists s :: s in splits && s.transactionId == transactionId && s.categoryId == categoryId
  }

  /** The list filters; an id of 0 is no filter, as Python's `if` reads it. */
  predicate Listed(t: Transaction, splits: seq<TransactionSplit>, userId: int, budgetId: Option<int>,
                   categoryId: Option<int>, start: Option<Date>, end: Option<Date>)
  {
    t.userId == userId
    && (budgetId.None? || budgetId.value == 0 || t.budgetId == budgetId.value)
    && (categoryId.None? || categoryId.value == 0 || t.categoryId == categoryId
        || HasSplitOn(splits, t.id, categoryId.value))
    && (start.None? || DateLe(start.value, t.date))
    && (end.None? || DateLe(t.date, end.value))
  }

  function ListedOf(splits: seq<TransactionSplit>, userId: int, budgetId: Option<int>, categoryId: Option<int>,
                    start: Option<Date>, end: Option<Date>): Transaction -> bool
  {
    (t: Transaction) => Listed(t, splits, userId, budgetId, categoryId, start, end)
  }

  /** Newest date first, then latest created first. */
  function ByRecency(): (Transaction, Transaction) -> bool
  {
    (a: Transaction, b: Transaction) => DateLess(b.date, a.date) || (a.date == b.date && a.createdAt >= b.createdAt)
  }

  lemma ByRecencyIsPreorder()
    ensures TotalPreorder(ByRecency())
  {
  }

  /** The transactions list_transactions returns, before their details. */
  function ListedTransactions(txs: seq<Transaction>, splits: seq<TransactionSplit>, userId: int, budgetId: Option<int>,
                              categoryId: Option<int>, start: Option<Date>, end: Option<Date>, limit: int)
    : (r: Result<seq<Transaction>>)
    ensures r.Err? <==> limit > MaxListLimit
    ensures r.Err? ==> r == Err(Invalid("limit"))
  {
    if limit > MaxListLimit then Err(Invalid("limit"))
    else Ok(Page(SortBy(Filter(txs, ListedOf(splits, userId, budgetId, categoryId, start, end)), ByRecency()), 0, limit))
  }

  /** The list is the `limit` newest matching transactions (every match
      when the limit does not bind or is negative), newest first. */
  lemma ListedTransactionsSound(txs: seq<Transaction>, splits: seq<TransactionSplit>, userId: int, budgetId: Option<int>,
                                categoryId: Option<int>, start: Option<Date>, end: Option<Date>, limit: int)
    requires limit <= MaxListLimit
    ensures var r := ListedTransactions(txs, splits, userId, budgetId, categoryId, start, end, limit).value;
      var matching := Filter(txs, ListedOf(splits, userId, budgetId, categoryId, start, end));
      (forall t :: t in r ==> t in txs && Listed(t, splits, userId, budgetId, categoryId, start, end))
      && SortedBy(r, ByRecency())
      && |r| == (if limit < 0 then |matching| else Min(limit, |matching|))
      && r == SortBy(matching, ByRecency())[..|r|]
      && ((limit < 0 || limit >= |matching|) ==> multiset(r) == multiset(matching))
  {
    var matching := Filter(txs, ListedOf(splits, userId, budgetId, categoryId, start, end));
    var sorted := SortBy(matching, ByRecency());
    SortByPermutes(matching, ByRecency());
    ByRecencyIsPreorder();
    SortBySorted(matching, ByRecency());
    var r := Page(sorted, 0, limit);
    var n := |r|;
    assert r == sorted[..n];
    forall t | t in r ensures t in matching {
      assert t in sorted;
      assert t in multiset(sorted);
    }
  }

  /** The details of the listed transactions, dropping any not found. */
  function DetailsOf(listed: seq<Transaction>, txs: seq<Transaction>, splits: seq<TransactionSplit>,
                     cats: seq<BudgetCategory>, userId: int): (r: seq<Detail>)
    ensures |r| <= |listed|
  {
    if listed == [] then []
    else
      var k := |listed| - 1;
      var d := TransactionDetail(txs, splits, cats, listed[k].id, userId);
      DetailsOf(listed[..k], txs, splits, cats, userId) + (if d.Some? then [d.value] else [])
  }

  /** A listed transaction is always found again. */
  lemma {:induction false} DetailsOfListed(listed: seq<Transaction>, txs: seq<Transaction>, splits: seq<TransactionSplit>,
                                           cats: seq<BudgetCategory>, userId: int)
    requires forall t :: t in listed ==> t in txs && t.userId == userId
    ensures |DetailsOf(listed, txs, splits, cats, userId)| == |listed|
  {
    if listed != [] {
      var k := |listed| - 1;
      var t := listed[k];
      assert t in txs;
      var i :| 0 <= i < |txs| && txs[i] == t;
      assert TransactionIndex(txs, t.id, userId).Some?;
      DetailsOfListed(listed[..k], txs, splits, cats, userId);
    }
  }

  /** list_transactions: the details are collected one by one. */
  method ListTransactions(db: Db, userId: int, budgetId: Option<int>, categoryId: Option<int>, start: Option<Date>,
                          end: Option<Date>, limit: int) returns (r: Result<seq<Detail>>)
    ensures ListedTransactions(db.transactions, db.splits, userId, budgetId, categoryId, start, end, limit).Err? ==>
      r == Err(Invalid("limit"))
    ensures ListedTransactions(db.transactions, db.splits, userId, budgetId, categoryId, start, end, limit).Ok? ==>
      var listed := ListedTransactions(db.transactions, db.splits, userId, budgetId, categoryId, start, end, limit).value;
      r == Ok(DetailsOf(listed, db.transactions, db.splits, db.categories, userId)) && |r.value| == |listed|
  {
    var found := ListedTransactions(db.transactions, db.splits, userId, budgetId, categoryId, start, end, limit);
    if found.Err? {
      return Err(found.error);
    }
    var listed := found.value;
    var results := [];
    for k := 0 to |listed|
      invariant results == DetailsOf(listed[..k], db.transactions, db.splits, db.categories, userId)
    {
      assert listed[..k + 1][..k] == listed[..k];
      var d := TransactionDetail(db.transactions, db.splits, db.categories, listed[k].id, userId);
      if d.Some? {
        results := results + [d.value];
      }
    }
    assert listed[..|listed|] == listed;
    assert forall t :: t in listed ==> t in db.transactions && t.userId == userId by {
      ListedTransactionsSound(db.transactions, db.splits, userId, budgetId, categoryId, start, end, limit);
    }
    DetailsOfListed(listed, db.transactions, db.splits, db.categories, userId);
    return Ok(results);
  }

  // ---------------------------------------------------------------------
  // Spending summary

  datatype CategorySpending = CategorySpending(
    categoryId: int, categoryName: string, allocatedCents: int, spentCents: int, remainingCents: int)

  function RegularOn(categoryId: int): Transaction -> bool
  {
    (t: Transaction) => t.categoryId == Some(categoryId) && !t.isSplit
  }

  function SplitOn(categoryId: int): TransactionSplit -> bool
  {
    (s: TransactionSplit) => s.categoryId == categoryId
  }

  function TransactionAmount(t: Transaction): int { t.amountCents }
  function SplitAmount(s: TransactionSplit): int { s.amountCents }

  /** What was spent on a category: its non-split transactions and the
      splits on it. */
  function Spent(txs: seq<Transaction>, splits: seq<TransactionSplit>, categoryId: int): int
  {
    SumOf(Filter(txs, RegularOn(categoryId)), TransactionAmount) + SumOf(Filter(splits, SplitOn(categoryId)), SplitAmount)
  }

  function SpendingLine(c: BudgetCategory, txs: seq<Transaction>, splits: seq<TransactionSplit>): (r: CategorySpending)
    ensures r.categoryId == c.id && r.categoryName == c.name && r.allocatedCents == c.allocatedCents
    ensures r.spentCents == Spent(txs, splits, c.id)
    ensures r.spentCents + r.remainingCents == c.allocatedCents
  {
    var spent := Spent(txs, splits, c.id);
    CategorySpending(c.id, c.name, c.allocatedCents, spent, c.allocatedCents - spent)
  }

  /** get_budget_transaction_summary: one line per category of the budget. */
  function SpendingSummary(budgets: seq<Budget>, cats: seq<BudgetCategory>, txs: seq<Transaction>,
                           splits: seq<TransactionSplit>, userId: int, budgetId: int): (r: Result<seq<CategorySpending>>)
    ensures r.Err? <==> OwnedBudget(budgets, budgetId, userId).None?
    ensures r.Err? ==> r == Err(NotFound("Budget"))
    ensures r.Ok? ==>
      |r.value| == |CategoriesOf(cats, budgetId)|
      && forall k :: 0 <= k < |r.value| ==> r.value[k] == SpendingLine(CategoriesOf(cats, budgetId)[k], txs, splits)
  {
    if OwnedBudget(budgets, budgetId, userId).None? then Err(NotFound("Budget"))
    else
      var ours := CategoriesOf(cats, budgetId);
      Ok(seq(|ours|, k requires 0 <= k < |ours| => SpendingLine(ours[k], txs, splits)))
  }

  /** A new non-split transaction adds its amount to its own category's
      spending and nothing to any other; a split transaction adds nothing
      through its own category. */
  lemma SpentAddTransaction(txs: seq<Transaction>, splits: seq<TransactionSplit>, t: Transaction, categoryId: int)
    ensures Spent(txs + [t], splits, categoryId)
            == Spent(txs, splits, categoryId) + (if t.categoryId == Some(categoryId) && !t.isSplit then t.amountCents else 0)
  {
    FilterAppend(txs, [t], RegularOn(categoryId));
    SumOfAppend(Filter(txs, RegularOn(categoryId)), Filter([t], RegularOn(categoryId)), TransactionAmount);
    assert Filter([t], RegularOn(categoryId)) == if RegularOn(categoryId)(t) then [t] else [];
  }

  /** A new split adds its amount to its category's spending only. */
  lemma SpentAddSplit(txs: seq<Transaction>, splits: seq<TransactionSplit>, s: TransactionSplit, categoryId: int)
    ensures Spent(txs, splits + [s], categoryId)
            == Spent(txs, splits, categoryId) + (if s.categoryId == categoryId then s.amountCents else 0)
  {
    FilterAppend(splits, [s], SplitOn(categoryId));
    SumOfAppend(Filter(splits, SplitOn(categoryId)), Filter([s], SplitOn(categoryId)), SplitAmount);
    assert Filter([s], SplitOn(categoryId)) == if SplitOn(categoryId)(s) then [s] else [];
  }

  /** The summary loop appending a line per category. */
  method BudgetTransactionSummary(db: Db, userId: int, budgetId: int) returns (r: Result<seq<CategorySpending>>)
    ensures r == SpendingSummary(db.budgets, db.categories, db.transactions, db.splits, userId, budgetId)
  {
    if OwnedBudget(db.budgets, budgetId, userId).None? {
      return Err(NotFound("Budget"));
    }
    var ours := CategoriesOf(db.categories, budgetId);
    var txs, splits := db.transactions, db.splits;
    var lines := [];
    for k := 0 to |ours|
      invariant |lines| == k
      invariant forall j :: 0 <= j < k ==> lines[j] == SpendingLine(ours[j], txs, splits)
    {
      var regular := SumOf(Filter(txs, RegularOn(ours[k].id)), TransactionAmount);
      var split := SumOf(Filter(splits, SplitOn(ours[k].id)), SplitAmount);
      var spent := regular + split;
      lines := lines + [CategorySpending(ours[k].id, ours[k].name, ours[k].allocatedCents, spent,
                                         ours[k].allocatedCents - spent)];
    }
    assert lines == seq(|ours|, k requires 0 <= k < |ours| => SpendingLine(ours[k], txs, splits));
    return Ok(lines);
  }

  // ---------------------------------------------------------------------
  // Updating and deleting

  datatype TransactionUpdate = TransactionUpdate(
    categoryId: Option<int>, amountCents: Option<int>, date: Option<Date>, notes: Option<string>)

  /** The transaction with every given field replaced; notes cannot be
      cleared, since a null is taken as not given. */
  function UpdatedTransaction(t: Transaction, u: TransactionUpdate): Transaction
  {
    Transaction(t.id, t.userId, t.budgetId,
                if u.categoryId.Some? then u.categoryId else t.categoryId,
                if u.amountCents.Some? then u.amountCents.value else t.amountCents,
                if u.date.Some? then u.date.value else t.date,
                if u.notes.Some? then u.notes else t.notes,
                t.isSplit, t.createdAt)
  }

  /** An update keeps the transaction's identity, owner, budget and kind,
      and an empty update changes nothing. */
  lemma UpdateKeepsIdentity(t: Transaction, u: TransactionUpdate)
    ensures UpdatedTransaction(t, u).id == t.id && UpdatedTransaction(t, u).userId == t.userId
    ensures UpdatedTransaction(t, u).budgetId == t.budgetId && UpdatedTransaction(t, u).isSplit == t.isSplit
    ensures UpdatedTransaction(t, TransactionUpdate(None, None, None, None)) == t
    ensures UpdatedTransaction(UpdatedTransaction(t, u), u) == UpdatedTransaction(t, u)
  {
  }

  /** update_transaction: a new category must belong to the transaction's
      own budget. */
  method UpdateTransaction(db: Db, userId: int, transactionId: int, u: TransactionUpdate) returns (r: Result<Transaction>)
    requires db.Valid()
    modifies db
    ensures db.Valid()
    ensures db.budgets == old(db.budgets) && db.categories == old(db.categories) && db.splits == old(db.splits)
    ensures db.templates == old(db.templates) && db.nextId == old(db.nextId)
    ensures AmountFieldError(u.amountCents).Some? ==>
      r == Err(Invalid(AmountFieldError(u.amountCents).value)) && db.transactions == old(db.transactions)
    ensures AmountFieldError(u.amountCents).None? && TransactionIndex(old(db.transactions), transactionId, userId).None? ==>
      r == Err(NotFound("Transaction")) && db.transactions == old(db.transactions)
    ensures AmountFieldError(u.amountCents).None? && TransactionIndex(old(db.transactions), transactionId, userId).Some? ==>
      var i := TransactionIndex(old(db.transactions), transactionId, userId).value;
      var t := old(db.transactions)[i];
      if u.categoryId.Some? && CategoryInBudget(db.categories, u.categoryId.value, t.budgetId).None? then
        r == Err(NotFound("Category")) && db.transactions == old(db.transactions)
      else
        r == Ok(UpdatedTransaction(t, u)) && db.transactions == old(db.transactions)[i := UpdatedTransaction(t, u)]
  {
    var error := AmountFieldError(u.amountCents);
    if error.Some? {
      return Err(Invalid(error.value));
    }
    var found := TransactionIndex(db.transactions, transactionId, userId);
    if found.None? {
      return Err(NotFound("Transaction"));
    }
    var i := found.value;
    var t := db.transactions[i];
    if u.categoryId.Some? && CategoryInBudget(db.categories, u.categoryId.value, t.budgetId).None? {
      return Err(NotFound("Category"));
    }
    var updated := UpdatedTransaction(t, u);
    db.transactions := db.transactions[i := updated];
    return Ok(updated);
  }

  /** delete_transaction: the row goes; its split rows are left in place. */
  method DeleteTransaction(db: Db, userId: int, transactionId: int) returns (r: Result<()>)
    requires db.Valid()
    modifies db
    ensures db.Valid()
    ensures db.budgets == old(db.budgets) && db.categories == old(db.categories) && db.splits == old(db.splits)
    ensures db.templates == old(db.templates) && db.nextId == old(db.nextId)
    ensures TransactionIndex(old(db.transactions), transactionId, userId).None? ==>
      r == Err(NotFound("Transaction")) && db.transactions == old(db.transactions)
    ensures TransactionIndex(old(db.transactions), transactionId, userId).Some? ==>
      var i := TransactionIndex(old(db.transactions), transactionId, userId).value;
      r == Ok(()) && db.transactions == old(db.transactions)[..i] + old(db.transactions)[i + 1..]
  {
    var found := TransactionIndex(db.transactions, transactionId, userId);
    if found.None? {
      return Err(NotFound("Transaction"));
    }
    var i := found.value;
    ghost var before := db.transactions;
    db.transactions := db.transactions[..i] + db.transactions[i + 1..];
    forall k | 0 <= k < |db.transactions| ensures db.transactions[k].id < db.nextId {
      if k < i { assert db.transactions[k] == before[k]; } else { assert db.transactions[k] == before[k + 1]; }
    }
    return Ok(());
  }
}
