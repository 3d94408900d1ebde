# invoice_system in Dafny

A verified model of the computational core of *invoice_system*, a personal
finance and invoicing application. It has a FastAPI/SQLAlchemy backend and a
React frontend. The model covers:

- **Category suggestions** (`suggestion_text`, `suggestion_store`,
  `suggestion_engine`, `suggestion_api`):
  - note normalisation and keyword extraction;
  - the learned pattern table, whose confidence is reinforced, redirected or
    penalised;
  - the four-stage suggestion pipeline (exact, keyword, amount, popularity),
    with de-duplication and truncation to the limit;
  - the feedback log and its acceptance statistics;
  - the API layer that checks budget ownership and runs log-then-learn for
    feedback.
- **Invoices and payments** (`invoices`, `payments`):
  - basis-point tax with floor division per line;
  - invoice numbering from the settings sequence;
  - the overdue sweep during listing;
  - creation and update of item rows;
  - sending;
  - payments that lower the balance and clamp it at zero.
- **Budgets** (`budget_db`, `budgets`, `category_templates`, `transactions`,
  `budget_reports`):
  - zero-based budget summaries;
  - one budget per month;
  - category replacement;
  - budgets built from templates;
  - template name rules and forced or replacing deletion;
  - transaction validation, splits, listing, spend roll-ups and updates;
  - the spending, income, category, trend and comparison reports.
- **Paychecks** (`calendar`, `paycheck_schema`, `paychecks`):
  - a Gregorian calendar with month-end clamping;
  - the four pay-frequency rules and the schedules iterated from them;
  - the creation schema's allocation-total validator;
  - partial updates that replace only template allocations;
  - budget funding plans and per-category funding status;
  - automatic allocation of paycheck instances into a budget month.
- **Sinking funds and financial goals** (`sinking_funds`, `financial_goals`):
  - fund progress and summaries;
  - contributions that may not make a balance negative, and their deletion;
  - fund detail pages and partial updates;
  - goal projections, auto-completion, milestones and summaries.
- **Frontend utilities** (`fund_utils`, `category_utils`, `split_form`,
  `category_list`):
  - the progress, months-to-target, colour, validation and sorting helpers of
    the sinking-fund client;
  - the total, grouping, sorting, filtering and validation helpers of the
    budget client;
  - the split-transaction editor;
  - the filter, sort, group and collapse view of the virtualized category list.

Shared pieces live in `common` (option and result types, sums, filters,
ASCII lower-casing, substring search, decimal rendering), `sorting` (one
stable insertion sort, given both as a function and as an in-place array
method proved equal to it) and `grouping` (grouping by a key in first-seen
order).

Database tables are sequence fields of classes (`Db`, `InvoiceDb`,
`PaycheckDb`, `FundDb`, `GoalDb`, `PatternStore`). State-changing handlers
are methods over those classes, with `modifies` clauses. Each such method's
`ensures` states the whole new state as a function of the old one. Lemmas
then prove the properties the system promises about those functions. HTTP
errors are `Result` values (`NotFound`, `BadRequest`, `Invalid`). Clocks
become parameters: "today", "now" and the current year.

Numbers follow the source's own arithmetic:

- money is integer cents and tax rates are basis points;
- suggestion confidence is kept in exact integer tenths (0.7 is 7);
- Python's `//` by a positive divisor is Dafny's `/`;
- Python's `int()` truncation toward zero is written out (`TruncDiv`,
  `TruncReal`);
- ratios that the source computes in floating point are exact Dafny reals.

## Model

| member | source | states |
|---|---|---|
| BudgetDb.OwnedBudget | backend/app/api/budgets.py:133-142 | the budget found has the requested id, belongs to the user and is in the table; when none is found, no budget of the user has that id (the 404 branch) |
| BudgetDb.CategoryInBudget | backend/app/api/transactions.py:92-100 | the category found has the id and belongs to the budget; when none is found, no category of that budget has the id |
| BudgetDb.ByOrderNameIsPreorder | backend/app/api/budgets.py:216 | ordering templates by (order, name) is a total preorder, so the stable sort over it is well defined |
| BudgetReports.FloorMean | backend/app/services/budget_reports.py:47 | the average is the floor of total over count (r·count ≤ total < r·count + count) and 0 for no transactions |
| BudgetReports.PercentageSound | backend/app/services/budget_reports.py:300 | a percentage times the whole is a hundred times the part, it is at most 100 exactly when the part is at most the whole, and a non-positive whole gives 0 |
| BudgetReports.SpendingLine | backend/app/services/budget_reports.py:50-81 | a category's line carries its id and name and counts exactly the transactions the join keeps for it (user, date range and budget filter only) |
| BudgetReports.SpendingLines | backend/app/services/budget_reports.py:72-81 | one line per category, in order, each the category's own line |
| BudgetReports.GenerateSpendingReport | backend/app/services/budget_reports.py:24-47 | the count and total are over exactly the transactions the filters keep, and the average is their floor mean |
| BudgetReports.SpendingReportLines | backend/app/services/budget_reports.py:50-81 | every per-category line has at least one transaction, and every category some filtered transaction joins has its line |
| BudgetReports.JoinedLinesCounted | backend/app/services/budget_reports.py:50-70 | the lines of categories that have a joined transaction all count at least one |
| BudgetReports.JoinedLinesCover | backend/app/services/budget_reports.py:50-70 | every joined category has its line among the lines of the joined categories |
| BudgetReports.CategoryShareCanPassWhole | backend/app/services/budget_reports.py:35-66 | with a minimum amount filter the report's total drops a transaction that the category join still counts, so a category's share can exceed 100 percent |
| BudgetReports.IncludedBudgets | backend/app/services/budget_reports.py:106-115 | only budgets of the user whose first day of month lies in the inclusive range are included |
| BudgetReports.DatedBudgetsInRange | backend/app/services/budget_reports.py:111-115 | the range loop fails with ValueError exactly when some budget of the user has a month outside 1..12 or a year outside 1..9999; otherwise it keeps exactly IncludedBudgets |
| BudgetReports.IncludedBudgetsComplete | backend/app/services/budget_reports.py:111-115 | every budget of the user with its first day in the range is included |
| BudgetReports.MonthEntries | backend/app/services/budget_reports.py:122-129 | one by_month entry per budget, in order, carrying the budget's month, year, income and id |
| BudgetReports.ByYearMonthIsPreorder | backend/app/services/budget_reports.py:132 | the (year, month) key order is a total preorder |
| BudgetReports.GenerateIncomeReport | backend/app/services/budget_reports.py:98-139 | a ValueError exactly when some budget of the user has no valid first day; otherwise count and total income are over the included budgets, the average is their floor mean, and by_month is the stable sort of their entries by (year, month) |
| BudgetReports.IncomeByMonthSound | backend/app/services/budget_reports.py:122-132 | by_month is a permutation of the included budgets' entries, one per budget, sorted ascending by (year, month) |
| BudgetReports.BudgetIds | backend/app/services/budget_reports.py:155-159 | the ids of the budgets, one per budget, in order |
| BudgetReports.CategoryReportRow | backend/app/services/budget_reports.py:165-200 | grouping by the primary key puts one category in each group: budget count 1, averages equal to the category's allocation and spending |
| BudgetReports.CategoryReportRows | backend/app/services/budget_reports.py:176-200 | one report row per category, in order |
| BudgetReports.CategoryReports | backend/app/services/budget_reports.py:161-162 | no budget in range gives an empty report |
| BudgetReports.CategoryReportsSound | backend/app/services/budget_reports.py:165-200 | every row is a category of an included budget, and every category of an included budget has its row |
| BudgetReports.GenerateCategoryReport | backend/app/services/budget_reports.py:141-202 | a ValueError exactly when some budget of the user has no valid first day; otherwise the loop builds exactly the rows of CategoryReports |
| BudgetReports.TruncReal | backend/app/services/budget_reports.py:239 | `int()` truncates toward zero: the result is within one of the real, on the side of zero |
| BudgetReports.TruncRealMonotone | backend/app/services/budget_reports.py:239 | truncation keeps order, so increasing forecasts stay non-decreasing |
| BudgetReports.ChangeSumTelescopes | backend/app/services/budget_reports.py:229-232 | the sum of period-to-period changes is the last total minus the first |
| BudgetReports.Forecast | backend/app/services/budget_reports.py:227-240 | there is no forecast exactly when there are fewer than three periods, and otherwise there are exactly three entries |
| BudgetReports.ForecastNext | backend/app/services/budget_reports.py:234-240 | the forecast loop yields the entries of Forecast |
| BudgetReports.GenerateTrendReport | backend/app/services/budget_reports.py:205-247 | the period type defaults to month, and growth and forecast are those of the trend rows |
| BudgetReports.ForecastSound | backend/app/services/budget_reports.py:226-240 | the average change is (last − first)/(n − 1), the entries are labelled "Forecast +1" to "Forecast +3", and with non-negative growth they never fall below the last total and never decrease |
| BudgetReports.GrowthRateSound | backend/app/services/budget_reports.py:218-224 | growth is 0 unless there are two periods and a positive first total, and then it is the percentage change from first to last |
| BudgetReports.CompareBudget | backend/app/services/budget_reports.py:266-295 | a comparison line has the budget's id and income, and remaining = income − spent |
| BudgetReports.Comparisons | backend/app/services/budget_reports.py:262-295 | one comparison line per included budget, in table order |
| BudgetReports.GenerateComparisonReport | backend/app/services/budget_reports.py:249-307 | a ValueError exactly when some budget of the user has no valid first day; otherwise the lines are those of the in-range budgets, the totals are sums over them, and the average utilisation is the total spent as a percentage of the total income |
| BudgetReports.SpentAddsUp | backend/app/services/budget_reports.py:274-298 | the spending summed over the lines is the spending summed over their budgets |
| BudgetReports.RemainingAddsUp | backend/app/services/budget_reports.py:283-298 | what remains, summed over the lines, is the total income less the total spent |
| Budgets.BudgetSummary | backend/app/api/budgets.py:16-26 | the total allocated is the sum over the budget's categories, total + remaining = income, and the budget is balanced exactly when the total equals the income |
| Budgets.AddPeriodKeepsUnique | backend/app/api/budgets.py:34-45 | adding a budget for a period the user does not have keeps (user, month, year) unique |
| Budgets.CategoryRows | backend/app/api/budgets.py:57-65 | one new row per input, with consecutive ids, copying name, allocation and order; it is active and has no description or group |
| Budgets.CategoryRowsTotal | backend/app/api/budgets.py:57-70 | the new rows allocate exactly what the inputs allocate |
| Budgets.ReplaceCategoriesSound | backend/app/api/budgets.py:148-163 | after a replacement the budget's categories are exactly the new rows, so its summary covers the new allocations only |
| Budgets.ReplaceKeepsOthers | backend/app/api/budgets.py:150-153 | a replacement leaves every other budget's categories as they were |
| Budgets.NewBudgetCategories | backend/app/api/budgets.py:47-70 | a new budget's categories are exactly the rows created with it, and its summary is their total |
| Budgets.SummaryBounds | backend/app/api/budgets.py:16-20 | with non-negative allocations the total is non-negative and remaining is at most the income |
| Budgets.CreateBudget | backend/app/api/budgets.py:28-71 | a body breaking a schema bound gives that field's 422 error and changes nothing; then a duplicate period gives the 400 error and changes nothing; otherwise one budget with the next id is added, with exactly the input categories, and its summary totals the inputs |
| Budgets.BudgetFieldError | backend/app/schemas/budget.py:44-54 | no error exactly when a given month is 1 to 12, a given year 2000 to 2100, a given income not negative and every category allocation not negative |
| Budgets.InsertBudget | backend/app/api/budgets.py:34-71 | the handler body without validation: a duplicate period gives the 400 error and changes nothing; otherwise the budget row and its category rows are added and its summary totals the inputs |
| Budgets.AddBudgetRow | backend/app/api/budgets.py:47-55 | appends the budget row with the next id and changes no other table |
| Budgets.AddCategoryRows | backend/app/api/budgets.py:57-65 | appends exactly the rows of CategoryRows and advances the id counter by their number |
| Budgets.UpdateBudget | backend/app/api/budgets.py:126-169 | a negative income or allocation gives its 422 error; then an unknown or foreign budget gives 404; both change nothing; the income changes only when given, and given categories replace all of the budget's categories |
| Budgets.BudgetIndex | backend/app/api/budgets.py:133-136 | the index found is that of the row OwnedBudget finds, and there is one exactly when that row exists |
| Budgets.SelectedTemplatesSound | backend/app/api/budgets.py:204-216 | given ids select exactly the user's active templates among them; no ids select a permutation of all the user's active templates, sorted by (order, name) |
| Budgets.TemplateInputs | backend/app/api/budgets.py:218-226 | each template gives a category with its name, default allocation and order |
| Budgets.CreateBudgetFromTemplates | backend/app/api/budgets.py:171-232 | a duplicate period gives the 400 error and changes nothing; otherwise the new budget gets one category per selected template |
| Calendar.DaysInMonth | backend/app/api/paychecks.py:474-476 | a month has 28 to 31 days, and 29 exactly for February of a leap year (what `monthrange` gives) |
| Calendar.LastDayOfMonth | backend/app/api/paychecks.py:32-33 | the first day of the next month minus one day is a valid date |
| Calendar.NextDay | backend/app/api/paychecks.py:24 | the day after a valid date is valid |
| Calendar.PrevDay | backend/app/api/paychecks.py:33 | `+ relativedelta(days=-1)` of a valid date is valid |
| Calendar.AddDays | backend/app/api/paychecks.py:24-26 | `+ timedelta(days=n)` of a valid date is valid |
| Calendar.AddMonths | backend/app/api/paychecks.py:35 | `+ relativedelta(months=n)` of a valid date is valid: the day is cut down to the length of the month it lands in |
| Calendar.OrdinalNextDay | backend/app/api/paychecks.py:24 | the next day is the next day number |
| Calendar.OrdinalPrevDay | backend/app/api/paychecks.py:33 | the previous day is the previous day number |
| Calendar.OrdinalAddDays | backend/app/api/paychecks.py:24-26 | adding n days moves the day number by exactly n, so weekly and biweekly steps are 7 and 14 days apart |
| Calendar.OrdinalOrder | backend/app/api/paychecks.py:485 | comparing dates field by field is comparing their day numbers |
| Calendar.OrdinalInjective | backend/app/api/paychecks.py:489-493 | different valid dates have different day numbers |
| Calendar.WithinMonth | backend/app/api/paychecks.py:474-485 | a valid date lies between the first and last day of a month exactly when it is in that month |
| CategoryList.FilteredCategories | frontend/src/components/VirtualizedCategoryList.tsx:242-274 | the filter-then-sort-in-place computes Visible |
| CategoryList.ListLeIsPreorder | frontend/src/components/VirtualizedCategoryList.tsx:249-271 | the comparator on each key, ascending or descending, is a total preorder |
| CategoryList.VisibleSound | frontend/src/components/VirtualizedCategoryList.tsx:243-271 | exactly the active categories whose lower-cased name contains the lower-cased term are shown, each as often as given, sorted by the chosen key and direction |
| CategoryList.NoTermShowsActive | frontend/src/components/VirtualizedCategoryList.tsx:243-246 | with an empty search term every active category is shown and no other |
| CategoryList.DisplayGroupStep | frontend/src/components/VirtualizedCategoryList.tsx:285-293 | one step of the grouping loop: a category joins the ungrouped list or the end of its group, creating the group if new |
| CategoryList.SplitByGroup | frontend/src/components/VirtualizedCategoryList.tsx:282-293 | the loop's groups hold the named rows by key, in first-seen key order and input order, and the ungrouped list holds the rest in order |
| CategoryList.EmitGroups | frontend/src/components/VirtualizedCategoryList.tsx:298-312 | the loop emits, group by group, the header followed by its categories unless collapsed |
| CategoryList.EmitUngrouped | frontend/src/components/VirtualizedCategoryList.tsx:315-329 | the 'Ungrouped' header and its categories are pushed only when there are any |
| CategoryList.DisplayItems | frontend/src/components/VirtualizedCategoryList.tsx:277-332 | the memo's result is Display for the grouping mode and collapsed set |
| CategoryList.WrapContents | frontend/src/components/VirtualizedCategoryList.tsx:278-280 | plain category rows carry no headers and give back the categories |
| CategoryList.BlockContents | frontend/src/components/VirtualizedCategoryList.tsx:300-311 | a block carries exactly its own header, then its categories unless collapsed |
| CategoryList.BlocksHeaderNames | frontend/src/components/VirtualizedCategoryList.tsx:298-312 | the blocks of the group keys carry exactly those headers, in order |
| CategoryList.BlocksCategories | frontend/src/components/VirtualizedCategoryList.tsx:298-312 | with nothing collapsed, the blocks' categories are the groups' members laid end to end |
| CategoryList.BlocksHeaders | frontend/src/components/VirtualizedCategoryList.tsx:299-305 | every header carries its group's members, their allocated total, and whether its name is collapsed |
| CategoryList.NamedKeysNotUngrouped | frontend/src/components/VirtualizedCategoryList.tsx:286-291 | no named group is keyed 'Ungrouped' |
| CategoryList.NamedMembers | frontend/src/components/VirtualizedCategoryList.tsx:286-291 | a named group holds the same categories whether taken over the named rows or over all rows |
| CategoryList.DisplayUngroupedList | frontend/src/components/VirtualizedCategoryList.tsx:278-280 | with grouping 'none' the items are the filtered categories, one row each, in order |
| CategoryList.DisplayHeaderOrder | frontend/src/components/VirtualizedCategoryList.tsx:282-329 | the headers are the distinct group keys in first-seen order, then 'Ungrouped' exactly when some category has no group; no header repeats |
| CategoryList.DisplayHeaderContents | frontend/src/components/VirtualizedCategoryList.tsx:299-321 | each header, the 'Ungrouped' one included, carries all shown categories of its key, their allocated total and whether its name is collapsed |
| CategoryList.DisplayAllShown | frontend/src/components/VirtualizedCategoryList.tsx:298-329 | with nothing collapsed every shown category appears among the rows exactly as often as it is shown |
| CategoryList.DisplayCategories | frontend/src/components/VirtualizedCategoryList.tsx:298-329 | with nothing collapsed the rows' categories are the named groups' sections followed by the ungrouped ones |
| CategoryList.Toggled | frontend/src/components/VirtualizedCategoryList.tsx:336-341 | the name is in the new set exactly when it was not in the old one, and every other name keeps its membership |
| CategoryList.ToggleTwice | frontend/src/components/VirtualizedCategoryList.tsx:334-344 | toggling the same name twice gives back the set |
| CategoryList.CollapsedGroups.constructor | frontend/src/components/VirtualizedCategoryList.tsx:239 | no group starts collapsed |
| CategoryList.CollapsedGroups.HandleGroupToggle | frontend/src/components/VirtualizedCategoryList.tsx:334-344 | the collapsed set becomes the toggled copy of the old one |
| CategoryTemplates.TemplateIndex | backend/app/api/category_templates.py:122-131 | the index found is of a template with that id owned by the user; none found means the user has no such template |
| CategoryTemplates.GetTemplate | backend/app/api/category_templates.py:94-112 | the template returned has the id and owner asked for; otherwise the error is not-found and the user has no such template |
| CategoryTemplates.AddKeepsUnique | backend/app/api/category_templates.py:26-43 | adding a template whose name the user has no active template of keeps active names unique per user |
| CategoryTemplates.CreateTemplate | backend/app/api/category_templates.py:18-47 | a body breaking a schema constraint gives that field's 422 error; then an active template of the user with the same name gives the 400 error; both change nothing; otherwise one active template with the next id is appended, and active names stay unique |
| CategoryTemplates.TemplateFieldError | backend/app/schemas/category_template.py:5-23 | no error exactly when every given field keeps its bound: a name of 1 to 100 characters, a type of income, expense or savings, an icon of at most 50 characters, a colour `#` and six hex digits, a default allocation and an order not negative |
| CategoryTemplates.CreateFieldError | backend/app/schemas/category_template.py:5-14 | a creation body passes exactly when its name, type and amounts meet the bounds and its icon and colour, when present, do too |
| CategoryTemplates.ListTemplates | backend/app/api/category_templates.py:49-92 | a limit above 500 or a negative offset is rejected; then a non-empty group filter raises AttributeError; otherwise the response carries the page and a total that counts every match before paging |
| CategoryTemplates.ListTemplatesSound | backend/app/api/category_templates.py:77-92 | the page holds only matching templates, sorted by (order, name); it is exactly the run of the sorted matches that starts at the offset, `Min(limit, total - offset)` long (the rest for a negative limit), none past the end, and all of them when the offset is 0 and the limit does not bind |
| CategoryTemplates.FieldEntry | backend/app/api/category_templates.py:149 | each field contributes at most one entry to the set-fields dump |
| CategoryTemplates.DumpUpTo | backend/app/api/category_templates.py:149 | the first k fields contribute at most k entries |
| CategoryTemplates.SetFields | backend/app/api/category_templates.py:149 | `dict(exclude_unset=True)` has at most one entry per field |
| CategoryTemplates.ApplyFieldsAppend | backend/app/api/category_templates.py:150-151 | the setattr loop over two runs of entries is the loop over the first, then the second |
| CategoryTemplates.ApplyOne | backend/app/api/category_templates.py:150-151 | no entry changes nothing and one entry sets its one field |
| CategoryTemplates.ApplyUpTo | backend/app/api/category_templates.py:149-151 | setting the dumped entries of the first k fields gives the template with those k fields updated |
| CategoryTemplates.UpToStep | backend/app/api/category_templates.py:150-151 | the entry of field k takes the template from k − 1 updated fields to k |
| CategoryTemplates.UpdateSetsOnlyGivenFields | backend/app/api/category_templates.py:148-151 | the setattr loop changes exactly the fields the request set, never the id or owner, and an empty request changes nothing |
| CategoryTemplates.UpdateKeepsUnique | backend/app/api/category_templates.py:133-151 | a rename without conflict that does not reactivate the template keeps active names unique |
| CategoryTemplates.ReactivationCanDuplicate | backend/app/api/category_templates.py:133-151 | reactivating a template skips the name check, so two active templates of one user can end up with the same name |
| CategoryTemplates.UpdateTemplate | backend/app/api/category_templates.py:114-156 | a body breaking a schema constraint gives 422, an unknown template 404 and a rename onto another active template's name 400, each changing nothing; otherwise only the set fields of that template change |
| CategoryTemplates.UpdateFieldError | backend/app/schemas/category_template.py:16-23 | an update body passes exactly when every field it sets meets its bound, an icon or colour set to null included |
| CategoryTemplates.ActiveTemplate | backend/app/api/category_templates.py:193-197 | the replacement found is the user's active template with that id; none found means there is no such active template |
| CategoryTemplates.RenamedCategories | backend/app/api/category_templates.py:205-214 | each category with the template's name is renamed and every other is kept, position by position |
| CategoryTemplates.RenameClears | backend/app/api/category_templates.py:206-214 | after renaming to a different name no category keeps the old name, and the new name gains exactly the renamed ones |
| CategoryTemplates.DeletedNameDiffers | backend/app/api/category_templates.py:214 | "Deleted: " + name always differs from the name |
| CategoryTemplates.DeleteTemplate | backend/app/api/category_templates.py:158-225 | an unknown template gives 404; a used template without force gives requires_force and changes nothing; a missing or inactive replacement gives 400 and changes nothing; otherwise every used category is renamed (replacement's name or "Deleted: " + name) and the template is deactivated, never removed |
| CategoryTemplates.RenameUsed | backend/app/api/category_templates.py:206-214 | the renaming loop leaves exactly the renamed categories and touches no other table |
| CategoryTemplates.DeactivateKeepsUnique | backend/app/api/category_templates.py:217 | soft-deleting a template keeps active names unique |
| CategoryUtils.CalculateTotal | frontend/src/lib/budget-api.ts:293-295 | the total of no categories is 0 |
| CategoryUtils.CalculateTotalAppend | frontend/src/lib/budget-api.ts:293-295 | the total of two lists put together is the sum of their totals |
| CategoryUtils.CalculateTotalNonNegative | frontend/src/lib/budget-api.ts:293-295 | with no negative allocation the total is not negative |
| CategoryUtils.GroupName | frontend/src/lib/budget-api.ts:302 | an absent or empty group falls back to 'Ungrouped', so no key is empty, and a named group is its own key |
| CategoryUtils.GroupCategories | frontend/src/lib/budget-api.ts:300-307 | the reduce builds the grouping of the categories by GroupName, keys in first-seen order |
| CategoryUtils.GroupCategoriesSound | frontend/src/lib/budget-api.ts:300-307 | every category is in exactly the group of its key, no group is empty, each keeps input order, and the groups laid end to end are a permutation of the input with the same total |
| CategoryUtils.SortCategories | frontend/src/lib/budget-api.ts:312-340 | the sorted copy is the stable sort by the chosen key and direction; the input is a value and stays as it was |
| CategoryUtils.CategoryLeIsPreorder | frontend/src/lib/budget-api.ts:317-339 | the comparator is a total preorder for each key and direction |
| CategoryUtils.SortCategoriesSound | frontend/src/lib/budget-api.ts:312-340 | the copy is a permutation of the input, ordered by the chosen key, ascending or descending |
| CategoryUtils.SortByAllocatedOrdered | frontend/src/lib/budget-api.ts:325-328 | sorting by amount puts the amounts in ascending (or descending) order |
| CategoryUtils.FilterCategories | frontend/src/lib/budget-api.ts:345-357 | an empty term hands back the list itself, and the result only holds categories of the input |
| CategoryUtils.FilterCategoriesSound | frontend/src/lib/budget-api.ts:349-356 | a non-empty term keeps exactly the categories whose name, description or group contains it ignoring case, in input order |
| CategoryUtils.CategoryMessages | frontend/src/lib/budget-api.ts:365-379 | one message per failed check, in the same order |
| CategoryUtils.FailedChecks | frontend/src/lib/budget-api.ts:365-379 | a check is listed exactly when it fails |
| CategoryUtils.ValidateCategory | frontend/src/lib/budget-api.ts:362-382 | the pushed errors are the messages of the failed checks |
| CategoryUtils.CategoryMessagesOfFailed | frontend/src/lib/budget-api.ts:365-379 | the messages are, in order, those of the name-required, name-too-long, negative-amount and negative-order checks that fail |
| CategoryUtils.FailedChecksSound | frontend/src/lib/budget-api.ts:362-382 | no error exactly when the draft is valid, and the errors come in the fixed order of the checks |
| CategoryUtils.NoneFailedValid | frontend/src/lib/budget-api.ts:362-382 | no check fails exactly when the draft is valid |
| CategoryUtils.FailedChecksRanked | frontend/src/lib/budget-api.ts:365-379 | the failed checks are in the order the checks run |
| CategoryUtils.NameOnlyDraft | frontend/src/lib/budget-api.ts:373-379 | an absent amount or order is not checked: a draft with only a good name passes |
| Common.Page | backend/app/api/category_templates.py:84 | `.offset(o).limit(l)` with SQLite semantics: exactly the run of the rows that starts max(offset, 0) in, as long as the limit allows (all that remain for a negative limit), and all rows when neither bites |
| Common.PySliceTo | backend/app/api/sinking_funds.py:138 | Python's `s[:n]`, a negative n dropping the last −n elements |
| Common.Lower | frontend/src/lib/budget-api.ts:351 | `toLowerCase()` on ASCII: same length, character by character |
| Common.DecimalString | backend/app/api/invoices.py:39 | the decimal digits of a number: at least one, all digits |
| Common.DecimalStringValue | backend/app/api/invoices.py:39 | the digits read back as the number |
| FinancialGoals.Dollars | backend/app/api/financial_goals.py:30-32 | `cents / 100` taken exactly: the dollars times 100 are the cents |
| FinancialGoals.GoalIndex | backend/app/api/financial_goals.py:191-197 | the index found is the first goal with that id owned by the user; none found means the user has no such goal |
| FinancialGoals.GetGoal | backend/app/api/financial_goals.py:137-152 | the goal returned has the id and owner asked for; otherwise the error is "Goal not found" and there is no such goal |
| FinancialGoals.AutoCompleted | backend/app/api/financial_goals.py:206-208 | the status changes only from active to completed, afterwards no goal is active with its target reached, and nothing else changes |
| FinancialGoals.Contributed | backend/app/api/financial_goals.py:257-263 | a contribution adds exactly its amount to the saved amount and stamps the time, keeping id, owner and target |
| FinancialGoals.ContributionsAddUp | backend/app/api/financial_goals.py:257-263 | two contributions, the second not negative, are one of their sum, and an active goal ends completed exactly when the sum reaches what was missing |
| FinancialGoals.TruncDiv | backend/app/api/financial_goals.py:43 | `int(a / b)` for a positive b is the quotient truncated toward zero |
| FinancialGoals.DivBounds | backend/app/api/financial_goals.py:43 | for a non-negative dividend, truncated and Euclidean quotients agree and are bounded as usual |
| FinancialGoals.TruncDivPassed | backend/app/api/financial_goals.py:43 | one more than the truncated quotient always exceeds the dividend, so the projected months always reach the target |
| FinancialGoals.CalculateProjection | backend/app/api/financial_goals.py:27-68 | ValueError exactly when a positive monthly amount puts the completion date outside years 1..9999; otherwise the projection is for the goal's id, its shortfall is never negative, and a projected completion date lies in 1..9999 |
| FinancialGoals.ProjectionPastYear9999 | backend/app/api/financial_goals.py:42-44 | a $100,000 goal with nothing saved and $1 a month is 100,001 months away, in year 10357, and its projection raises ValueError |
| FinancialGoals.DividedAtMost | backend/app/api/financial_goals.py:54-55 | comparing with y/k is comparing k times, for a positive k |
| FinancialGoals.ProjectionShortfall | backend/app/api/financial_goals.py:57-58 | when the projection does not raise, the projected final amount is the saved amount plus the months' contributions, and the shortfall is zero exactly when that reaches the target, otherwise the gap |
| FinancialGoals.FinalInCents | backend/app/api/financial_goals.py:57-58 | the dollar arithmetic of the final amount and shortfall equals the same arithmetic in cents |
| FinancialGoals.ProjectionWithoutContribution | backend/app/api/financial_goals.py:36-41 | no positive monthly contribution never raises and gives 999 months, not on track, the target date, and the whole remainder as the required monthly amount |
| FinancialGoals.ProjectionWithContribution | backend/app/api/financial_goals.py:42-44 | with a positive contribution the projection raises exactly when the date the truncated quotient plus one months from today leaves years 1..9999; otherwise it gives that month count and date, a final amount above the target and no shortfall |
| FinancialGoals.ProjectionOnTrack | backend/app/api/financial_goals.py:47-55 | when the projection does not raise: with the target month passed, on track means already saved; otherwise it means the monthly amount times the months left covers the remainder |
| FinancialGoals.CoversInCents | backend/app/api/financial_goals.py:54-55 | the dollar test `monthly >= remaining / k` is the cent test monthly·k ≥ remaining |
| FinancialGoals.ByPriorityDateIsPreorder | backend/app/api/financial_goals.py:105 | the (priority, target date) key order is a total preorder |
| FinancialGoals.ListGoals | backend/app/api/financial_goals.py:93-106 | one entry per goal that passes the filters |
| FinancialGoals.ListGoalsSound | backend/app/api/financial_goals.py:100-105 | the list is a permutation of the user's goals that pass the status filter, sorted by priority then target date |
| FinancialGoals.Summarize | backend/app/api/financial_goals.py:109-134 | the total counts the user's goals, and no target gives 0 percent progress |
| FinancialGoals.ActiveAndCompletedAtMost | backend/app/api/financial_goals.py:117-119 | no goal is both active and completed, so the two counts never exceed the total |
| FinancialGoals.SummaryAddGoal | backend/app/api/financial_goals.py:117-122 | one more goal of the user adds one to the total, one to the active or completed count by its status, its amounts to the sums, and its monthly amount only when active |
| FinancialGoals.SummaryOtherUser | backend/app/api/financial_goals.py:115 | another user's goal changes nothing in the summary |
| FinancialGoals.SummaryCountsBounded | backend/app/api/financial_goals.py:117-119 | active plus completed is at most the total |
| FinancialGoals.GoalFieldEntry | backend/app/api/financial_goals.py:200 | each field gives at most one entry of the update dict |
| FinancialGoals.GoalDumpUpTo | backend/app/api/financial_goals.py:200 | the first k fields give at most k entries |
| FinancialGoals.GoalFields | backend/app/api/financial_goals.py:200 | the update dict has at most one entry per field |
| FinancialGoals.ApplyGoalFieldsAppend | backend/app/api/financial_goals.py:201-202 | the setattr loop over two runs of entries is the loop over the first, then the second |
| FinancialGoals.ApplyOneGoalField | backend/app/api/financial_goals.py:201-202 | no entry changes nothing and one entry sets its field |
| FinancialGoals.ApplyGoalUpTo | backend/app/api/financial_goals.py:200-202 | the entries of the first k fields give the goal with those k fields updated |
| FinancialGoals.GoalUpdateStep | backend/app/api/financial_goals.py:201-202 | the entry of field k takes the goal from k − 1 updated fields to k |
| FinancialGoals.GoalUpdateSetsOnlyGivenFields | backend/app/api/financial_goals.py:199-202 | the loop changes exactly the set fields, keeps id, owner, dates and times, and an empty request changes nothing |
| FinancialGoals.MilestoneFields | backend/app/api/financial_goals.py:360 | `model_dump(exclude_unset=True)` has at most one entry per field |
| FinancialGoals.ApplyMilestoneFieldsAppend | backend/app/api/financial_goals.py:361-369 | the field loop over two runs of entries is the loop over the first, then the second |
| FinancialGoals.ApplyOneMilestoneField | backend/app/api/financial_goals.py:361-369 | no entry changes nothing and one entry applies its rule |
| FinancialGoals.MilestoneUpdateSound | backend/app/api/financial_goals.py:360-369 | `achieved` true sets 1 and today's date, false sets 0 and no date, so a milestone whose date was set iff achieved stays so |
| FinancialGoals.NameStep | backend/app/api/financial_goals.py:368-369 | a set name is assigned and nothing else changes |
| FinancialGoals.TargetStep | backend/app/api/financial_goals.py:368-369 | a set target is assigned and nothing else changes |
| FinancialGoals.DateStep | backend/app/api/financial_goals.py:368-369 | a set target date is assigned and nothing else changes |
| FinancialGoals.AchievedStep | backend/app/api/financial_goals.py:362-367 | a set `achieved` sets the flag and the date together and nothing else |
| FinancialGoals.MilestoneIndex | backend/app/api/financial_goals.py:352-358 | the index found is of a milestone with that id on the goal; none found means the goal has no such milestone |
| FinancialGoals.ContributionsOfGoal | backend/app/api/financial_goals.py:286 | a row is listed exactly when it is a contribution of that goal, and the rows keep table order |
| FinancialGoals.MilestonesOfGoal | backend/app/api/financial_goals.py:332 | a row is listed exactly when it is a milestone of that goal, and the rows keep table order |
| FinancialGoals.GetContributions | backend/app/api/financial_goals.py:271-286 | an unknown goal gives exactly the not-found error; otherwise a row is returned exactly when it is a contribution of the goal, in table order |
| FinancialGoals.GetMilestones | backend/app/api/financial_goals.py:317-332 | an unknown goal gives exactly the not-found error; otherwise a row is returned exactly when it is a milestone of the goal, in table order |
| FinancialGoals.ContributionsOfGoalAppend | backend/app/api/financial_goals.py:265 | a new contribution is listed last among its goal's |
| FinancialGoals.MilestonesOfGoalAppend | backend/app/api/financial_goals.py:311 | a new milestone is listed last among its goal's |
| FinancialGoals.GoalDb.constructor | backend/app/api/financial_goals.py:71-90 | the store starts empty |
| FinancialGoals.CreateGoal | backend/app/api/financial_goals.py:71-90 | a body breaking a schema bound gives that field's 422 error and changes nothing; otherwise the goal gets the next id, nothing saved and the active status, is appended, and is then found by GetGoal |
| FinancialGoals.GoalCreateError | backend/app/schemas/financial_goal.py:74-83 | no error exactly when the type is one of the ten goal types, the target is positive, the monthly contribution not negative and the priority 1 to 5 |
| FinancialGoals.GoalUpdateError | backend/app/schemas/financial_goal.py:96-107 | no error exactly when every field an update sets meets its bound: a goal type or status of the enumerations, a positive target, a current amount and monthly contribution not negative, a priority 1 to 5 |
| FinancialGoals.PositiveFieldError | backend/app/schemas/financial_goal.py:27-58 | a contribution amount or milestone target, when given, passes exactly when positive, and a failure names the field |
| FinancialGoals.NewGoalFound | backend/app/api/financial_goals.py:71-90 | a goal with an id above all stored ones is found, after them |
| FinancialGoals.GoalProjection | backend/app/api/financial_goals.py:155-180 | an unknown goal gives 404; otherwise the answer, ValueError included, is the projection of the goal with the override when given, and the stored goal is left exactly as it was |
| FinancialGoals.UpdateGoal | backend/app/api/financial_goals.py:183-212 | a body breaking a schema bound gives 422 and an unknown goal 404, both changing nothing; otherwise the set fields are assigned, the time stamped, and the goal completed when active and fully saved |
| FinancialGoals.DeleteGoal | backend/app/api/financial_goals.py:215-232 | an unknown goal gives 404; otherwise the goal goes, with its contributions and milestones |
| FinancialGoals.AddContribution | backend/app/api/financial_goals.py:236-268 | an amount not above zero gives 422 and an unknown goal 404, both changing nothing; otherwise one contribution is appended and the goal gets the amount and the auto-completion check |
| FinancialGoals.RecordContribution | backend/app/api/financial_goals.py:243-268 | the handler body after validation: an unknown goal gives 404 and changes nothing; otherwise one contribution is appended, listed last among its goal's, and the goal gets the amount and the auto-completion check |
| FinancialGoals.CreateMilestone | backend/app/api/financial_goals.py:290-314 | a target not above zero gives 422 and an unknown goal 404, both changing nothing; otherwise one unachieved milestone without a date is appended |
| FinancialGoals.AssignMilestoneFields | backend/app/api/financial_goals.py:361-369 | the loop applies the entries in order |
| FinancialGoals.UpdateMilestone | backend/app/api/financial_goals.py:335-373 | a target set to zero or less gives 422, an unknown goal or milestone 404, each changing nothing; otherwise that milestone becomes UpdatedMilestone and no other row changes |
| FinancialGoals.DeleteMilestone | backend/app/api/financial_goals.py:376-402 | an unknown goal or milestone gives 404; otherwise exactly that milestone goes |
| FundUtils.CalculateProgress | frontend/src/lib/sinking-funds-api.ts:195-198 | never above 100; 0 for a zero target; exactly 100 once the balance reaches a positive target; not negative for a non-negative balance |
| FundUtils.ProgressBelowTarget | frontend/src/lib/sinking-funds-api.ts:197 | below the target the percentage is exactly balance/target·100 |
| FundUtils.CeilDiv | frontend/src/lib/sinking-funds-api.ts:208 | `Math.ceil(a / b)`: the least multiple of a positive b at or above a, for either sign of b |
| FundUtils.MonthsToTarget | frontend/src/lib/sinking-funds-api.ts:203-209 | null exactly when the contribution is 0 or nothing remains |
| FundUtils.MonthsToTargetLeast | frontend/src/lib/sinking-funds-api.ts:207-208 | with a positive contribution the answer is the least number of months, at least one, whose contributions cover what remains |
| FundUtils.ProgressBand | frontend/src/lib/sinking-funds-api.ts:225-242 | the band counts which of the thresholds 25, 50, 75 and 100 the percentage reaches, each reached exactly when the percentage is at least it |
| FundUtils.ProgressBandMonotone | frontend/src/lib/sinking-funds-api.ts:225-242 | a higher percentage never falls into a lower band |
| FundUtils.ProgressColor | frontend/src/lib/sinking-funds-api.ts:225-231 | the text colour is the one of the percentage's band, red to green |
| FundUtils.ProgressBarColor | frontend/src/lib/sinking-funds-api.ts:236-242 | the bar colour is the one of the percentage's band, red to green |
| FundUtils.FundMessages | frontend/src/lib/sinking-funds-api.ts:250-264 | one message per failed check, in the same order |
| FundUtils.FundMessagesSnoc | frontend/src/lib/sinking-funds-api.ts:250-264 | a push adds its one message at the end |
| FundUtils.FailedChecks | frontend/src/lib/sinking-funds-api.ts:250-264 | a check is listed exactly when it fails |
| FundUtils.ValidateFund | frontend/src/lib/sinking-funds-api.ts:247-267 | the pushed errors are the messages of the failed checks |
| FundUtils.FundMessagesOfFailed | frontend/src/lib/sinking-funds-api.ts:250-264 | the messages are, in order, those of the name-required, name-too-long, target-not-positive and negative-monthly checks that fail |
| FundUtils.FailedChecksSound | frontend/src/lib/sinking-funds-api.ts:247-267 | no error exactly when the fund is valid, and the errors come in the fixed order of the checks |
| FundUtils.NoneFailedValid | frontend/src/lib/sinking-funds-api.ts:247-267 | no check fails exactly when the fund is valid |
| FundUtils.FailedChecksRanked | frontend/src/lib/sinking-funds-api.ts:250-264 | the failed checks are in the order the checks run |
| FundUtils.BlankNameRequired | frontend/src/lib/sinking-funds-api.ts:250-252 | a name of nothing but white space is reported first, as required |
| FundUtils.SortFunds | frontend/src/lib/sinking-funds-api.ts:272-304 | the sorted copy is the stable sort of the funds under the source's comparator; the input is a value and stays as it was |
| FundUtils.RatioLessNaNLastIsStrictTotal | frontend/src/lib/sinking-funds-api.ts:286-287 | IEEE `<` with NaN placed last is a strict total order on the progress keys |
| FundUtils.SortFundsSound | frontend/src/lib/sinking-funds-api.ts:272-304 | the copy is a permutation of the funds, ordered by the chosen key, ascending or descending when flagged |
| Grouping.GroupKeys | frontend/src/lib/budget-api.ts:300-307 | the keys of the rows, each once, in first-seen order |
| Grouping.Members | frontend/src/lib/budget-api.ts:303-304 | a group holds rows of the input with its key |
| Grouping.GroupStep | frontend/src/lib/budget-api.ts:302-304 | one `if (!groups[g]) groups[g] = []; groups[g].push(x)` keeps the map equal to the grouping of the rows seen, the new key last |
| Grouping.Push | frontend/src/lib/budget-api.ts:303-304 | the push appends the row to its group, creating the group and recording its key when new |
| Grouping.GroupKeysExactly | frontend/src/lib/budget-api.ts:300-307 | a key is listed exactly when its group is not empty |
| Grouping.SectionsPartition | frontend/src/lib/budget-api.ts:300-307 | the groups named by distinct keys covering every row hold each row exactly once and add up to the whole |
| Grouping.GroupsPartition | frontend/src/lib/budget-api.ts:300-307 | the groups in first-seen key order hold each row exactly once and add up to the whole |
| Invoices.LineTax | backend/app/api/invoices.py:21-22 | the line tax is the floor of quantity·unit price·tax rate over 10000, for negative lines too |
| Invoices.InvoiceTotals | backend/app/api/invoices.py:16-27 | the subtotal is the sum of the line subtotals, the tax the sum of the per-line taxes, and the total is subtotal plus tax minus the discount |
| Invoices.CalculateInvoiceTotals | backend/app/api/invoices.py:16-27 | the running-sum loop returns exactly the totals defined line by line |
| Invoices.TaxPerLine | backend/app/api/invoices.py:22-24 | rounding each line down never yields more tax than rounding the summed tax, and loses less than one cent per line |
| Invoices.FloorOfSum | backend/app/api/invoices.py:22-24 | the floors of two amounts add up to the floor of their sum or one less |
| Invoices.TaxedPerLineNotOnSum | backend/app/api/invoices.py:22-24 | two one-cent lines at 50% carry no tax although the tax of their sum would round to one cent |
| Invoices.ItemRows | backend/app/api/invoices.py:98-111 | one stored row per line, in order, with consecutive ids, the line's fields and its subtotal plus tax as the line total |
| Invoices.StoredLineTotals | backend/app/api/invoices.py:98-111 | the stored line totals add up to subtotal plus tax, without the discount |
| Invoices.Zeros | backend/app/api/invoices.py:40 | a string of k zero digits |
| Invoices.ZeroPad | backend/app/api/invoices.py:40 | the `:04d` padding is as long as the wider of the digits and the width |
| Invoices.LeadingZeros | backend/app/api/invoices.py:40 | zeros put in front of a digit string keep its value |
| Invoices.AllZeros | backend/app/api/invoices.py:40 | a string of zeros reads as 0 |
| Invoices.PaddedValue | backend/app/api/invoices.py:40 | a zero-padded number is all digits and reads back as the number |
| Invoices.FormatSequenceInjective | backend/app/api/invoices.py:40 | the four-digit sequence field is at least four characters and differs for any two sequence numbers |
| Invoices.SignDiffers | backend/app/api/invoices.py:40 | a digit string never equals a string that starts with a minus sign |
| Invoices.FormatSequenceValue | backend/app/api/invoices.py:40 | a non-negative sequence formats to digits with its value; a negative one to a minus sign followed by the digits of its magnitude |
| Invoices.InvoiceNumbersDistinct | backend/app/api/invoices.py:40 | for one prefix and year, different sequence numbers give different invoice numbers |
| Invoices.NextSettings | backend/app/api/invoices.py:30-36 | with no settings row the defaults are created and then incremented; otherwise the prefix is kept and the sequence goes up by one |
| Invoices.SuccessiveNumbersDistinct | backend/app/api/invoices.py:36-40 | numbers drawn after different counts of increments in one year are different |
| Invoices.InvoiceDb.constructor | backend/app/api/invoices.py:29-31 | the store opens with no invoices, lines, payments or settings row |
| Invoices.GenerateInvoiceNumber | backend/app/api/invoices.py:29-40 | the settings advance by one and the returned number is prefix, year and the new padded sequence; nothing else in the store changes |
| Invoices.FindInvoice | backend/app/api/invoices.py:135-137 | the position of an invoice with the id, or none exactly when no invoice has it |
| Invoices.Swept | backend/app/api/invoices.py:59-69 | the overdue sweep maps each invoice on its own and keeps the list's length |
| Invoices.SweptSound | backend/app/api/invoices.py:53-69 | an invoice matching the filters, past due, with money owed and not paid becomes overdue; every other invoice, paid ones included, is untouched; sweeping twice is sweeping once |
| Invoices.ListPage | backend/app/api/invoices.py:51-72 | the page holds only invoices of the list that match the status filter and, ignoring ASCII case, the number filter; it is the slice of the matches that starts (page - 1) * limit in, of the remaining length cut to the limit, and lists every match when it starts at the beginning and the limit does not bind |
| Common.PageWindow | backend/app/api/invoices.py:71-72 | an OFFSET/LIMIT window lies inside the list and is the slice of it that starts max(offset, 0) in, holding the rest from there cut to a non-negative limit |
| Invoices.ListInvoices | backend/app/api/invoices.py:42-72 | the stored invoices are replaced by their swept versions and the page is taken from the swept list; lines, payments and settings are untouched |
| Invoices.DraftInvoice | backend/app/api/invoices.py:80-94 | a new invoice carries the sent fields, totals computed from its lines, the whole total still due, and draft status |
| Invoices.CreateInvoice | backend/app/api/invoices.py:74-115 | the invoice takes the next number and the next id, is appended, and its lines are appended with the following ids; payments are untouched |
| Invoices.AddItemRows | backend/app/api/invoices.py:98-111 | the loop appends exactly the rows of the lines and advances the id counter by their count |
| Invoices.UpdatedInvoice | backend/app/api/invoices.py:139-149 | each sent field replaces the stored one; totals are recomputed, with the discount as it now stands, only when lines are sent; id, number, status and balance due never change |
| Invoices.DiscountAloneKeepsTotal | backend/app/api/invoices.py:139-149 | a discount sent without lines is stored but leaves the total and the balance due as they were |
| Invoices.UpdateInvoice | backend/app/api/invoices.py:128-168 | a missing id is a not-found error with nothing changed; otherwise the invoice is updated and, when lines are sent, its old lines are removed and the new ones appended |
| Invoices.SendInvoice | backend/app/api/invoices.py:170-186 | a missing id is a not-found error; otherwise only the status changes, to sent, whatever it was before |
| Payments.AppliedPayment | backend/app/api/payments.py:31-35 | the balance goes down by the amount; at or below zero it is clamped to 0 and the invoice is paid, otherwise the status is kept; nothing else changes |
| Payments.PaymentsCompose | backend/app/api/payments.py:31-35 | two payments that leave money owed after the first equal one payment of their sum, and paying the whole balance marks the invoice paid |
| Payments.NegativePaymentOnPaid | backend/app/api/payments.py:31-35 | a negative amount on a paid invoice raises the balance again while the invoice stays paid |
| Payments.RecordPayment | backend/app/api/payments.py:12-39 | a missing invoice is a not-found error with nothing stored; otherwise the payment is appended with the next id and applied to the invoice |
| PaycheckSchema.ParseAllocation | backend/app/schemas/paycheck.py:15-18 | an allocation is accepted exactly when its amount is not negative, keeping its category and amount, with order 0 when absent |
| PaycheckSchema.ParsedAllocations | backend/app/schemas/paycheck.py:15-18 | a well-formed list parses element by element in order |
| PaycheckSchema.PaycheckCreateErrors | backend/app/schemas/paycheck.py:35-52 | no errors exactly when the name is 1 to 255 characters, the net amount is present and not negative, every allocation is valid and their total does not exceed the net amount |
| PaycheckSchema.TotalSkippedWithoutNet | backend/app/schemas/paycheck.py:46-52 | when the net amount failed validation the allocation total is not checked and the net amount error is reported |
| PaycheckSchema.InstanceCreateErrors | backend/app/schemas/paycheck.py:75-84 | a paycheck instance is accepted exactly when its amount is not negative and its allocations are valid; their total is not compared with it |
| PaycheckSchema.ParsedTotal | backend/app/schemas/paycheck.py:49 | the parsed allocations add up to the sum of the raw amounts, which is not negative |
| Paychecks.NextPaycheckDate | backend/app/api/paychecks.py:21-37 | from a real date the next paycheck date is a real date |
| Paychecks.AddOneMonth | backend/app/api/paychecks.py:32-35 | one month on is the next calendar month, the year rolling over after December, with the day cut down to that month's length |
| Paychecks.NextPaycheckDateRules | backend/app/api/paychecks.py:21-37 | weekly is 7 days later and biweekly 14; semimonthly before the 15th is the 15th and from the 15th on the last day of the month; monthly is the same day next month, clamped; custom keeps the date |
| Paychecks.WeeklyAdvances | backend/app/api/paychecks.py:23-26 | weekly and biweekly dates always move strictly forward |
| Paychecks.SemimonthlyMonthEnd | backend/app/api/paychecks.py:27-33 | from a month's last day the semimonthly rule returns that same day |
| Paychecks.NthPaycheckDate | backend/app/api/paychecks.py:44-46 | the date after n steps of the rule is a real date |
| Paychecks.UpcomingDatesChain | backend/app/api/paychecks.py:40-47 | exactly `count` dates (none for a count below one), the first the start date and each the next date of the one before |
| Paychecks.DatesBeforeAt | backend/app/api/paychecks.py:44-46 | the i-th of the first n dates is the date after i steps |
| Paychecks.GenerateUpcomingDates | backend/app/api/paychecks.py:40-47 | the loop returns exactly the chain of upcoming dates |
| Paychecks.UpcomingStep | backend/app/api/paychecks.py:44-46 | each loop round appends the current date and advances it by the rule |
| Paychecks.SemimonthlyStuck | backend/app/api/paychecks.py:27-33 | a semimonthly schedule that starts on a month's last day repeats that date forever |
| Paychecks.PaycheckIndex | backend/app/api/paychecks.py:128-137 | the position of the user's paycheck with this id, or none exactly when the user has no such paycheck |
| Paychecks.ScheduleSound | backend/app/api/paychecks.py:197-232 | months_ahead outside 1..12 is rejected and only then; a schedule is for the user's paycheck, holds 4·m, 2·m or m dates by frequency, starts at its next date, chains by the rule and carries its amount |
| Paychecks.PaycheckDb.constructor | backend/app/api/paychecks.py:50-80 | the store opens with no paychecks, instances or allocations |
| Paychecks.GetPaycheckSchedule | backend/app/api/paychecks.py:197-232 | the endpoint returns the schedule response of the stored paychecks |
| Paychecks.Patched | backend/app/api/paychecks.py:139-149 | each field that is given replaces the stored one and every other field, id and owner included, is kept |
| Paychecks.PatchedIdempotent | backend/app/api/paychecks.py:139-149 | an update with no fields changes nothing, and applying an update twice is applying it once |
| Paychecks.AllocationRows | backend/app/api/paychecks.py:160-167 | one allocation row per input, in order, with consecutive ids and the input's category, amount and order |
| Paychecks.ReplaceTemplatesSound | backend/app/api/paychecks.py:152-167 | after the replacement the paycheck's templates are exactly the new rows, while instance allocations and other paychecks' allocations are as they were |
| Paychecks.UpdatePaycheck | backend/app/api/paychecks.py:120-171 | an invalid body is refused with its first failing field; then a paycheck the user does not own is not found; both change nothing; otherwise its fields are patched and, when allocations are given, its templates are replaced; instances are untouched |
| Paychecks.PaycheckUpdateErrors | backend/app/schemas/paycheck.py:55-61 | no failing field exactly when a given name has 1 to 255 characters and a given net amount and every given allocation amount are not negative |
| Paychecks.PatchedKeepsDates | backend/app/api/paychecks.py:146-147 | patching with a real date keeps every stored next date a real date |
| Paychecks.RowsIdsBelow | backend/app/api/paychecks.py:160-167 | ids of new rows come from the counter, so every stored id stays below it |
| Paychecks.AddAllocationRows | backend/app/api/paychecks.py:160-167 | the loop appends exactly the allocation rows and advances the counter by their count |
| Paychecks.ByDateIsPreorder | backend/app/api/paychecks.py:364 | ordering instances by date is a total preorder |
| Paychecks.FundingPlanSound | backend/app/api/paychecks.py:343-379 | a budget the user does not own is not found and only then; the plan lists the budget's instances sorted by date, sums their amounts and the category allocations, and is fully funded exactly when income covers a positive allocated total |
| Paychecks.GetBudgetFundingPlan | backend/app/api/paychecks.py:343-379 | the endpoint returns the funding plan response |
| Paychecks.Sources | backend/app/api/paychecks.py:416-419 | one funding source per allocation, with its instance and amount |
| Paychecks.FundingRows | backend/app/api/paychecks.py:421-435 | one row per budget category, in order, from the funding of that category |
| Paychecks.GroupFunding | backend/app/api/paychecks.py:407-419 | the grouping loop maps each category id to the sum and sources of exactly its allocations |
| Paychecks.GroupedEmpty | backend/app/api/paychecks.py:408 | the empty dictionary groups no allocations |
| Paychecks.GroupedStep | backend/app/api/paychecks.py:409-419 | each allocation adds to its own category's entry and to no other |
| Paychecks.CategoryAllocsSnoc | backend/app/api/paychecks.py:409-415 | one more allocation joins its own category's allocations only |
| Paychecks.FundingOfSnoc | backend/app/api/paychecks.py:409-419 | one more allocation adds its amount and source to its own category's funding and leaves every other category's unchanged |
| Paychecks.FundingOfSnocMine | backend/app/api/paychecks.py:415-419 | an allocation of the category adds its amount to the funded sum and its source at the end |
| Paychecks.SourcesSnoc | backend/app/api/paychecks.py:416-419 | the sources of one more allocation end with its own source |
| Paychecks.GetCategoryFundingStatus | backend/app/api/paychecks.py:382-437 | the endpoint returns the category funding response |
| Paychecks.GroupedLookup | backend/app/api/paychecks.py:424 | a category missing from the dictionary reads as no funding, the same as its empty allocation list |
| Paychecks.FundingRowsPrefix | backend/app/api/paychecks.py:423-435 | the row loop extends the result by one category's row per round |
| Paychecks.CategoryFundingSound | backend/app/api/paychecks.py:382-437 | a budget the user does not own is not found and only then; one row per category with its allocation, the sum of its allocations from the budget's instances, remaining as their difference, fully funded exactly when nothing remains, and one source per allocation |
| Paychecks.CategoryIdsMember | backend/app/api/paychecks.py:423 | an id is among the category ids exactly when some category has it |
| Paychecks.FundedTotal | backend/app/api/paychecks.py:407-435 | with distinct category ids the funded column adds up to the allocations on those categories, none counted twice |
| Paychecks.FundedTotalAll | backend/app/api/paychecks.py:407-435 | when every allocation is on one of the budget's categories the funded column adds up to all of them |
| Paychecks.AsInputs | backend/app/api/paychecks.py:516-522 | the category, amount and order of each allocation |
| Paychecks.SoundStart | backend/app/api/paychecks.py:478 | the ledger before the loops, with nothing created, is sound |
| Paychecks.CopiesShape | backend/app/api/paychecks.py:515-523 | the copies all belong to the new instance and none is a template |
| Paychecks.CreateInstanceSound | backend/app/api/paychecks.py:487-525 | one date of the month keeps the ledger sound and leaves an instance for that paycheck, budget and date |
| Paychecks.NewInstanceSound | backend/app/api/paychecks.py:498-525 | a new instance keeps the ledger sound |
| Paychecks.NewInstanceShape | backend/app/api/paychecks.py:498-525 | a new instance takes the next id, is appended and recorded as created, and its copies of the paycheck's templates take the ids after it |
| Paychecks.CreatedSnoc | backend/app/api/paychecks.py:525 | every created instance stays one made from an active paycheck for a date of the month |
| Paychecks.NewInstanceCreatedFrom | backend/app/api/paychecks.py:499-505 | an instance built for a month date of a paycheck carries that paycheck, the budget, the paycheck's amount, that date and "not received" |
| Paychecks.NewInstanceTemplates | backend/app/api/paychecks.py:515-523 | copying leaves every paycheck's templates alone |
| Paychecks.NewInstanceCopies | backend/app/api/paychecks.py:510-523 | each created instance's allocations are exactly copies of its paycheck's original templates |
| Paychecks.UpcomingDatesValid | backend/app/api/paychecks.py:482 | every generated date is a real date |
| Paychecks.NoDuplicateSnoc | backend/app/api/paychecks.py:489-496 | adding an instance for a (paycheck, budget, date) not yet present keeps those triples unique |
| Paychecks.HasInstanceGrows | backend/app/api/paychecks.py:489-496 | an instance present before is still present after more are appended |
| Paychecks.CreateForDatesSound | backend/app/api/paychecks.py:487-525 | the inner loop keeps the ledger sound and leaves an instance for every date it was given |
| Paychecks.CreateForPaychecksSound | backend/app/api/paychecks.py:480-525 | the outer loop keeps the ledger sound and leaves an instance for every month date of every paycheck |
| Paychecks.AutoAllocationSound | backend/app/api/paychecks.py:440-533 | not found exactly for a budget the user does not own, 400 exactly when the user has no active paycheck; otherwise instances are only appended, each made from an active paycheck for a date in the budget month, carrying copies of its templates, templates unchanged, no duplicate created, and every month date covered |
| Paychecks.CreateInstanceStep | backend/app/api/paychecks.py:487-525 | one round of the inner loop: skip an existing instance, or add it and copy the templates |
| Paychecks.CreateForDatesLoop | backend/app/api/paychecks.py:487-525 | the inner loop over one paycheck's month dates does what the ledger function defines |
| Paychecks.AutoAllocate | backend/app/api/paychecks.py:440-533 | an error leaves the store untouched; success stores the ledger's instances and allocations and returns the created instances |
| SinkingFunds.FundProgress | backend/app/api/sinking_funds.py:18-42 | remaining is target minus balance; the percentage is balance/target·100 for a positive target and 0 otherwise; months to target is absent exactly when there is no monthly amount or nothing remains, and is then remaining/monthly; on track unless a target date exists and is not ahead or is nearer than the months needed at 30.44 days each |
| SinkingFunds.FundsSummary | backend/app/api/sinking_funds.py:82-105 | over the user's active funds: their count (as both totals), the sums of targets and balances, and overall progress as saved/target·100 when the target is positive |
| SinkingFunds.SumOfRemaining | backend/app/api/sinking_funds.py:93-95 | the sum of what remains of each fund is the sum of targets minus the sum of balances |
| SinkingFunds.SummaryRemaining | backend/app/api/sinking_funds.py:95 | what remains overall is what remains of each active fund, added up |
| SinkingFunds.FundIndex | backend/app/api/sinking_funds.py:237-246 | the position of the user's fund with the id, or none exactly when the user has no such fund |
| SinkingFunds.ContributionIndex | backend/app/api/sinking_funds.py:321-330 | the first contribution of the fund with the id, or none exactly when the fund has no such contribution |
| SinkingFunds.AddContribution | backend/app/api/sinking_funds.py:229-270 | not found for another user's fund; refused exactly when the new balance would be negative; otherwise the balance moves by the amount and the contribution, dated now when no date is sent, is appended with the next id |
| SinkingFunds.DeleteContribution | backend/app/api/sinking_funds.py:301-338 | not found for a missing fund or contribution; otherwise the contribution is removed and its amount taken off the balance, with no check that the balance stays at or above zero |
| SinkingFunds.AddThenDeleteRestores | backend/app/api/sinking_funds.py:257-336 | deleting the contribution just added restores the funds and contributions exactly |
| SinkingFunds.DeleteCanLeaveNegative | backend/app/api/sinking_funds.py:332-336 | deleting a deposit that a later withdrawal spent leaves the fund's balance below zero |
| SinkingFunds.FundIndexAfterUpdate | backend/app/api/sinking_funds.py:257 | changing a fund's balance does not move the fund's lookup |
| SinkingFunds.ByDateDescIsPreorder | backend/app/api/sinking_funds.py:134-137 | ordering contributions latest first is a total preorder |
| SinkingFunds.FundDetail | backend/app/api/sinking_funds.py:107-140 | a limit above 500 is rejected and only then; a fund the user does not own is not found; otherwise the fund itself is returned |
| SinkingFunds.FundDetailSound | backend/app/api/sinking_funds.py:133-138 | the contributions shown are exactly the first `Min(limit, n)` of the fund's n contributions sorted latest first, so all of them when the limit is not below their number |
| SinkingFunds.ListContributions | backend/app/api/sinking_funds.py:272-299 | a limit above 500 or a negative offset is rejected; then the fund is not found exactly when the user does not own it; a page is sorted latest first, holds only the fund's contributions, is the run of the sorted contributions that starts at the offset, of their number less the offset cut to the limit, and all of them when the offset is 0 and the limit does not bind |
| SinkingFunds.PageOfSorted | backend/app/api/sinking_funds.py:293-297 | a page of the sorted contributions is the run of them that starts at the offset, of the remaining length cut to the limit; it is sorted latest first, and with no offset and a non-binding limit is a permutation of them |
| SinkingFunds.FieldEntry | backend/app/api/sinking_funds.py:195 | a field contributes at most one entry to the dump |
| SinkingFunds.DumpUpTo | backend/app/api/sinking_funds.py:195 | the first k fields contribute at most k entries |
| SinkingFunds.SetFields | backend/app/api/sinking_funds.py:195 | the dump of an update holds at most its seven fields |
| SinkingFunds.ApplyFieldsAppend | backend/app/api/sinking_funds.py:196-197 | assigning two lists of fields one after the other is assigning their concatenation |
| SinkingFunds.ApplyUpTo | backend/app/api/sinking_funds.py:195-197 | assigning the dumped first k fields gives the fund updated in those k fields |
| SinkingFunds.UpToStep | backend/app/api/sinking_funds.py:196-197 | each loop round assigns the next set field |
| SinkingFunds.UpdateSetsOnlyGivenFields | backend/app/api/sinking_funds.py:195-197 | the setattr loop changes exactly the fields the request set; id, owner, balance and creation time never change |
| SinkingFunds.ApplyOne | backend/app/api/sinking_funds.py:196-197 | assigning no entry keeps the fund, one entry sets that field |
| SinkingFunds.FundFieldError | backend/app/schemas/sinking_fund.py:22-40 | no error exactly when a given name has 1 to 255 characters and given target and monthly amounts are not negative |
| SinkingFunds.ListFundsSound | backend/app/api/sinking_funds.py:67-80 | the list holds exactly the user's funds, active ones unless inactive are asked for, newest first |
| SinkingFunds.FundDb.constructor | backend/app/api/sinking_funds.py:44-65 | the store opens with no funds or contributions |
| SinkingFunds.CreateFund | backend/app/api/sinking_funds.py:44-65 | invalid fields are rejected with nothing stored; otherwise an active fund with a zero balance and the next id is appended |
| SinkingFunds.UpdateFund | backend/app/api/sinking_funds.py:175-202 | invalid fields are rejected and an unknown fund is not found, each leaving the store unchanged; otherwise only that fund is replaced by its updated version |
| SinkingFunds.AddContributionTo | backend/app/api/sinking_funds.py:229-270 | the store ends as the contribution rule says, unchanged on an error, and the stored contribution is returned |
| SinkingFunds.DeleteContributionFrom | backend/app/api/sinking_funds.py:301-338 | the store ends as the deletion rule says, unchanged on an error |
| SinkingFunds.DeleteFund | backend/app/api/sinking_funds.py:204-225 | an unknown fund is not found with nothing changed; otherwise the fund is removed together with all its contributions |
| Sorting.Insert | frontend/src/lib/budget-api.ts:317-339 | inserting one element lengthens the list by one |
| Sorting.SortBy | frontend/src/lib/budget-api.ts:317-339 | the stable sort that `Array.prototype.sort` and Python's `sorted` perform keeps the length |
| Sorting.InsertPermutes | frontend/src/lib/budget-api.ts:317-339 | inserting adds exactly the one element |
| Sorting.InsertSorted | frontend/src/lib/budget-api.ts:317-339 | under a total preorder, inserting into an ordered list keeps it ordered |
| Sorting.SortByPermutes | frontend/src/lib/budget-api.ts:317-339 | the sorted list holds exactly the input's elements, each as often |
| Sorting.SortBySorted | frontend/src/lib/budget-api.ts:317-339 | under a total preorder the sorted list is ordered |
| Sorting.SortByOfSorted | frontend/src/lib/budget-api.ts:336-338 | an already ordered list comes back unchanged, so ties (comparator 0) keep their input order |
| Sorting.InsertAgrees | frontend/src/lib/budget-api.ts:317-339 | insertion consults the comparator only against the inserted element |
| Sorting.SortByAgrees | frontend/src/lib/budget-api.ts:317-339 | two comparators that agree on the list's elements sort it alike |
| Sorting.LexLessIrreflexive | frontend/src/lib/budget-api.ts:321-324 | no string is below itself in code-point order |
| Sorting.LexLessTotal | frontend/src/lib/budget-api.ts:321-324 | of two different strings one is below the other |
| Sorting.LexLessAsymmetric | frontend/src/lib/budget-api.ts:321-324 | two strings are never each below the other |
| Sorting.LexLessTransitive | frontend/src/lib/budget-api.ts:321-324 | code-point order is transitive |
| Sorting.LexLessIsStrictTotal | frontend/src/lib/budget-api.ts:336-337 | code-point order, JavaScript's `<` on strings without characters beyond U+FFFF, is a strict total order |
| Sorting.KeyLeIsPreorder | frontend/src/lib/budget-api.ts:336-338 | the `aVal < bVal` comparator over a strict total order of keys is a total preorder, ascending, or descending when flagged |
| Sorting.InsertAt | frontend/src/components/VirtualizedCategoryList.tsx:249-271 | the element goes right behind the last one allowed in front of it |
| Sorting.InsertInPlace | frontend/src/components/VirtualizedCategoryList.tsx:249-271 | the inner loop of the in-place sort moves a[i] into the sorted prefix and leaves the rest of the array alone |
| Sorting.ShiftUp | frontend/src/components/VirtualizedCategoryList.tsx:249-271 | the elements of the prefix that must go behind x move up one place, leaving its gap at the returned position |
| Sorting.SuffixSame | frontend/src/components/VirtualizedCategoryList.tsx:249-271 | arrays that agree from a position on have the same suffix there |
| Sorting.InsertPlaced | frontend/src/components/VirtualizedCategoryList.tsx:249-271 | after the shift and the store of x the prefix is the insertion of x |
| Sorting.SortInPlace | frontend/src/components/VirtualizedCategoryList.tsx:249-271 | `filtered.sort(...)` in place: the array ends as the stable sort of its old contents |
| Sorting.SortedCopy | frontend/src/lib/budget-api.ts:317 | `[...categories].sort(...)`: a sorted copy, the input left alone |
| Sorting.SortedPage | backend/app/api/category_templates.py:81-84 | an OFFSET/LIMIT page of a sorted list is sorted, lies inside it, and is the slice of it that starts at the offset, of the remaining length cut to the limit when there is one |
| SplitForm.WithoutIndex | frontend/src/components/SplitTransactionForm.tsx:40 | the list without the element at the index, or the list itself when the index is outside it |
| SplitForm.IsValid | frontend/src/components/SplitTransactionForm.tsx:53-54 | a valid form has nothing left to assign and every split has a category and a positive amount |
| SplitForm.TotalAtLeastCount | frontend/src/components/SplitTransactionForm.tsx:51-54 | splits of positive amounts add up to at least one cent per split |
| SplitForm.ValidNeedsEnough | frontend/src/components/SplitTransactionForm.tsx:53-54 | a valid form needs a transaction of at least one cent per split |
| SplitForm.EmptySplitInvalid | frontend/src/components/SplitTransactionForm.tsx:30-54 | a form that still has a fresh row can never be submitted |
| SplitForm.TotalAfterAdd | frontend/src/components/SplitTransactionForm.tsx:34-51 | adding a row leaves the total unchanged |
| SplitForm.TotalAfterRemove | frontend/src/components/SplitTransactionForm.tsx:38-51 | removing a row takes its amount off the total |
| SplitForm.TotalAfterEdit | frontend/src/components/SplitTransactionForm.tsx:45-51 | editing a row changes the total by the change of that row's amount alone |
| SplitForm.SplitEditor.constructor | frontend/src/components/SplitTransactionForm.tsx:30-32 | the form opens with one empty row, which cannot be submitted for any total |
| SplitForm.SplitEditor.AddSplit | frontend/src/components/SplitTransactionForm.tsx:34-36 | one empty row is appended and the others stay as they were |
| SplitForm.SplitEditor.RemoveSplit | frontend/src/components/SplitTransactionForm.tsx:38-43 | the row is removed only when it is not the last one, so at least one row always remains |
| SplitForm.SplitEditor.UpdateSplit | frontend/src/components/SplitTransactionForm.tsx:45-49 | exactly one field of one row is replaced and every other row is kept |
| SuggestionApi.Suggest | backend/app/api/category_suggestions.py:20-49 | the handler returns the `/suggest` answer for the stored patterns, budgets, categories and transactions |
| SuggestionApi.SuggestResponseSound | backend/app/api/category_suggestions.py:20-49 | a limit outside 1..10 is rejected and only then; a budget the caller does not own is not found and only then; otherwise at most `limit` suggestions, all naming categories offered by that budget |
| SuggestionApi.SubmitFeedback | backend/app/api/category_suggestions.py:52-77 | the feedback is logged once and the patterns become the penalized patterns after learning from the category actually chosen |
| SuggestionApi.FeedbackEffect | backend/app/api/category_suggestions.py:59-75 | for a known text the pattern is counted, stamped and set to the chosen category with confidence up by one tenth (at most 1.0) if it already named it and 0.5 otherwise, so the rejection penalty is overwritten; an unseen text gets a new pattern at 0.7; no other pattern changes |
| SuggestionApi.SuggestionStatistics | backend/app/api/category_suggestions.py:80-89 | the handler returns the `/stats` answer for the stored feedback log |
| SuggestionApi.StatsResponseSound | backend/app/api/category_suggestions.py:80-89 | a window outside 1..365 days is rejected and only then; otherwise the total counts exactly the caller's feedback in the window |
| SuggestionApi.WindowGrows | backend/app/services/category_suggestion.py:331-358 | an earlier start of the window never lowers the count |
| SuggestionEngine.JoinedCategory | backend/app/services/category_suggestion.py:104-112 | the joined category has the pattern's category id and is an active category of the budget, or none exactly when no such category exists |
| SuggestionEngine.ExactRows | backend/app/services/category_suggestion.py:104-112 | every exact row is one of the user's patterns with exactly the normalized text, joined to its active category of the budget |
| SuggestionEngine.PatternRankIsPreorder | backend/app/services/category_suggestion.py:113-116 | ordering by confidence, then use count, both descending, is a total preorder |
| SuggestionEngine.SortedMember | backend/app/services/category_suggestion.py:113-116 | sorting adds no element |
| SuggestionEngine.ExactStageSound | backend/app/services/category_suggestion.py:103-125 | at most `limit` exact matches, each an offered category carrying its pattern's confidence and use count, highest confidence first |
| SuggestionEngine.ExactRowsComplete | backend/app/services/category_suggestion.py:104-112 | every pattern of the user with exactly the normalized text whose category joins has its row |
| SuggestionEngine.ExactStageComplete | backend/app/services/category_suggestion.py:103-125 | the exact stage offers `Min(limit, rows)` matches, so with room for every row each qualifying pattern is offered with its confidence and use count |
| SuggestionEngine.ExactRowsAtMostOne | backend/app/services/category_suggestion.py:104-116 | with one pattern per user and text the exact stage yields at most one row |
| SuggestionEngine.NoMatchNoRows | backend/app/services/category_suggestion.py:104-116 | with no pattern of that text the exact stage is empty |
| SuggestionEngine.HitsForSound | backend/app/services/category_suggestion.py:174-183 | each hit of a keyword comes from one of the user's patterns whose text contains the keyword, weighted by that pattern, and names an active category of the budget |
| SuggestionEngine.HitsSound | backend/app/services/category_suggestion.py:172-193 | the same holds for the hits of all the keywords together |
| SuggestionEngine.FindTally | backend/app/services/category_suggestion.py:186-188 | the entry of the category in the score dictionary, or none exactly when it has none |
| SuggestionEngine.CategoryHitsSnoc | backend/app/services/category_suggestion.py:185-193 | one more hit joins only its own category's hits |
| SuggestionEngine.TallyOfOther | backend/app/services/category_suggestion.py:185-193 | a hit of another category leaves an entry right |
| SuggestionEngine.TallyOfSame | backend/app/services/category_suggestion.py:191-193 | a hit of the entry's category adds its weight to the score and one to the matches |
| SuggestionEngine.AddHitFound | backend/app/services/category_suggestion.py:185-193 | a hit of a category with an entry keeps the dictionary right |
| SuggestionEngine.AddHitUpdates | backend/app/services/category_suggestion.py:191-193 | such a hit changes only its own entry |
| SuggestionEngine.FindTallyAt | backend/app/services/category_suggestion.py:186 | every entry is found by its category id |
| SuggestionEngine.AddHitNew | backend/app/services/category_suggestion.py:187-188 | the first hit of a category opens its entry at the end |
| SuggestionEngine.AccumulateTallies | backend/app/services/category_suggestion.py:170-193 | the dictionary holds one entry per hit category, with the number and the summed weight of that category's hits |
| SuggestionEngine.AddHitTallies | backend/app/services/category_suggestion.py:185-193 | each hit keeps the dictionary right |
| SuggestionEngine.ScoreIsPreorder | backend/app/services/category_suggestion.py:196-200 | ordering by score, then matches, both descending, is a total preorder |
| SuggestionEngine.KeywordConfidenceMonotone | backend/app/services/category_suggestion.py:208 | a higher score never gives a lower keyword confidence |
| SuggestionEngine.DivisionMonotone | backend/app/services/category_suggestion.py:208 | dividing by a positive number keeps the order |
| SuggestionEngine.AccumulateAppend | backend/app/services/category_suggestion.py:172-193 | tallying two lists of hits is tallying the first and then adding the second |
| SuggestionEngine.AddKeywordHits | backend/app/services/category_suggestion.py:185-193 | the inner loop adds exactly the keyword's hits to the dictionary |
| SuggestionEngine.HitsForPrefix | backend/app/services/category_suggestion.py:174-185 | one more pattern adds its hit, when it matches, at the end |
| SuggestionEngine.AddHitsSnoc | backend/app/services/category_suggestion.py:185-193 | adding one more hit is one more step of the loop |
| SuggestionEngine.KeywordTallies | backend/app/services/category_suggestion.py:172-193 | the outer loop fills the dictionary with the tally of all keywords' hits |
| SuggestionEngine.KeywordMatches | backend/app/services/category_suggestion.py:158-213 | the nested-loop keyword stage returns exactly `KeywordStage`: tallies per category ranked by (score, matches), at most `limit` of them, whose properties `KeywordStageSound`/`KeywordStageRanked` prove |
| SuggestionEngine.RankedTally | backend/app/services/category_suggestion.py:196-203 | each ranked entry is an active category of the budget that was hit, with its hit count and summed weight |
| SuggestionEngine.KeywordStageSound | backend/app/services/category_suggestion.py:158-213 | at most `limit` offered categories, each with its number of hits as use count and its score per keyword, capped at 1.0, as confidence |
| SuggestionEngine.KeywordRankCovers | backend/app/services/category_suggestion.py:202-211 | a ranking with room for every tally offers each tally's category |
| SuggestionEngine.KeywordStageComplete | backend/app/services/category_suggestion.py:158-213 | the keyword stage offers `Min(limit, categories hit)` suggestions, so with room for all every category some keyword hit is offered |
| SuggestionEngine.KeywordStageRanked | backend/app/services/category_suggestion.py:196-208 | keyword suggestions come highest confidence first |
| SuggestionEngine.AmountGroupsSound | backend/app/services/category_suggestion.py:224-245 | each amount group is an active category of the budget with a positive count of the user's unsplit transactions within 20% of the amount |
| SuggestionEngine.PopularGroupsSound | backend/app/services/category_suggestion.py:267-283 | each popular group is an active category of the budget with the user's transaction count in it, and every such category has its group, used or not |
| SuggestionEngine.CountIsPreorder | backend/app/services/category_suggestion.py:244-282 | ordering by count descending is a total preorder |
| SuggestionEngine.GroupSuggestionsSound | backend/app/services/category_suggestion.py:247-257 | a grouped stage offers at most `limit` of its groups with the stage's confidence and reason and each group's count, largest count first |
| SuggestionEngine.AmountStageSound | backend/app/services/category_suggestion.py:215-257 | at most `limit` offered categories at confidence 0.5, "similar amount", each with its positive count of similar unsplit transactions, most first |
| SuggestionEngine.PopularStageSound | backend/app/services/category_suggestion.py:259-295 | at most `limit` offered categories at confidence 0.3, "frequently used", with their counts, most first; with room for all, every active category of the budget is offered |
| SuggestionEngine.PopularGroupsLength | backend/app/services/category_suggestion.py:267-283 | there are never more popular groups than categories |
| SuggestionEngine.DedupSound | backend/app/services/category_suggestion.py:148-154 | de-duplication keeps each category once, exactly its first suggestion, in order of appearance, and loses no category |
| SuggestionEngine.IdsSnoc | backend/app/services/category_suggestion.py:149-154 | the categories of one more suggestion add its category |
| SuggestionEngine.DedupIds | backend/app/services/category_suggestion.py:148-154 | no category twice, every category of the input kept, never longer than the input |
| SuggestionEngine.DedupFirst | backend/app/services/category_suggestion.py:152-154 | each kept suggestion is the first of its category |
| SuggestionEngine.DedupInOrder | backend/app/services/category_suggestion.py:151-154 | the kept suggestions keep their input order |
| SuggestionEngine.DedupLoop | backend/app/services/category_suggestion.py:148-154 | the loop with its `seen` set computes the de-duplication |
| SuggestionEngine.GetSuggestions | backend/app/services/category_suggestion.py:86-156 | the extend-and-dedup loop returns exactly `Suggestions`: popular categories for blank notes, otherwise the first-occurrence dedup of the stages, truncated to `limit` (see `SuggestionsSound`) |
| SuggestionEngine.GatherStages | backend/app/services/category_suggestion.py:101-146 | the four stages run in order, each asked for the places left |
| SuggestionEngine.AmountStep | backend/app/services/category_suggestion.py:134-139 | the amount stage runs only with an amount and places left |
| SuggestionEngine.PopularStep | backend/app/services/category_suggestion.py:141-146 | the popular stage fills the places still left |
| SuggestionEngine.KeywordStep | backend/app/services/category_suggestion.py:127-132 | the keyword stage runs only with keywords and places left |
| SuggestionEngine.AppendOffered | backend/app/services/category_suggestion.py:132-146 | joining two lists of offered suggestions keeps them offered |
| SuggestionEngine.AppendConfidences | backend/app/services/category_suggestion.py:132-146 | joining two lists of confidences in 0..1 keeps them in range |
| SuggestionEngine.DedupPrefix | backend/app/services/category_suggestion.py:148-156 | the first n de-duplicated suggestions keep what every gathered suggestion had |
| SuggestionEngine.KeywordStageOffered | backend/app/services/category_suggestion.py:158-213 | keyword suggestions name offered categories |
| SuggestionEngine.AmountStageValid | backend/app/services/category_suggestion.py:215-257 | amount suggestions name offered categories with confidences in range |
| SuggestionEngine.PopularStageValid | backend/app/services/category_suggestion.py:259-295 | popular suggestions number at most the limit and name offered categories with confidences in range |
| SuggestionEngine.PopularStageOffered | backend/app/services/category_suggestion.py:259-295 | popular suggestions name offered categories |
| SuggestionEngine.GatheredOffered | backend/app/services/category_suggestion.py:101-146 | everything gathered names an offered category |
| SuggestionEngine.WithKeywordsOffered | backend/app/services/category_suggestion.py:127-132 | the keyword step keeps the list offered |
| SuggestionEngine.WithAmountOffered | backend/app/services/category_suggestion.py:134-139 | the amount step keeps the list offered |
| SuggestionEngine.WithPopularOffered | backend/app/services/category_suggestion.py:141-146 | the popular step keeps the list offered |
| SuggestionEngine.KeywordConfidences | backend/app/services/category_suggestion.py:191-208 | keyword confidences lie in 0..1 once stored confidences do |
| SuggestionEngine.KeywordConfidenceRange | backend/app/services/category_suggestion.py:208 | a non-negative score gives a confidence in 0..1 |
| SuggestionEngine.HitWeightsNonNegative | backend/app/services/category_suggestion.py:191 | the weights of the hits add up to zero or more |
| SuggestionEngine.GatheredConfidences | backend/app/services/category_suggestion.py:101-146 | all gathered confidences lie in 0..1 |
| SuggestionEngine.ExactConfidences | backend/app/services/category_suggestion.py:118-125 | exact-match confidences lie in 0..1 |
| SuggestionEngine.WithKeywordsConfidences | backend/app/services/category_suggestion.py:127-132 | the keyword step keeps confidences in range |
| SuggestionEngine.WithAmountConfidences | backend/app/services/category_suggestion.py:134-139 | the amount step keeps confidences in range |
| SuggestionEngine.WithPopularConfidences | backend/app/services/category_suggestion.py:141-146 | the popular step keeps confidences in range |
| SuggestionEngine.SuggestionsSound | backend/app/services/category_suggestion.py:86-156 | at most `limit` suggestions, all naming active categories of the budget, with confidences in 0..1, and none repeated when the note was not blank |
| SuggestionEngine.DedupedSound | backend/app/services/category_suggestion.py:148-156 | the first `limit` de-duplicated suggestions keep what every gathered one had and name each category once |
| SuggestionStore.FindPattern | backend/app/services/category_suggestion.py:56-59 | the first of the user's patterns with this text, or none exactly when there is none |
| SuggestionStore.FindPatternFor | backend/app/services/category_suggestion.py:320-324 | a pattern of the user with this text and this category, or none exactly when there is none |
| SuggestionStore.PatternStore.constructor | backend/app/services/category_suggestion.py:16-17 | the store opens with no patterns and no log entries |
| SuggestionStore.PatternStore.Lookup | backend/app/services/category_suggestion.py:56-59 | the lookup loop finds exactly the first matching pattern |
| SuggestionStore.PatternStore.Learn | backend/app/services/category_suggestion.py:40-84 | the patterns become the learned patterns; the log is untouched |
| SuggestionStore.PatternStore.LogFeedback | backend/app/services/category_suggestion.py:297-329 | one log entry is appended and the patterns become the penalized patterns |
| SuggestionStore.BlankCheck | backend/app/services/category_suggestion.py:48 | the loop answers exactly whether the note is empty or all white space |
| SuggestionStore.FindPatternPrefix | backend/app/services/category_suggestion.py:56-59 | a pattern found among the first n is the first one found in all of them |
| SuggestionStore.LearnBlank | backend/app/services/category_suggestion.py:48-53 | a blank note teaches nothing |
| SuggestionStore.LearnNew | backend/app/services/category_suggestion.py:72-82 | an unseen note adds exactly one pattern, with its normalized text, confidence 0.7 and one use |
| SuggestionStore.LearnExisting | backend/app/services/category_suggestion.py:61-71 | a known note counts one more use and is stamped; the same category gains 0.1 confidence up to 1.0, another one replaces it at 0.5; nothing else changes |
| SuggestionStore.LearnKeepsValid | backend/app/services/category_suggestion.py:40-84 | learning keeps one pattern per user and text and every confidence between 0.1 and 1.0 |
| SuggestionStore.PenaltyAccepted | backend/app/services/category_suggestion.py:306-319 | an accepted suggestion leaves every pattern as it was |
| SuggestionStore.PenaltyRejected | backend/app/services/category_suggestion.py:319-327 | a rejected suggestion lowers only the user's pattern with that text and the suggested category, by 0.2 with a floor of 0.1 |
| SuggestionStore.PenaltyKeepsValid | backend/app/services/category_suggestion.py:297-329 | the penalty keeps patterns unique and confidences in range |
| SuggestionStore.Percentage | backend/app/services/category_suggestion.py:351 | the accuracy share lies in 0..100 and times the total is the accepted count times 100 |
| SuggestionStore.StatsConsistent | backend/app/services/category_suggestion.py:331-358 | accepted plus rejected is the count of the user's feedback in the window; with none everything is 0; the accuracy lies in 0..100 and is the accepted share |
| SuggestionText.Strip | backend/app/services/category_suggestion.py:25 | stripping never lengthens the text |
| SuggestionText.ReplacePunctuation | backend/app/services/category_suggestion.py:26 | each character that is neither a word character nor white space becomes a space and every other character is kept |
| SuggestionText.DropSpaces | backend/app/services/category_suggestion.py:25 | the leading white space is removed and nothing new is added |
| SuggestionText.CollapseShape | backend/app/services/category_suggestion.py:27 | collapsing white space runs yields the normal form, is empty only for empty input, and keeps the first character or turns leading white space into one space |
| SuggestionText.StripBlank | backend/app/services/category_suggestion.py:22-25 | the stripped text is empty exactly when the note is blank, and otherwise starts and ends with a non-space character of the note |
| SuggestionText.NormalizeShape | backend/app/services/category_suggestion.py:20-28 | normalized text is lower case, only word characters and single spaces |
| SuggestionText.NormalizeEmpty | backend/app/services/category_suggestion.py:20-28 | the normalized text is empty exactly when the note is empty or all white space |
| SuggestionText.NormalizeTrailingPunctuation | backend/app/services/category_suggestion.py:25-27 | stripping comes before punctuation is replaced, so "Coffee!" normalizes to "coffee " and normalizing again trims the space |
| SuggestionText.NormalizeCoffee | backend/app/services/category_suggestion.py:25-27 | "Coffee!" normalizes to "coffee " |
| SuggestionText.NormalizeCoffeeSpace | backend/app/services/category_suggestion.py:25-27 | "coffee " normalizes to "coffee" |
| SuggestionText.CollapseWord | backend/app/services/category_suggestion.py:27 | a run without white space passes through unchanged |
| SuggestionText.NormalizePunctuationOnly | backend/app/services/category_suggestion.py:22-27 | a note of punctuation alone normalizes to one space, one of spaces alone to nothing |
| SuggestionText.WordLength | backend/app/services/category_suggestion.py:34 | the length of the leading run of non-space characters, stopping at the first space |
| SuggestionText.WordsAreWords | backend/app/services/category_suggestion.py:34 | every word of `split()` is non-empty, free of white space and occurs in the text |
| SuggestionText.WordLengthStops | backend/app/services/category_suggestion.py:34 | a word ends at a space |
| SuggestionText.WordsSplit | backend/app/services/category_suggestion.py:34 | splitting at a space splits the word list |
| SuggestionText.KeywordsExact | backend/app/services/category_suggestion.py:30-38 | a keyword is exactly a word of the normalized note that has at least the minimum length and is not a stop word |
| SuggestionText.KeywordsOccur | backend/app/services/category_suggestion.py:30-38 | every keyword is non-empty and occurs in the normalized note |
| Transactions.CategoryName | backend/app/api/transactions.py:46-48 | the name of a category with that id, or none exactly when no category has it |
| Transactions.SplitLines | backend/app/api/transactions.py:45-61 | every line is one of the transaction's own splits, joined with its category's name |
| Transactions.SplitLinesComplete | backend/app/api/transactions.py:45-61 | every split of the transaction whose category exists has its line |
| Transactions.SplitLinesAppend | backend/app/api/transactions.py:46-48 | the join distributes over concatenated split tables |
| Transactions.TransactionIndex | backend/app/api/transactions.py:23-26 | the first transaction with the id owned by the user, or none exactly when there is none |
| Transactions.TransactionDetail | backend/app/api/transactions.py:21-63 | none exactly for a transaction the user does not own; otherwise the transaction with its split lines when it is split and no lines when it is not |
| Transactions.MissingSplitCategory | backend/app/api/transactions.py:103-114 | the first split whose category is not in the budget, or none exactly when all of them are |
| Transactions.SplitRows | backend/app/api/transactions.py:131-139 | one split row per input, in order, with consecutive ids and the input's category, amount and notes |
| Transactions.NewSplitLines | backend/app/api/transactions.py:131-145 | right after creation the transaction's lines are exactly its new rows, named by their categories |
| Transactions.NoLinesOfOthers | backend/app/api/transactions.py:46-48 | splits of earlier transactions give a new transaction no lines |
| Transactions.RowLinesAll | backend/app/api/transactions.py:46-61 | rows of the transaction whose categories all exist all appear as lines |
| Transactions.InBudgetHasName | backend/app/api/transactions.py:91-94 | a category found in a budget has a name |
| Transactions.CreateError | backend/app/api/transactions.py:71-114 | not found for a budget the user does not own; for an unsplit transaction 400 without a category and not found for a category outside the budget; for a split one not found naming the first split category outside the budget; no error exactly when all these checks pass |
| Transactions.FirstMissingIs | backend/app/api/transactions.py:104-114 | the split loop stops at the first split whose category is not in the budget |
| Transactions.NewTransactionDetail | backend/app/api/transactions.py:141-145 | the detail read back after creation is the new transaction with the lines of its new split rows |
| Transactions.NewSplitRows | backend/app/api/transactions.py:131-139 | an unsplit transaction adds no split rows; a split one adds one per split |
| Transactions.CreateTransaction | backend/app/api/transactions.py:65-146 | an amount not above zero gives its 422 error, and then a failed handler check its own error, both with the store unchanged; otherwise the transaction is appended with the next id, its split rows after it, and the returned detail is the one read back |
| Transactions.AmountFieldError | backend/app/schemas/transaction.py:8-17 | no error exactly when the amount, if given, is positive |
| Transactions.RecordTransaction | backend/app/api/transactions.py:71-146 | the handler body after validation: a failed check leaves the store unchanged and returns its error; otherwise the rows are appended and the detail read back |
| Transactions.InsertTransaction | backend/app/api/transactions.py:116-139 | the transaction row takes an id above all earlier ones and is appended, then its split rows |
| Transactions.NewTransactionIndex | backend/app/api/transactions.py:145 | a new transaction with an id above all earlier ones is found at the end |
| Transactions.AddSplitRows | backend/app/api/transactions.py:131-139 | the loop appends exactly the split rows and advances the counter by their count |
| Transactions.ByRecencyIsPreorder | backend/app/api/transactions.py:182 | newest date first, then latest created first, is a total preorder |
| Transactions.ListedTransactions | backend/app/api/transactions.py:148-182 | a limit above 200 is rejected and only then |
| Transactions.ListedTransactionsSound | backend/app/api/transactions.py:158-182 | the list holds only the user's transactions that pass the budget, category (own or a split's), start and end filters, with an id of 0 meaning no filter; it is exactly the first `Min(limit, n)` of the n matches sorted newest first (all of them for a negative limit), and every match when the limit does not bind |
| Transactions.DetailsOf | backend/app/api/transactions.py:185-189 | the details never outnumber the listed transactions |
| Transactions.DetailsOfListed | backend/app/api/transactions.py:185-189 | every listed transaction is found again, so no detail drops out |
| Transactions.ListTransactions | backend/app/api/transactions.py:148-191 | the handler returns the rejection or one detail per listed transaction |
| Transactions.SpendingLine | backend/app/api/transactions.py:233-260 | a category's line carries its id, name and allocation, spends its unsplit transactions plus its splits, and spent plus remaining is the allocation |
| Transactions.SpendingSummary | backend/app/api/transactions.py:209-265 | not found exactly for a budget the user does not own; otherwise one line per category of the budget, in order |
| Transactions.SpentAddTransaction | backend/app/api/transactions.py:235-240 | a new transaction adds to its category's spending only when it is not split |
| Transactions.SpentAddSplit | backend/app/api/transactions.py:243-247 | a new split adds its amount to its own category's spending only |
| Transactions.BudgetTransactionSummary | backend/app/api/transactions.py:232-260 | the summary loop returns exactly `SpendingSummary`: 404 for a budget the user does not own, otherwise one line per budget category with its direct and split spending (see `SpentAddTransaction`, `SpentAddSplit`) |
| Transactions.UpdateKeepsIdentity | backend/app/api/transactions.py:298-307 | an update keeps id, owner, budget and kind; an empty update changes nothing; applying it twice is applying it once |
| Transactions.UpdateTransaction | backend/app/api/transactions.py:267-312 | an amount set to zero or less gives 422 and a transaction the user does not own 404; a new category outside the transaction's budget is not found; each changes nothing; otherwise only that transaction is replaced by its updated version |
| Transactions.DeleteTransaction | backend/app/api/transactions.py:314-334 | a transaction the user does not own is not found with nothing changed; otherwise only it is removed, its split rows left in place |

## Left out

**Database, HTTP and environment**

- Database and HTTP plumbing are not modelled:
  - sessions, queries, joins, flush and commit;
  - routing and authentication;
  - HTTP status codes, which become `Result` errors.
- Concurrency is out of scope. Races between simultaneous requests on the same rows are not modelled, and every handler runs alone.
- Clocks are parameters of the handlers that read them: `date.today()`, `datetime.utcnow()` and the current year for invoice numbers. Nothing about real time is modelled.

**Floating point and rounding**

- Floating point is replaced by exact arithmetic:
  - suggestion confidence is held in exact tenths (1..10), whereas IEEE addition needs a fourth reinforcement from 0.7 to reach 1.0;
  - percentages, growth rates, forecasts and dollar conversions are exact reals.
- The model does not reproduce these roundings:
  - the half-even `round(…, 2)` of the accuracy and report figures;
  - the one-decimal rounding of a fund's `months_to_target`;
  - `parseFloat`/`Math.round` in the frontend.
- `calculate_projection`'s dollar figures are exact reals; their float rounding is not reproduced. Its `relativedelta` date is `AddMonths`, and a date outside years 1..9999 is the ValueError that `relativedelta` raises.

**SQL and JavaScript semantics**

- SQL `LIKE`/`ilike` patterns are plain substring containment, with ASCII case ignored as SQLite's `LIKE` does. `_` and `%` inside a keyword or search text are not wildcards.
- Lower-casing, `\w` and `\s` are ASCII only. No Unicode case mapping is modelled.
- Sorting.LexLess: strings are compared by code point. JavaScript's `<` compares UTF-16 code units, so a character beyond U+FFFF (a surrogate pair) sorts before U+E000..U+FFFF there and after them here. Strings without such characters order alike.
- FundUtils.ValidateFund: `name.length` counts UTF-16 code units, and the model counts characters. A name with characters beyond U+FFFF (128 emoji are 256 code units) can pass the 255 limit here and fail it in the source.
- CategoryUtils.ValidateCategory: the same character count against the UTF-16 `name.length` of the 255-character check.
- SQL leaves the order of rows with equal sort keys unspecified. The model fixes one order: a stable sort over table order, which is one of the orders the database may return.
- JavaScript enumerates integer-like object keys in numeric order. That affects the group order of `groupCategories` and of the category list. The model uses first-seen key order.
- CategoryUtils.GroupCategories: a group named after an `Object.prototype` key (`constructor`, `toString`, `__proto__`) makes `groups[group]` find the inherited member, and the `push` then throws a TypeError (frontend/src/lib/budget-api.ts:303-304). The model groups such names like any other.
- CategoryList.SplitByGroup: the same inherited-key TypeError (frontend/src/components/VirtualizedCategoryList.tsx:290-291) is not modelled; such a group is split out like any other.
- CategoryList.DisplayItems: built on SplitByGroup, so it lists a prototype-named group where the component would throw.

**Member-specific limits**

- FundUtils.SortFundsSound: proves sortedness only when no progress key is NaN. A fund with zero target and zero balance makes `sortFunds`' comparator inconsistent, and no order is then promised.
- SplitForm.SplitEditor.UpdateSplit: requires an index within the list. JavaScript would create a sparse entry beyond the end.
- SplitForm.IsValid: its contract states only what a valid form implies. The converse would restate the body.
- Paychecks.UpdatePaycheck: requires that a given `next_date` be a real calendar date. Python's `date` type cannot hold any other.
- Paychecks.AutoAllocate: a budget month outside 1..12 creates no instances, where Python would raise. `create_budget` refuses such months, but `create_budget_from_templates` (backend/app/api/budgets.py:171-177) takes its month as an unchecked query parameter, so such budgets can exist.
- FinancialGoals.GoalCreateError: the schema bounds dollar floats, and the model checks the cents. A positive amount below one cent passes the schema and is stored as 0 cents; the model refuses it.
- FinancialGoals.GoalUpdateError: the same whole-cent reading of the dollar bounds as GoalCreateError.
- FinancialGoals.PositiveFieldError: the same whole-cent reading of the `gt=0` dollar bounds of contributions and milestones.
- FinancialGoals.UpdateGoal: the update body's `is_active` field is not modelled. The goal table has no such column, so assigning it stores nothing.
- CategoryTemplates.ListTemplates: the handler passes limit, offset and has_more, but the `CategoryTemplateList` response model (backend/app/schemas/category_template.py:35-37) declares only templates and total, so the model returns only those two. A non-empty `category_group` filter raises AttributeError, because the template table (backend/app/models/category_template.py) has no such column; the model returns that error.
- Invoices.ListPage: the status filter is an optional `Status`, where `list_invoices` (backend/app/api/invoices.py:44) takes any string. A string that names no status matches no invoice there. The model cannot be given such a string, and it does not model how the enum column binds the string's spelling.
- BudgetReports.IncludedBudgets: is defined for every budget and compares an undated budget's (year, month, 1) as a tuple. The reports consult it only after `DatedBudgetsInRange` has found every budget of the user dated, so no report answers where `date(year, month, 1)` raises.
- BudgetReports.GenerateTrendReport: takes the per-period trend rows as input. `_generate_trends` is left out because it groups with SQL `strftime`.
- SinkingFunds.FundProgress: the `on_track` test divides days by 30.44 in exact reals rather than floats.
- Calendar.AddDays: is defined for every year. Python's `date + timedelta` raises OverflowError once the date passes 9999-12-31.
- Calendar.AddMonths: is defined for every year. `date + relativedelta(months=n)` raises ValueError when the year leaves 1..9999; `CalculateProjection` checks that range and returns the error, the paycheck schedule does not.
- Paychecks.NextPaycheckDate: a step past 9999-12-31 raises OverflowError (`timedelta`) or ValueError (`relativedelta`) in the source. The model returns a date in year 10000. Only a stored date in the last weeks of year 9999 reaches this.
- Paychecks.GenerateUpcomingDates: built on NextPaycheckDate, so the same overflow past 9999-12-31 is not modelled.
- Paychecks.AutoAllocate: upcoming dates that pass 9999-12-31 raise in the source; the model carries on with dates in year 10000.
- Invoices.UpdateInvoice: the update record cannot hold an explicit JSON `null`. `exclude_unset` keeps a sent null and the handler assigns it: a null `customer_id`, `issue_date` or `due_date` fails the NOT NULL column at commit (IntegrityError), and a null `discount_cents` raises TypeError in the totals when lines are sent too (and is stored as NULL otherwise). None of these is modelled.
- CategoryTemplates.UpdateTemplate: only the icon and colour can be set to null. A null `name`, `category_type` or `default_allocation_cents` is assigned by the source and fails its NOT NULL column at commit (IntegrityError); the model cannot be given one.
- SinkingFunds.UpdateFund: only the target date, description and colour can be set to null. A null `name`, `target_cents` or `monthly_contribution_cents` fails its NOT NULL column at commit (IntegrityError), and a null `is_active` is stored as NULL; the model cannot be given either.
- FinancialGoals.UpdateGoal: only the description and notes can be set to null. A null cents field raises TypeError in `to_cents_dict` (backend/app/schemas/financial_goal.py:113-117), and a null `name`, `goal_type` or `target_date` fails its NOT NULL column at commit (IntegrityError); the model cannot be given these.
- FinancialGoals.UpdateMilestone: a null `name`, `target_amount` or `target_date` fails its NOT NULL column at commit (IntegrityError), and the model cannot be given one. An `achieved: null` takes the `not value` branch (backend/app/api/financial_goals.py:365-367), which clears the flag and the date exactly as `false` does, so `Some(false)` stands for it.

**Source inconsistencies taken as given**

- `BudgetCategory` (backend/app/models/budget.py:23-33) has no `is_active`, `description` or `category_group` columns. The services and the frontend use them, and the model gives categories those fields.
- `models/transaction.py` has no `is_split` column and no split relationship. The model keeps `isSplit` on transactions, as the handlers use it.
- backend/app/api/transactions.py:9-17 imports `TransactionSplit`, `TransactionWithSplits` and `TransactionSplitWithCategory`, which no schema or model defines. `TransactionCreate` (backend/app/schemas/transaction.py:5-13) has no `is_split` or `splits` and requires `category_id`, so as written the 400 "category_id is required for non-split transactions" path (backend/app/api/transactions.py:84-88) cannot be reached. The model follows the handler's request shape, with an optional category and split lines.
- `FinancialGoal.from_orm` reads `obj.is_active` (backend/app/schemas/financial_goal.py:150), but the goal table has no such column. As written it raises AttributeError for every goal it serialises, so `create_goal`, `list_goals` (unless the list is empty), `get_goal` and `update_goal` (backend/app/api/financial_goals.py:90, 106, 152, 212) answer 500; `create_goal` and `update_goal` have committed their change by then. The model returns the goals these handlers compute.
- `financial_goals.add_contribution` reads `goal.current_amount`/`target_amount` (backend/app/api/financial_goals.py:258-262), while the goal table defines only `*_cents` columns. As written every contribution to a goal the user owns raises AttributeError before anything is committed. The model uses the cents fields, as the rest of the handlers do.
- The paycheck schema says `net_amount_cents`/`pay_date`, where the model and handlers say `amount_cents`/`next_date`. The validator is modelled on the schema's names.

**Endpoints and files not modelled**

- Paycheck endpoints (thin CRUD without rules of their own):
  - `create_paycheck`, `list_paychecks`, `get_paycheck`, `delete_paycheck`;
  - `create_paycheck_instance`, `list_budget_paycheck_instances`, `mark_paycheck_received`.
- Budget endpoints (queries without logic beyond the ownership check): `list_budgets`, `get_budget_by_period` and `delete_budget`.
- `get_fund_progress`: its database aggregation is not modelled. Its arithmetic is `calculate_fund_progress`, which is modelled.
- `download_pdf` and the PDF, CSV and export services are rendering and file formatting.
- Not modelled: customers, metrics, the migration and seed scripts, and the HTTP test scripts.
- The React rendering, effects and API clients are not modelled, apart from the utilities and component logic named above.
